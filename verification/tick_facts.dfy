/** What a tick does with one rule's inputs, over the fields of those inputs:
    which prices count, what is noted, and when the exchange is called. */
module TickFacts {
  import opened Prelude
  import opened Models
  import opened Trailing
  import opened DaemonState
  import opened Json
  import opened Submission
  import opened Tick
  import opened Restart
  import opened WholeRuns

  /** The gateway answered with a mark price of the rule's own coin. */
  predicate IsOwnMark(rule: Rule, mark: Option<PriceTick>) {
    mark.Some? && mark.value.coin == rule.coin && mark.value.source == MarkPrice
  }

  /** An armed rule hears exactly the mark prices of its own coin. */
  lemma HearsExactlyWhen(s: State, id: string, tick: TickInputs)
    requires Known(s, id)
    ensures HearsIn(s, id, tick) <==>
      && s.rules[id].status == Active && tick.account.Some?
      && IsOwnMark(s.rules[id], tick.rules(id).mark)
      && !s.runtimes[id].triggered && SpecSized(ViewOf(s, id), tick.account.value).protectedSize > 0.0
  {
  }

  // ---------------------------------------------------------------------
  // Prices that do not count
  // ---------------------------------------------------------------------

  /** All about a rule but its size and what was noted. */
  datatype Standing = Standing(rule: Rule, trail: Trail, triggered: bool, events: seq<Event>)

  function StandingOf(s: State, log: Log, id: string): Standing
    requires Known(s, id)
  {
    Standing(s.rules[id], s.runtimes[id].trail, s.runtimes[id].triggered, EventsOf(log, id))
  }

  lemma PassIgnoresOtherPrices(py: Python, config: Config, account: Account, s: State, log: Log, id: string,
                               inputs: RuleInputs)
    requires Known(s, id) && !IsOwnMark(s.rules[id], inputs.mark)
    ensures var (t, after) := ProcessRule(py, config, account, s, log, id, inputs);
      && Known(t, id) && StandingOf(t, after, id) == StandingOf(s, log, id)
      && t.observedIds == s.observedIds && t.observedAt == s.observedAt && after == log
  {
  }

  lemma PassLeavesOtherStandings(py: Python, config: Config, account: Account, s: State, log: Log, visited: string,
                                 inputs: RuleInputs, id: string)
    requires Coherent(s) && Known(s, visited) && Known(s, id) && visited != id
    ensures var (t, after) := ProcessRule(py, config, account, s, log, visited, inputs);
      Known(t, id) && StandingOf(t, after, id) == StandingOf(s, log, id)
  {
    ProcessRuleTouchesOnly(py, config, account, s, log, visited, inputs);
    if s.rules[visited].status != Disabled {
      ProcessRuleWrites(py, config, account, s, log, visited, inputs);
      PassLogs(py, config, account, s, log, visited, inputs, id);
    }
  }

  ghost predicate KeepsStanding(pass: Pass, id: string, rule: Rule) {
    forall s, log, visited :: Coherent(s) && Known(s, id) && visited in s.rules && s.rules[id] == rule ==>
      var (t, after) := pass(s, log, visited);
      && Coherent(t) && Known(t, id) && t.rules.Keys == s.rules.Keys
      && StandingOf(t, after, id) == StandingOf(s, log, id)
  }

  lemma PassesKeepStanding(py: Python, config: Config, account: Account, inputs: string -> RuleInputs, id: string,
                           rule: Rule)
    requires !IsOwnMark(rule, inputs(id).mark)
    ensures KeepsStanding(PassOf(py, config, account, inputs), id, rule)
  {
    forall s, log, visited | Coherent(s) && Known(s, id) && visited in s.rules && s.rules[id] == rule
      ensures var (t, after) := PassOf(py, config, account, inputs)(s, log, visited);
        && Coherent(t) && Known(t, id) && t.rules.Keys == s.rules.Keys
        && StandingOf(t, after, id) == StandingOf(s, log, id)
    {
      assert RecordCoherent(visited, s.rules[visited], s.runtimes[visited]);
      ProcessRuleTouchesOnly(py, config, account, s, log, visited, inputs(visited));
      if visited == id {
        PassIgnoresOtherPrices(py, config, account, s, log, id, inputs(id));
      } else {
        PassLeavesOtherStandings(py, config, account, s, log, visited, inputs(visited), id);
      }
    }
  }

  lemma {:induction false} LoopKeepsStanding(pass: Pass, s: State, log: Log, ids: seq<string>, id: string)
    requires Coherent(s) && Known(s, id) && KeepsStanding(pass, id, s.rules[id])
    requires forall i :: 0 <= i < |ids| ==> ids[i] in s.rules
    ensures var (t, after) := Loop(pass, s, log, ids);
      && Coherent(t) && Known(t, id) && t.rules.Keys == s.rules.Keys
      && StandingOf(t, after, id) == StandingOf(s, log, id)
  {
    if ids != [] {
      LoopKeepsStanding(pass, s, log, ids[..|ids| - 1], id);
      assert ids[|ids| - 1] in Loop(pass, s, log, ids[..|ids| - 1]).0.rules;
    }
  }

  lemma LoopIgnoresOtherPrices(py: Python, config: Config, account: Account, s: State, log: Log,
                               inputs: string -> RuleInputs, id: string)
    requires Coherent(s) && Known(s, id) && !IsOwnMark(s.rules[id], inputs(id).mark)
    ensures var (t, after) := Loop(PassOf(py, config, account, inputs), s, log, s.order);
      Known(t, id) && StandingOf(t, after, id) == StandingOf(s, log, id)
  {
    PassesKeepStanding(py, config, account, inputs, id, s.rules[id]);
    LoopKeepsStanding(PassOf(py, config, account, inputs), s, log, s.order, id);
  }

  lemma SavingKeepsStanding(t: State, after: Log, id: string)
    requires Known(t, id)
    ensures StandingOf(t, Then(after, StateSaved(t)), id) == StandingOf(t, after, id)
  {
  }

  /** A price that is a mid price, or another coin's, or missing, leaves the
      rule, its trail and its latch as they were, and nothing is logged about
      it. */
  lemma OtherPricesAreIgnored(py: Python, config: Config, s: State, log: Log, tick: TickInputs, id: string)
    requires Coherent(s) && Known(s, id)
    requires var mark := tick.rules(id).mark;
      mark.None? || mark.value.source == MidPrice || mark.value.coin != s.rules[id].coin
    ensures var (t, after) := TickResult(py, config, s, log, tick);
      Known(t, id) && StandingOf(t, after, id) == StandingOf(s, log, id)
  {
    if tick.account.Some? {
      var (t, after) := Loop(PassOf(py, config, tick.account.value, tick.rules), s, log, s.order);
      LoopIgnoresOtherPrices(py, config, tick.account.value, s, log, tick.rules, id);
      SavingKeepsStanding(t, after, id);
    }
  }

  // ---------------------------------------------------------------------
  // What a tick notes
  // ---------------------------------------------------------------------

  /** Whether a live mark is noted for the rule, and when it was observed. */
  datatype Note = Note(observed: bool, at: Option<string>)

  function NoteOf(s: State, id: string): Note {
    Note(id in s.observedIds, if id in s.observedAt then Some(s.observedAt[id]) else None)
  }

  /** A tick notes its own mark for an enabled rule. */
  function NoteAfter(before: Note, rule: Rule, mark: Option<PriceTick>): Note {
    if rule.status == Active && IsOwnMark(rule, mark) then Note(true, Some(mark.value.observedAt.text)) else before
  }

  lemma PassNotes(py: Python, config: Config, account: Account, s: State, log: Log, visited: string,
                  inputs: RuleInputs, id: string)
    requires Known(s, visited)
    ensures NoteOf(ProcessRule(py, config, account, s, log, visited, inputs).0, id)
         == if visited == id then NoteAfter(NoteOf(s, id), s.rules[id], inputs.mark) else NoteOf(s, id)
  {
  }

  ghost predicate NotesOnce(pass: Pass, id: string, mark: Option<PriceTick>) {
    forall s, log, visited :: Coherent(s) && visited in s.rules && id in s.rules ==>
      NoteOf(pass(s, log, visited).0, id)
      == if visited == id then NoteAfter(NoteOf(s, id), s.rules[id], mark) else NoteOf(s, id)
  }

  lemma PassesNoteOnce(py: Python, config: Config, account: Account, inputs: string -> RuleInputs, id: string)
    ensures NotesOnce(PassOf(py, config, account, inputs), id, inputs(id).mark)
  {
    forall s, log, visited | Coherent(s) && visited in s.rules && id in s.rules
      ensures NoteOf(PassOf(py, config, account, inputs)(s, log, visited).0, id)
           == if visited == id then NoteAfter(NoteOf(s, id), s.rules[id], inputs(id).mark) else NoteOf(s, id)
    {
      assert RecordCoherent(visited, s.rules[visited], s.runtimes[visited]);
      PassNotes(py, config, account, s, log, visited, inputs(visited), id);
    }
  }

  lemma {:induction false} LoopNotes(pass: Pass, s: State, log: Log, ids: seq<string>, id: string,
                                     mark: Option<PriceTick>)
    requires OneAtATime(pass) && NotesOnce(pass, id, mark) && Coherent(s) && id in s.rules && Distinct(ids)
    requires forall i :: 0 <= i < |ids| ==> ids[i] in s.rules
    ensures NoteOf(Loop(pass, s, log, ids).0, id)
         == if id in ids then NoteAfter(NoteOf(s, id), s.rules[id], mark) else NoteOf(s, id)
  {
    if ids != [] {
      var n := |ids| - 1;
      LoopNotes(pass, s, log, ids[..n], id, mark);
      LoopTouchesOnlyVisited(pass, s, log, ids[..n]);
      DistinctLast(ids);
    }
  }

  /** After a tick with a snapshot a rule has a live mark noted, with that mark's
      own time, if the tick showed it one; otherwise its note is as before. */
  lemma TickNotes(py: Python, config: Config, s: State, log: Log, tick: TickInputs, id: string)
    requires Coherent(s) && id in s.rules
    ensures var t := TickResult(py, config, s, log, tick).0;
      NoteOf(t, id) == if tick.account.Some? then NoteAfter(NoteOf(s, id), s.rules[id], tick.rules(id).mark)
                       else NoteOf(s, id)
  {
    if tick.account.Some? {
      PassesTouchOneRecord(py, config, tick.account.value, tick.rules);
      PassesNoteOnce(py, config, tick.account.value, tick.rules, id);
      LoopNotes(PassOf(py, config, tick.account.value, tick.rules), s, log, s.order, id, tick.rules(id).mark);
    }
  }

  // ---------------------------------------------------------------------
  // When a pass calls the exchange
  // ---------------------------------------------------------------------

  /** The exit that a pass fires. */
  function FiredExit(config: Config, account: Account, s: State, id: string, inputs: RuleInputs)
    : Option<TriggeredExit>
    requires Known(s, id)
  {
    if s.rules[id].status == Disabled || !IsOwnMark(s.rules[id], inputs.mark) then None
    else Observed(SizedRuntime(s, id, account), config.window, inputs.mark.value).1
  }

  /** A pass calls the exchange for its rule exactly when it fires a live exit
      that the factory's own answer, the key store, the clock and the state's
      switch let through, and the attempt could be logged. */
  lemma PassCallsExactlyWhen(py: Python, config: Config, account: Account, s: State, log: Log, id: string,
                             inputs: RuleInputs)
    requires Known(s, id)
    ensures var exit := FiredExit(config, account, s, id, inputs);
      Calls(ProcessRule(py, config, account, s, log, id, inputs).1, id) == Calls(log, id) +
        if && exit.Some? && s.rules[id].executionMode == AutoSubmit && !inputs.world.reply.AttemptNotLogged?
           && Submits(exit.value, s.rules[id], config, inputs.world, s.killSwitch) then 1 else 0
  {
    if FiredExit(config, account, s, id, inputs).Some? {
      var exit := FiredExit(config, account, s, id, inputs).value;
      var saved := SavedAhead(config, account, s, log, id, inputs);
      assert Calls(saved, id) == Calls(log, id);
      HandledOnAnswer(py, saved, config, account, exit, s.rules[id], inputs.world, s.killSwitch, true);
    }
  }
}
