/** Ticks in a row: each rule evolves and logs on its own, and saving and
    loading between ticks is invisible. */
module Restart {
  import opened Prelude
  import opened Models
  import opened Trailing
  import opened Json
  import opened DaemonState
  import opened Fills
  import opened Storage
  import opened Submission
  import opened Tick

  // ---------------------------------------------------------------------
  // One rule on its own
  // ---------------------------------------------------------------------

  /** All of the state that a rule's future depends on, besides the switch. */
  datatype View = View(runtime: Runtime, high: real)

  function ViewOf(s: State, id: string): View
    requires Known(s, id)
  {
    View(s.runtimes[id], HighWater(s.filledSize, s.rules[id]))
  }

  function SpecSized(view: View, account: Account): Runtime {
    view.runtime.(protectedSize := ProtectedSpec(view.runtime.rule, view.runtime.protectedSize, view.high, account))
  }

  /** The event is about rule `id`. */
  predicate Concerns(event: Event, id: string) {
    match event
    case RuleCreated(other) => other == id
    case RuleDisabled(other) => other == id
    case RulePromoted(other) => other == id
    case RuleReset(other) => other == id
    case KillSwitchSet(_) => false
    case DryRunExit(exit) => exit.ruleId == id
    case SubmissionBlocked(exit, _) => exit.ruleId == id
    case ExchangeCalled(exit, _, _, _, _, _) => exit.ruleId == id
    case SubmissionFailed(other) => other == id
    case SubmissionSucceeded(other) => other == id
    case StateSaved(_) => false
  }

  /** What was logged about rule `id`, oldest first. */
  function EventsOf(log: Log, id: string): seq<Event> {
    match log
    case Start => []
    case Then(past, last) => EventsOf(past, id) + if Concerns(last, id) then [last] else []
  }

  /** The rule takes part in a tick with this account snapshot. */
  predicate TakesPart(view: View, account: Option<Account>) {
    account.Some? && view.runtime.rule.status != Disabled
  }

  /** One tick of one rule, by the one-line accounting and on its own record. */
  function LocalTick(py: Python, config: Config, view: View, killSwitch: bool, account: Option<Account>,
                     inputs: RuleInputs): View {
    if !TakesPart(view, account) then view
    else
      var sized := SpecSized(view, account.value);
      View(RecordAfterMark(py, config, account.value, sized, Start, killSwitch, inputs).0,
           HighWaterSpec(view.runtime.rule, view.high, account.value))
  }

  /** What that tick logs about the rule. */
  function LocalEvents(py: Python, config: Config, view: View, killSwitch: bool, account: Option<Account>,
                       inputs: RuleInputs): seq<Event> {
    if !TakesPart(view, account) then []
    else
      var sized := SpecSized(view, account.value);
      EventsOf(RecordAfterMark(py, config, account.value, sized, Start, killSwitch, inputs).1, view.runtime.rule.id)
  }

  /** Coherent, with ids that carry no colon and sizes within their caps. */
  predicate Sound(s: State) {
    && Coherent(s)
    && (forall id :: id in s.rules ==> NoColon(id))
    && (forall id :: id in s.rules ==> s.runtimes[id].protectedSize <= s.rules[id].size)
  }

  predicate Reported(account: Option<Account>) {
    account.Some? ==> FillsNonNegative(account.value.fills)
  }

  lemma SoundKnows(s: State, id: string)
    requires Sound(s) && id in s.rules
    ensures Known(s, id) && s.rules[id].id == id && NoColon(id) && WellFormed(s.rules[id])
    ensures s.runtimes[id].rule == s.rules[id] && s.runtimes[id].protectedSize <= s.rules[id].size
  {
    assert RecordCoherent(id, s.rules[id], s.runtimes[id]);
  }

  /** `own` with its events appended to `log`. */
  function Appended(log: Log, own: Log): Log {
    match own
    case Start => log
    case Then(past, last) => Then(Appended(log, past), last)
  }

  lemma {:induction false} EventsAppend(log: Log, own: Log, id: string)
    ensures EventsOf(Appended(log, own), id) == EventsOf(log, id) + EventsOf(own, id)
  {
    if own.Then? {
      EventsAppend(log, own.past, id);
    }
  }

  /** Handling an exit does not depend on what was logged before. */
  lemma HandledAppends(py: Python, log: Log, config: Config, account: Account, exit: TriggeredExit, rule: Rule,
                       context: Option<Readiness>, world: World)
    ensures var (outcome, own) := Handled(py, Start, config, account, exit, rule, context, world);
      Handled(py, log, config, account, exit, rule, context, world) == (outcome, Appended(log, own))
  {
    assert forall a :: Appended(log, Then(Start, a)) == Then(log, a);
    assert forall a, b :: Appended(log, Then(Then(Start, a), b)) == Then(Appended(log, Then(Start, a)), b);
  }

  /** It logs about its own rule alone. */
  lemma HandledConcernsItsRule(py: Python, config: Config, account: Account, exit: TriggeredExit, rule: Rule,
                               context: Option<Readiness>, world: World, id: string)
    requires id != exit.ruleId
    ensures EventsOf(Handled(py, Start, config, account, exit, rule, context, world).1, id) == []
  {
    assert EventsOf(Start, id) == [];
  }

  lemma RecordLogs(py: Python, config: Config, account: Account, runtime: Runtime, log: Log, killSwitch: bool,
                   inputs: RuleInputs, id: string)
    ensures var (after, logged) := RecordAfterMark(py, config, account, runtime, log, killSwitch, inputs);
      var (alone, own) := RecordAfterMark(py, config, account, runtime, Start, killSwitch, inputs);
      && after == alone
      && EventsOf(logged, id) == EventsOf(log, id) + EventsOf(own, id)
      && (runtime.rule.id != id ==> EventsOf(own, id) == [])
  {
    var mark := UsableMark(runtime.rule, inputs.mark);
    if mark.Some? {
      var (observed, exit) := Observed(runtime, config.window, mark.value);
      if exit.Some? {
        var context := ContextFor(inputs.world.context, killSwitch, true);
        var rule, world := runtime.rule, inputs.world;
        HandledAppends(py, log, config, account, exit.value, rule, context, world);
        EventsAppend(log, Handled(py, Start, config, account, exit.value, rule, context, world).1, id);
        if rule.id != id {
          HandledConcernsItsRule(py, config, account, exit.value, rule, context, world, id);
        }
      }
    }
  }

  /** Saving ahead logs nothing about any rule. */
  lemma SavingLogsNoRule(config: Config, account: Account, s: State, log: Log, visited: string, inputs: RuleInputs,
                         id: string)
    requires Known(s, visited)
    ensures EventsOf(SavedAhead(config, account, s, log, visited, inputs), id) == EventsOf(log, id)
  {
  }

  /** What a pass over `visited` logs about rule `id`. */
  lemma PassLogs(py: Python, config: Config, account: Account, s: State, log: Log, visited: string,
                 inputs: RuleInputs, id: string)
    requires Known(s, visited)
    ensures var saved := SavedAhead(config, account, s, log, visited, inputs);
      var sized := SizedRuntime(s, visited, account);
      var (after, logged) := RecordAfterMark(py, config, account, sized, saved, s.killSwitch, inputs);
      var (alone, own) := RecordAfterMark(py, config, account, sized, Start, s.killSwitch, inputs);
      && after == alone
      && EventsOf(logged, id) == EventsOf(log, id) + EventsOf(own, id)
      && (visited != id ==> EventsOf(own, id) == [])
  {
    SavingLogsNoRule(config, account, s, log, visited, inputs, id);
    RecordLogs(py, config, account, SizedRuntime(s, visited, account),
               SavedAhead(config, account, s, log, visited, inputs), s.killSwitch, inputs, id);
  }

  lemma MarkIgnoresStatus(rule: Rule, liveStatus: LiveStatus, filled: map<string, real>)
    ensures HighWater(filled, rule.(liveStatus := liveStatus)) == HighWater(filled, rule)
  {
  }

  /** The accounting of a pass is the one-line one. */
  lemma PassSizes(s: State, id: string, account: Account)
    requires Sound(s) && id in s.rules && FillsNonNegative(account.fills) && Known(s, id)
    ensures var books := Booked(s.rules[id], BooksOf(s, id), account);
      && SizedRuntime(s, id, account) == SpecSized(ViewOf(s, id), account)
      && HighWater(books.filled, s.rules[id]) == HighWaterSpec(s.rules[id], ViewOf(s, id).high, account)
      && books.size <= s.rules[id].size
  {
    SoundKnows(s, id);
    AccountingExactlyWhen(s.rules[id], BooksOf(s, id), account);
    AccountingMeetsSpec(s.rules[id], BooksOf(s, id), account);
    AccountingStaysInRange(s.rules[id], BooksOf(s, id), account);
  }

  /** A pass moves its own view by `LocalTick` and logs `LocalEvents`. */
  lemma PassMovesItsView(py: Python, config: Config, account: Account, s: State, log: Log, id: string,
                         inputs: RuleInputs)
    requires Sound(s) && id in s.rules && FillsNonNegative(account.fills)
    requires Known(s, id)
    ensures var (t, after) := ProcessRule(py, config, account, s, log, id, inputs);
      && Known(t, id)
      && ViewOf(t, id) == LocalTick(py, config, ViewOf(s, id), s.killSwitch, Some(account), inputs)
      && t.runtimes[id].protectedSize <= t.rules[id].size
      && EventsOf(after, id)
         == EventsOf(log, id) + LocalEvents(py, config, ViewOf(s, id), s.killSwitch, Some(account), inputs)
  {
    SoundKnows(s, id);
    var rule := s.rules[id];
    if rule.status != Disabled {
      var sized := SizedRuntime(s, id, account);
      PassSizes(s, id, account);
      ProcessRuleWrites(py, config, account, s, log, id, inputs);
      PassLogs(py, config, account, s, log, id, inputs, id);
      RecordKeepsRule(py, config, account, sized, Start, s.killSwitch, inputs);
      var t := ProcessRule(py, config, account, s, log, id, inputs).0;
      MarkIgnoresStatus(rule, t.rules[id].liveStatus, t.filledSize);
    }
  }

  /** A pass leaves every other view alone, and logs nothing about its rule. */
  lemma PassLeavesOtherViews(py: Python, config: Config, account: Account, s: State, log: Log, other: string,
                             inputs: RuleInputs, id: string)
    requires Sound(s) && other in s.rules && id in s.rules && other != id
    requires Known(s, other) && Known(s, id)
    ensures var (t, after) := ProcessRule(py, config, account, s, log, other, inputs);
      Known(t, id) && ViewOf(t, id) == ViewOf(s, id) && EventsOf(after, id) == EventsOf(log, id)
  {
    SoundKnows(s, other);
    SoundKnows(s, id);
    if s.rules[other].status != Disabled {
      ProcessRuleWrites(py, config, account, s, log, other, inputs);
      OtherMarksStay(s.rules[other], BooksOf(s, other), account, s.rules[id]);
      PassLogs(py, config, account, s, log, other, inputs, id);
    }
  }

  /** `t` is a sound successor of `s` with the same rules and switch. */
  predicate Steady(s: State, t: State) {
    Sound(t) && t.order == s.order && t.killSwitch == s.killSwitch && t.rules.Keys == s.rules.Keys
  }

  lemma SteadyChain(s: State, t: State, u: State)
    requires Steady(s, t) && Steady(t, u)
    ensures Steady(s, u)
  {
  }

  /** How one tick moves one view, and what it logs about its rule. */
  type Move = View -> (View, seq<Event>)

  /** `(t, after)` comes from `(s, log)` by `move` on the view of rule `id`, or
      else with that view as it was and nothing logged about the rule. */
  predicate MovedBy(s: State, log: Log, t: State, after: Log, id: string, moved: bool, move: Move)
    requires Known(s, id)
  {
    var (view, events) := if moved then move(ViewOf(s, id)) else (ViewOf(s, id), []);
    Known(t, id) && ViewOf(t, id) == view && EventsOf(after, id) == EventsOf(log, id) + events
  }

  lemma MovesChain(s: State, log: Log, t: State, between: Log, u: State, after: Log, id: string, first: bool,
                   second: bool, move: Move)
    requires Known(s, id) && Known(t, id) && !(first && second)
    requires MovedBy(s, log, t, between, id, first, move) && MovedBy(t, between, u, after, id, second, move)
    ensures MovedBy(s, log, u, after, id, first || second, move)
  {
  }

  /** A pass over `visited`, seen from rule `id`. */
  ghost predicate PassIsLocal(pass: Pass, id: string, move: Move, killSwitch: bool) {
    forall s, log, visited :: Sound(s) && visited in s.rules && Known(s, id) && s.killSwitch == killSwitch ==>
      var (t, after) := pass(s, log, visited);
      Steady(s, t) && MovedBy(s, log, t, after, id, visited == id, move)
  }

  function Mover(py: Python, config: Config, killSwitch: bool, account: Account, inputs: RuleInputs): Move {
    view => (LocalTick(py, config, view, killSwitch, Some(account), inputs),
             LocalEvents(py, config, view, killSwitch, Some(account), inputs))
  }

  lemma PassStaysSound(py: Python, config: Config, account: Account, s: State, log: Log, visited: string,
                       inputs: RuleInputs)
    requires Sound(s) && visited in s.rules && Known(s, visited) && FillsNonNegative(account.fills)
    ensures var t := ProcessRule(py, config, account, s, log, visited, inputs).0;
      Sound(t) && TouchesOnly(s, t, visited)
  {
    ProcessRuleTouchesOnly(py, config, account, s, log, visited, inputs);
    PassMovesItsView(py, config, account, s, log, visited, inputs);
  }

  lemma PassesAreLocal(py: Python, config: Config, account: Account, inputs: string -> RuleInputs, id: string,
                       killSwitch: bool)
    requires FillsNonNegative(account.fills)
    ensures PassIsLocal(PassOf(py, config, account, inputs), id,
                        Mover(py, config, killSwitch, account, inputs(id)), killSwitch)
  {
    var pass, move := PassOf(py, config, account, inputs), Mover(py, config, killSwitch, account, inputs(id));
    forall s, log, visited | Sound(s) && visited in s.rules && Known(s, id) && s.killSwitch == killSwitch
      ensures var (t, after) := pass(s, log, visited);
        Steady(s, t) && MovedBy(s, log, t, after, id, visited == id, move)
    {
      SoundKnows(s, visited);
      SoundKnows(s, id);
      PassStaysSound(py, config, account, s, log, visited, inputs(visited));
      if visited == id {
        PassMovesItsView(py, config, account, s, log, id, inputs(id));
      } else {
        PassLeavesOtherViews(py, config, account, s, log, visited, inputs(visited), id);
      }
    }
  }

  lemma {:induction false} LoopIsLocal(pass: Pass, s: State, log: Log, ids: seq<string>, id: string, move: Move)
    requires PassIsLocal(pass, id, move, s.killSwitch) && Sound(s) && Known(s, id)
    requires Distinct(ids) && forall i :: 0 <= i < |ids| ==> ids[i] in s.rules
    ensures var (t, after) := Loop(pass, s, log, ids);
      Steady(s, t) && MovedBy(s, log, t, after, id, id in ids, move)
  {
    if ids != [] {
      var n := |ids| - 1;
      LoopIsLocal(pass, s, log, ids[..n], id, move);
      var (t, before) := Loop(pass, s, log, ids[..n]);
      DistinctLast(ids);
      var (u, after) := pass(t, before, ids[n]);
      assert Steady(t, u) && MovedBy(t, before, u, after, id, ids[n] == id, move);
      SteadyChain(s, t, u);
      MovesChain(s, log, t, before, u, after, id, id in ids[..n], ids[n] == id, move);
    }
  }

  lemma DistinctLast(ids: seq<string>)
    requires Distinct(ids) && ids != []
    ensures Distinct(ids[..|ids| - 1]) && ids[|ids| - 1] !in ids[..|ids| - 1]
    ensures forall id :: id in ids <==> id in ids[..|ids| - 1] || id == ids[|ids| - 1]
  {
    assert ids == ids[..|ids| - 1] + [ids[|ids| - 1]];
  }

  /** What a tick does to one rule, for the whole state. */
  predicate TickMoves(py: Python, config: Config, s: State, log: Log, inputs: TickInputs, id: string, t: State,
                      after: Log)
    requires Known(s, id)
  {
    var view := ViewOf(s, id);
    && Known(t, id)
    && ViewOf(t, id) == LocalTick(py, config, view, s.killSwitch, inputs.account, inputs.rules(id))
    && EventsOf(after, id)
       == EventsOf(log, id) + LocalEvents(py, config, view, s.killSwitch, inputs.account, inputs.rules(id))
  }

  lemma LoopMoves(py: Python, config: Config, s: State, log: Log, account: Account, inputs: string -> RuleInputs,
                  id: string)
    requires Sound(s) && id in s.rules && FillsNonNegative(account.fills) && Known(s, id)
    ensures var (t, after) := Loop(PassOf(py, config, account, inputs), s, log, s.order);
      Steady(s, t)
      && MovedBy(s, log, t, after, id, true, Mover(py, config, s.killSwitch, account, inputs(id)))
  {
    PassesAreLocal(py, config, account, inputs, id, s.killSwitch);
    LoopIsLocal(PassOf(py, config, account, inputs), s, log, s.order, id,
                Mover(py, config, s.killSwitch, account, inputs(id)));
  }

  /** The save that ends a tick is about no rule. */
  lemma LastSaveMoves(py: Python, config: Config, s: State, log: Log, inputs: TickInputs, id: string, t: State,
                      after: Log)
    requires Known(s, id) && inputs.account.Some?
    requires MovedBy(s, log, t, after, id, true,
                     Mover(py, config, s.killSwitch, inputs.account.value, inputs.rules(id)))
    ensures TickMoves(py, config, s, log, inputs, id, t, Then(after, StateSaved(t)))
  {
    assert EventsOf(Then(after, StateSaved(t)), id) == EventsOf(after, id);
  }

  /** A tick moves every rule's view, and logs about it, as that rule's own
      tick does: nothing else of the state matters, neither the other rules,
      nor their order, nor the fills they have already claimed. */
  lemma TickIsLocal(py: Python, config: Config, s: State, log: Log, inputs: TickInputs, id: string)
    requires Sound(s) && id in s.rules && Reported(inputs.account)
    ensures var (t, after) := TickResult(py, config, s, log, inputs);
      Known(s, id) && Steady(s, t) && TickMoves(py, config, s, log, inputs, id, t, after)
  {
    SoundKnows(s, id);
    if inputs.account.Some? {
      LoopMoves(py, config, s, log, inputs.account.value, inputs.rules, id);
      var (t, after) := Loop(PassOf(py, config, inputs.account.value, inputs.rules), s, log, s.order);
      LastSaveMoves(py, config, s, log, inputs, id, t, after);
    }
  }

  /** Two states that agree on one rule agree on it after the same tick, and
      the same is logged about it, even when other rules follow the same
      opening order. */
  lemma RulesDoNotInterfere(py: Python, config: Config, a: State, b: State, aLog: Log, bLog: Log,
                            inputs: TickInputs, id: string) returns (events: seq<Event>)
    requires Sound(a) && Sound(b) && id in a.rules && id in b.rules && Known(a, id) && Known(b, id)
    requires ViewOf(a, id) == ViewOf(b, id) && a.killSwitch == b.killSwitch && Reported(inputs.account)
    ensures var (a1, aAfter) := TickResult(py, config, a, aLog, inputs);
      var (b1, bAfter) := TickResult(py, config, b, bLog, inputs);
      && Known(a1, id) && Known(b1, id) && ViewOf(a1, id) == ViewOf(b1, id)
      && EventsOf(aAfter, id) == EventsOf(aLog, id) + events
      && EventsOf(bAfter, id) == EventsOf(bLog, id) + events
  {
    TickIsLocal(py, config, a, aLog, inputs, id);
    TickIsLocal(py, config, b, bLog, inputs, id);
    events := LocalEvents(py, config, ViewOf(a, id), a.killSwitch, inputs.account, inputs.rules(id));
  }

  // ---------------------------------------------------------------------
  // Many ticks
  // ---------------------------------------------------------------------

  function RunTicks(py: Python, config: Config, s: State, log: Log, ticks: seq<TickInputs>): (State, Log) {
    if ticks == [] then (s, log)
    else
      var (t, before) := RunTicks(py, config, s, log, ticks[..|ticks| - 1]);
      TickResult(py, config, t, before, ticks[|ticks| - 1])
  }

  predicate AllReported(ticks: seq<TickInputs>) {
    forall i :: 0 <= i < |ticks| ==> Reported(ticks[i].account)
  }

  lemma {:induction false} RunStaysSound(py: Python, config: Config, s: State, log: Log, ticks: seq<TickInputs>,
                                         id: string)
    requires Sound(s) && id in s.rules && AllReported(ticks)
    ensures var t := RunTicks(py, config, s, log, ticks).0;
      Known(s, id) && Known(t, id) && Steady(s, t)
  {
    SoundKnows(s, id);
    if ticks != [] {
      var n := |ticks| - 1;
      RunStaysSound(py, config, s, log, ticks[..n], id);
      var (t, before) := RunTicks(py, config, s, log, ticks[..n]);
      TickIsLocal(py, config, t, before, ticks[n], id);
      SteadyChain(s, t, RunTicks(py, config, s, log, ticks).0);
    }
  }

  /** The last tick of a run, as the rule's own tick. */
  lemma LastTickIsLocal(py: Python, config: Config, s: State, log: Log, ticks: seq<TickInputs>, id: string)
    requires Sound(s) && id in s.rules && AllReported(ticks) && ticks != []
    ensures var n := |ticks| - 1;
      var (t, before) := RunTicks(py, config, s, log, ticks[..n]);
      var (u, after) := RunTicks(py, config, s, log, ticks);
      && Steady(s, t) && Known(t, id) && Known(u, id) && WellFormed(t.rules[id])
      && TickMoves(py, config, t, before, ticks[n], id, u, after)
  {
    var n := |ticks| - 1;
    RunStaysSound(py, config, s, log, ticks[..n], id);
    var (t, before) := RunTicks(py, config, s, log, ticks[..n]);
    SoundKnows(t, id);
    TickIsLocal(py, config, t, before, ticks[n], id);
  }

  // ---------------------------------------------------------------------
  // Restarting between ticks
  // ---------------------------------------------------------------------

  /** A tick of a process that starts from a file and leaves a file. */
  ghost function TickOnFile(py: Python, config: Config, file: Json, log: Log, inputs: TickInputs): (Json, Log) {
    var loaded := DecodeState(py, file);
    if loaded.Failure? || inputs.account.None? then (file, log)
    else
      DecodedStateIsCoherent(py, file);
      TickKeepsCoherence(py, config, loaded.value, log, inputs);
      var (t, after) := TickResult(py, config, loaded.value, log, inputs);
      (EncodeState(py, t), after)
  }

  ghost function RunOnFile(py: Python, config: Config, file: Json, log: Log, ticks: seq<TickInputs>): (Json, Log) {
    if ticks == [] then (file, log)
    else
      var (f, before) := RunOnFile(py, config, file, log, ticks[..|ticks| - 1]);
      TickOnFile(py, config, f, before, ticks[|ticks| - 1])
  }

  /** Every decimal saved along the run is read back as it was printed. */
  predicate ReadableRun(py: Python, config: Config, s: State, log: Log, ticks: seq<TickInputs>) {
    forall n :: 0 <= n <= |ticks| ==> ReadableState(py, RunTicks(py, config, s, log, ticks[..n]).0)
  }

  /** One tick from a file is the tick of the state it decodes to. */
  lemma TickFromFile(py: Python, config: Config, s: State, log: Log, file: Json, inputs: TickInputs)
    requires DecodeState(py, file) == Success(s)
    requires ReadableState(py, TickResult(py, config, s, log, inputs).0)
    ensures var (t, after) := TickResult(py, config, s, log, inputs);
      var (left, logged) := TickOnFile(py, config, file, log, inputs);
      DecodeState(py, left) == Success(t) && logged == after
  {
    if inputs.account.Some? {
      DecodedStateIsCoherent(py, file);
      TickKeepsCoherence(py, config, s, log, inputs);
      StateRoundTrip(py, TickResult(py, config, s, log, inputs).0);
    }
  }

  /** A process restarted before every single tick does what one that never
      stops does: the file always decodes to the state kept in memory, and the
      same events are logged. */
  lemma {:induction false} RestartsAreInvisible(py: Python, config: Config, s: State, log: Log, file: Json,
                                                ticks: seq<TickInputs>)
    requires DecodeState(py, file) == Success(s) && ReadableRun(py, config, s, log, ticks)
    ensures var (end, after) := RunOnFile(py, config, file, log, ticks);
      DecodeState(py, end) == Success(RunTicks(py, config, s, log, ticks).0)
      && after == RunTicks(py, config, s, log, ticks).1
  {
    if ticks != [] {
      var n := |ticks| - 1;
      assert forall k :: 0 <= k <= n ==> ticks[..n][..k] == ticks[..k];
      RestartsAreInvisible(py, config, s, log, file, ticks[..n]);
      assert ticks[..|ticks|] == ticks;
      var (t, before) := RunTicks(py, config, s, log, ticks[..n]);
      TickFromFile(py, config, t, before, RunOnFile(py, config, file, log, ticks[..n]).0, ticks[n]);
    }
  }
}
