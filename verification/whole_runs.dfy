/** What one rule does over a whole run of ticks: which marks reach it, at which
    ticks it fires, what that leaves in its record and in the log, and what it
    protects. */
module WholeRuns {
  import opened Prelude
  import opened Models
  import opened Trailing
  import opened TrailingRuns
  import opened Json
  import opened DaemonState
  import opened Fills
  import opened Storage
  import opened Submission
  import opened Tick
  import opened Restart

  // ---------------------------------------------------------------------
  // The marks a rule accepts
  // ---------------------------------------------------------------------

  /** The mark of this tick is fed to the engine. */
  predicate Hears(view: View, account: Option<Account>, inputs: RuleInputs) {
    && TakesPart(view, account)
    && UsableMark(view.runtime.rule, inputs.mark).Some?
    && SpecSized(view, account.value).protectedSize > 0.0
    && !view.runtime.triggered
  }

  predicate HearsIn(s: State, id: string, tick: TickInputs) {
    Known(s, id) && Hears(ViewOf(s, id), tick.account, tick.rules(id))
  }

  /** The marks that the rule accepts over a run. */
  function Accepted(py: Python, config: Config, s: State, log: Log, ticks: seq<TickInputs>, id: string): seq<real> {
    if ticks == [] then []
    else
      var n := |ticks| - 1;
      var before := Accepted(py, config, s, log, ticks[..n], id);
      if HearsIn(RunTicks(py, config, s, log, ticks[..n]).0, id, ticks[n])
      then before + [ticks[n].rules(id).mark.value.mark] else before
  }

  lemma RecordFeeds(py: Python, config: Config, account: Account, runtime: Runtime, killSwitch: bool,
                    inputs: RuleInputs)
    requires WellFormed(runtime.rule)
    ensures var after := RecordAfterMark(py, config, account, runtime, Start, killSwitch, inputs).0;
      var mark := UsableMark(runtime.rule, inputs.mark);
      if mark.Some? && runtime.protectedSize > 0.0 && !runtime.triggered
      then after.trail == Advance(runtime.rule, config.window, runtime.trail, mark.value.mark)
      else after == runtime
  {
    var mark := UsableMark(runtime.rule, inputs.mark);
    if mark.Some? {
      var (observed, exit) := Observed(runtime, config.window, mark.value);
      if exit.Some? {
        var context := ContextFor(inputs.world.context, killSwitch, true);
        var rule, world := runtime.rule, inputs.world;
        SettledKeepsRule(observed, Handled(py, Start, config, account, exit.value, rule, context, world).0);
      }
    }
  }

  /** What one tick does to the price side of a record. */
  lemma LocalTickFeeds(py: Python, config: Config, view: View, killSwitch: bool, account: Option<Account>,
                       inputs: RuleInputs)
    requires WellFormed(view.runtime.rule)
    ensures var after := LocalTick(py, config, view, killSwitch, account, inputs).runtime;
      && after.rule == view.runtime.rule.(liveStatus := after.rule.liveStatus)
      && after.trail == (if Hears(view, account, inputs)
                         then Advance(view.runtime.rule, config.window, view.runtime.trail, inputs.mark.value.mark)
                         else view.runtime.trail)
  {
    if TakesPart(view, account) {
      var sized := SpecSized(view, account.value);
      RecordKeepsRule(py, config, account.value, sized, Start, killSwitch, inputs);
      RecordFeeds(py, config, account.value, sized, killSwitch, inputs);
    }
  }

  /** Over any run of the daemon, blocked and failed submissions included, the
      favourable price, the stop and the window are the engine's fold over the
      accepted marks. */
  lemma {:induction false} RunFeedsAcceptedMarks(py: Python, config: Config, s: State, log: Log,
                                                 ticks: seq<TickInputs>, id: string)
    requires Sound(s) && id in s.rules && AllReported(ticks) && Known(s, id)
    ensures var t := RunTicks(py, config, s, log, ticks).0;
      && Known(t, id)
      && t.rules[id] == s.rules[id].(liveStatus := t.rules[id].liveStatus)
      && t.runtimes[id].trail == Feed(s.rules[id], config.window, s.runtimes[id].trail,
                                      Accepted(py, config, s, log, ticks, id))
  {
    if ticks != [] {
      var n := |ticks| - 1;
      RunFeedsAcceptedMarks(py, config, s, log, ticks[..n], id);
      LastTickIsLocal(py, config, s, log, ticks, id);
      var t := RunTicks(py, config, s, log, ticks[..n]).0;
      LocalTickFeeds(py, config, ViewOf(t, id), t.killSwitch, ticks[n].account, ticks[n].rules(id));
      if HearsIn(t, id, ticks[n]) {
        var mark := ticks[n].rules(id).mark.value.mark;
        var marks := Accepted(py, config, s, log, ticks[..n], id);
        FeedSnoc(s.rules[id], config.window, s.runtimes[id].trail, marks, mark);
        EngineIgnoresStatus(t.rules[id], s.rules[id], config.window, t.runtimes[id].trail, mark);
      }
    }
  }

  // ---------------------------------------------------------------------
  // When a rule fires
  // ---------------------------------------------------------------------

  /** `events` is what handling `exit` may log about its rule. */
  predicate Answers(events: seq<Event>, exit: TriggeredExit) {
    if exit.executionMode == DryRun then events == [DryRunExit(exit)]
    else
      || (|events| == 1 && events[0].SubmissionBlocked? && events[0].exit == exit)
      || events == [SubmissionFailed(exit.ruleId)]
      || (&& |events| == 2 && events[0].ExchangeCalled? && events[0].exit == exit
          && (events[1] == SubmissionSucceeded(exit.ruleId) || events[1] == SubmissionFailed(exit.ruleId)))
  }

  /** `outcome` is the one that the last of these events records. */
  predicate Records(events: seq<Event>, outcome: Outcome) {
    && events != []
    && match outcome
       case DryRunRecorded => events[|events| - 1].DryRunExit?
       case LiveBlocked => events[|events| - 1].SubmissionBlocked?
       case LiveFailed => events[|events| - 1].SubmissionFailed?
       case LiveSubmitted => events[|events| - 1].SubmissionSucceeded?
  }

  lemma OneEvent(event: Event, id: string)
    requires Concerns(event, id)
    ensures EventsOf(Then(Start, event), id) == [event]
  {
    assert EventsOf(Start, id) == [];
  }

  lemma TwoEvents(first: Event, second: Event, id: string)
    requires Concerns(first, id) && Concerns(second, id)
    ensures EventsOf(Then(Then(Start, first), second), id) == [first, second]
  {
    OneEvent(first, id);
  }

  /** The log of a handled exit, event by event. */
  lemma HandledLog(py: Python, config: Config, account: Account, exit: TriggeredExit, rule: Rule,
                   context: Option<Readiness>, world: World) returns (events: seq<Event>)
    ensures var (outcome, own) := Handled(py, Start, config, account, exit, rule, context, world);
      && Answers(events, exit) && Records(events, outcome)
      && (|events| == 1 || |events| == 2)
      && own == if |events| == 1 then Then(Start, events[0]) else Then(Then(Start, events[0]), events[1])
  {
    var own := Handled(py, Start, config, account, exit, rule, context, world).1;
    events := if own.past == Start then [own.last] else [own.past.last, own.last];
  }

  lemma HandlingAnswers(py: Python, config: Config, account: Account, exit: TriggeredExit, rule: Rule,
                        context: Option<Readiness>, world: World)
    ensures var (outcome, own) := Handled(py, Start, config, account, exit, rule, context, world);
      Answers(EventsOf(own, exit.ruleId), exit) && Records(EventsOf(own, exit.ruleId), outcome)
  {
    var events := HandledLog(py, config, account, exit, rule, context, world);
    if |events| == 1 {
      OneEvent(events[0], exit.ruleId);
      assert events == [events[0]];
    } else {
      TwoEvents(events[0], events[1], exit.ruleId);
      assert events == [events[0], events[1]];
    }
  }

  /** The live status that the rule's last event leaves behind. */
  function StatusAfter(start: LiveStatus, events: seq<Event>): LiveStatus {
    if events == [] then start
    else
      match events[|events| - 1]
      case SubmissionSucceeded(_) => if start == CanaryPending then CanarySucceeded else start
      case SubmissionFailed(_) => ManualReview
      case _ => start
  }

  /** The latch is shut by the rule's last event, unless that was a block. */
  predicate LatchedBy(events: seq<Event>) {
    events != [] && !events[|events| - 1].SubmissionBlocked?
  }

  /** A fired exit decides the latch and the live status by what it logs. */
  lemma ExitSettles(observed: Runtime, events: seq<Event>, outcome: Outcome)
    requires WellFormed(observed.rule) && observed.triggered && Records(events, outcome)
    requires outcome == DryRunRecorded <==> observed.rule.executionMode == DryRun
    ensures var after := Settled(observed, outcome);
      && (after.triggered <==> LatchedBy(events))
      && after.rule.liveStatus == StatusAfter(observed.rule.liveStatus, events)
      && after.protectedSize == observed.protectedSize
  {
    SettledKeepsRule(observed, outcome);
    SettledStatus(observed, outcome);
  }

  /** One record, one mark: it logs exactly when the engine fires, and the log
      decides the latch and the live status. */
  lemma RecordFires(py: Python, config: Config, account: Account, runtime: Runtime, killSwitch: bool,
                    inputs: RuleInputs)
    requires WellFormed(runtime.rule) && !runtime.triggered
    ensures var (after, own) := RecordAfterMark(py, config, account, runtime, Start, killSwitch, inputs);
      var mark := UsableMark(runtime.rule, inputs.mark);
      var exit := if mark.Some? then Observed(runtime, config.window, mark.value).1 else None;
      var events := EventsOf(own, runtime.rule.id);
      && (exit.None? ==> events == [])
      && (exit.Some? ==> Answers(events, exit.value))
      && (after.triggered <==> LatchedBy(events))
      && after.rule.liveStatus == StatusAfter(runtime.rule.liveStatus, events)
      && after.protectedSize == runtime.protectedSize
  {
    var id, mark := runtime.rule.id, UsableMark(runtime.rule, inputs.mark);
    if mark.Some? && Observed(runtime, config.window, mark.value).1.Some? {
      var (observed, exit) := Observed(runtime, config.window, mark.value);
      var context := ContextFor(inputs.world.context, killSwitch, true);
      var rule, world := runtime.rule, inputs.world;
      var (outcome, own) := Handled(py, Start, config, account, exit.value, rule, context, world);
      HandlingAnswers(py, config, account, exit.value, rule, context, world);
      ExitSettles(observed, EventsOf(own, id), outcome);
    } else {
      assert EventsOf(Start, id) == [];
    }
  }

  lemma SettledStatus(runtime: Runtime, outcome: Outcome)
    requires WellFormed(runtime.rule)
    ensures Settled(runtime, outcome).rule.liveStatus ==
      match outcome
      case LiveSubmitted =>
        if runtime.rule.liveStatus == CanaryPending then CanarySucceeded else runtime.rule.liveStatus
      case LiveFailed => if runtime.rule.executionMode == AutoSubmit then ManualReview else NotLive
      case _ => runtime.rule.liveStatus
  {
  }

  /** The exit that a tick fires in a view, by the engine's own observation. */
  function ExitIn(view: View, w: WindowSize, tick: TickInputs, id: string): Option<TriggeredExit> {
    if !Hears(view, tick.account, tick.rules(id)) then None
    else Observed(SpecSized(view, tick.account.value), w, tick.rules(id).mark.value).1
  }

  /** With a trail that is the fold of fresh over `marks`, the engine fires on
      the next mark exactly when that mark passes. */
  lemma FoldFiresOnPassage(runtime: Runtime, rule: Rule, w: WindowSize, marks: seq<real>, tick: PriceTick)
    requires ValidNumbers(rule) && SamePriceRule(runtime.rule, rule)
    requires runtime.trail == Feed(rule, w, FRESH_TRAIL, marks) && Listens(runtime, tick)
    ensures var all := marks + [tick.mark];
      var exit := Observed(runtime, w, tick).1;
      && (exit.Some? <==> Passes(rule, w, all, |marks|))
      && (exit.Some? ==> exit.value.mark == tick.mark && exit.value.ruleId == runtime.rule.id
                         && Some(exit.value.stop) == Feed(rule, w, FRESH_TRAIL, all).stop)
  {
    var all := marks + [tick.mark];
    FeedSnoc(rule, w, FRESH_TRAIL, marks, tick.mark);
    EngineIgnoresStatus(runtime.rule, rule, w, runtime.trail, tick.mark);
    assert all[..|marks| + 1] == all;
    CrossedIffPasses(rule, w, all, |marks|);
  }

  /** `after` extends `before` by an answer to `exit`. */
  predicate AnsweredBetween(before: seq<Event>, after: seq<Event>, exit: TriggeredExit) {
    before <= after && Answers(after[|before|..], exit)
  }

  lemma ExtendedBy(before: seq<Event>, events: seq<Event>)
    ensures before <= before + events && (before + events)[|before|..] == events
  {
  }

  /** A view moves to `next` and `events` are logged about its rule. */
  predicate Fires(view: View, next: View, events: seq<Event>, exit: Option<TriggeredExit>) {
    && (exit.None? ==> events == [])
    && (exit.Some? ==> Answers(events, exit.value) && exit.value.size == next.runtime.protectedSize)
    && (view.runtime.triggered ==> events == [])
    && (next.runtime.triggered <==> view.runtime.triggered || LatchedBy(events))
    && next.runtime.rule.liveStatus == StatusAfter(view.runtime.rule.liveStatus, events)
  }

  /** A rule's own tick logs exactly the exit that the engine fires. */
  lemma LocalTickFires(py: Python, config: Config, view: View, killSwitch: bool, tick: TickInputs)
    requires WellFormed(view.runtime.rule)
    ensures var id := view.runtime.rule.id;
      Fires(view, LocalTick(py, config, view, killSwitch, tick.account, tick.rules(id)),
            LocalEvents(py, config, view, killSwitch, tick.account, tick.rules(id)),
            ExitIn(view, config.window, tick, id))
  {
    var id := view.runtime.rule.id;
    if TakesPart(view, tick.account) {
      var sized := SpecSized(view, tick.account.value);
      if sized.triggered {
        assert EventsOf(Start, id) == [];
      } else {
        RecordFires(py, config, tick.account.value, sized, killSwitch, tick.rules(id));
      }
    }
  }

  /** One tick, as the rule sees it. */
  lemma OneTickFires(py: Python, config: Config, s: State, log: Log, tick: TickInputs, id: string)
    requires Sound(s) && id in s.rules && Known(s, id) && Reported(tick.account)
    ensures var (t, after) := TickResult(py, config, s, log, tick);
      var view := ViewOf(s, id);
      var events := LocalEvents(py, config, view, s.killSwitch, tick.account, tick.rules(id));
      && Known(t, id) && EventsOf(after, id) == EventsOf(log, id) + events
      && Fires(view, ViewOf(t, id), events, ExitIn(view, config.window, tick, id))
  {
    TickIsLocal(py, config, s, log, tick, id);
    LocalTickFires(py, config, ViewOf(s, id), s.killSwitch, tick);
  }

  /** The last tick of a run, as the rule sees it. */
  lemma LastTickFires(py: Python, config: Config, s: State, log: Log, ticks: seq<TickInputs>, id: string)
    returns (view: View, next: View, events: seq<Event>)
    requires Sound(s) && id in s.rules && AllReported(ticks) && ticks != []
    ensures var n := |ticks| - 1;
      var (t, before) := RunTicks(py, config, s, log, ticks[..n]);
      var (u, after) := RunTicks(py, config, s, log, ticks);
      && Known(t, id) && ViewOf(t, id) == view && Known(u, id) && ViewOf(u, id) == next
      && events == LocalEvents(py, config, view, t.killSwitch, ticks[n].account, ticks[n].rules(id))
      && EventsOf(after, id) == EventsOf(before, id) + events
      && Fires(view, next, events, ExitIn(view, config.window, ticks[n], id))
  {
    var n := |ticks| - 1;
    LastTickIsLocal(py, config, s, log, ticks, id);
    var t, u := RunTicks(py, config, s, log, ticks[..n]).0, RunTicks(py, config, s, log, ticks).0;
    view, next := ViewOf(t, id), ViewOf(u, id);
    events := LocalEvents(py, config, view, t.killSwitch, ticks[n].account, ticks[n].rules(id));
    LocalTickFires(py, config, view, t.killSwitch, ticks[n]);
  }

  /** An exit of rule `id` on the last of `marks`, at the stop they set. */
  predicate ExitOnLast(exit: TriggeredExit, rule: Rule, w: WindowSize, marks: seq<real>, id: string, size: real) {
    && marks != [] && exit.ruleId == id && exit.mark == marks[|marks| - 1] && exit.size == size
    && exit.coin == rule.coin && exit.side == (if rule.side == Long then Sell else Buy)
    && exit.executionMode == rule.executionMode && exit.exitOrderType == rule.exitOrderType
    && Some(exit.stop) == Feed(rule, w, FRESH_TRAIL, marks).stop
  }

  /** A view whose trail is the fold over `marks` fires exactly on passage. */
  lemma ViewFiresOnPassage(view: View, rule: Rule, w: WindowSize, marks: seq<real>, tick: TickInputs, id: string)
    requires ValidNumbers(rule) && SamePriceRule(view.runtime.rule, rule) && view.runtime.rule.id == id
    requires view.runtime.trail == Feed(rule, w, FRESH_TRAIL, marks)
    requires Hears(view, tick.account, tick.rules(id))
    ensures var all := marks + [tick.rules(id).mark.value.mark];
      var exit := ExitIn(view, w, tick, id);
      && (exit.Some? <==> Passes(rule, w, all, |marks|))
      && (exit.Some? ==> ExitOnLast(exit.value, rule, w, all, id, exit.value.size))
  {
    FoldFiresOnPassage(SpecSized(view, tick.account.value), rule, w, marks, tick.rules(id).mark.value);
  }

  /** Where the rule stands before the last tick of a run from a fresh trail. */
  lemma BeforeLastTick(py: Python, config: Config, s: State, log: Log, ticks: seq<TickInputs>, id: string)
    requires Sound(s) && id in s.rules && AllReported(ticks) && Known(s, id) && ticks != []
    requires s.runtimes[id].trail == FRESH_TRAIL
    ensures var n := |ticks| - 1;
      var t := RunTicks(py, config, s, log, ticks[..n]).0;
      var marks := Accepted(py, config, s, log, ticks[..n], id);
      && Known(t, id) && SamePriceRule(t.rules[id], s.rules[id]) && ValidNumbers(s.rules[id])
      && t.runtimes[id].trail == Feed(s.rules[id], config.window, FRESH_TRAIL, marks)
      && Accepted(py, config, s, log, ticks, id)
         == if HearsIn(t, id, ticks[n]) then marks + [ticks[n].rules(id).mark.value.mark] else marks
  {
    RunFeedsAcceptedMarks(py, config, s, log, ticks[..|ticks| - 1], id);
  }

  /** A tick that left `next` and took the rule's events from `before` to `after`
      logged an answer to an exit of the rule exactly if the rule heard the last
      of `marks` and that passed; otherwise it logged nothing about the rule. */
  predicate TickFires(heard: bool, mark: Option<PriceTick>, next: Runtime, before: seq<Event>, after: seq<Event>,
                      rule: Rule, w: WindowSize, marks: seq<real>, exit: Option<TriggeredExit>) {
    && (exit.Some? <==> heard && marks != [] && Passes(rule, w, marks, |marks| - 1))
    && (exit.None? ==> after == before)
    && (exit.Some? ==> AnsweredBetween(before, after, exit.value)
                       && ExitOnLast(exit.value, rule, w, marks, rule.id, next.protectedSize)
                       && mark.Some? && exit.value.observedAt == mark.value.observedAt)
  }

  lemma ViewTickFires(view: View, next: View, events: seq<Event>, before: seq<Event>, rule: Rule, w: WindowSize,
                      marks: seq<real>, tick: TickInputs)
    requires ValidNumbers(rule) && SamePriceRule(view.runtime.rule, rule)
    requires view.runtime.trail == Feed(rule, w, FRESH_TRAIL, marks)
    requires Fires(view, next, events, ExitIn(view, w, tick, rule.id))
    ensures var heard := Hears(view, tick.account, tick.rules(rule.id));
      var all := if heard then marks + [tick.rules(rule.id).mark.value.mark] else marks;
      TickFires(heard, tick.rules(rule.id).mark, next.runtime, before, before + events, rule, w, all,
                ExitIn(view, w, tick, rule.id))
  {
    ExtendedBy(before, events);
    if Hears(view, tick.account, tick.rules(rule.id)) {
      ViewFiresOnPassage(view, rule, w, marks, tick, rule.id);
    }
  }

  /** The last tick of a run, from a fresh trail, in every mode, dry-run and
      live: the daemon logs an answer to an exit of the rule exactly when the
      rule hears a mark that passes some stop set up to it; otherwise it logs
      nothing about the rule. */
  lemma FiresExactlyOnPassage(py: Python, config: Config, s: State, log: Log, ticks: seq<TickInputs>, id: string)
    returns (exit: Option<TriggeredExit>)
    requires Sound(s) && id in s.rules && AllReported(ticks) && Known(s, id) && ticks != []
    requires s.runtimes[id].trail == FRESH_TRAIL
    ensures var n := |ticks| - 1;
      var (t, before) := RunTicks(py, config, s, log, ticks[..n]);
      var (u, after) := RunTicks(py, config, s, log, ticks);
      && Known(u, id)
      && TickFires(HearsIn(t, id, ticks[n]), ticks[n].rules(id).mark, u.runtimes[id], EventsOf(before, id),
                   EventsOf(after, id), s.rules[id], config.window, Accepted(py, config, s, log, ticks, id), exit)
  {
    var n := |ticks| - 1;
    var view, next, events := LastTickFires(py, config, s, log, ticks, id);
    BeforeLastTick(py, config, s, log, ticks, id);
    exit := ExitIn(view, config.window, ticks[n], id);
    ViewTickFires(view, next, events, EventsOf(RunTicks(py, config, s, log, ticks[..n]).1, id), s.rules[id],
                  config.window, Accepted(py, config, s, log, ticks[..n], id), ticks[n]);
  }

  /** What one tick logs about a rule. */
  function LoggedBy(py: Python, config: Config, s: State, tick: TickInputs, id: string): seq<Event> {
    if Known(s, id) then LocalEvents(py, config, ViewOf(s, id), s.killSwitch, tick.account, tick.rules(id)) else []
  }

  /** What a run logs about a rule. */
  function Logged(py: Python, config: Config, s: State, log: Log, ticks: seq<TickInputs>, id: string): seq<Event> {
    if ticks == [] then []
    else
      var n := |ticks| - 1;
      Logged(py, config, s, log, ticks[..n], id)
      + LoggedBy(py, config, RunTicks(py, config, s, log, ticks[..n]).0, ticks[n], id)
  }

  /** The latch and the live status are what the rule's own events say. */
  predicate FollowsLog(before: Runtime, after: Runtime, events: seq<Event>) {
    && (after.triggered <==> LatchedBy(events))
    && after.rule.liveStatus == StatusAfter(before.rule.liveStatus, events)
  }

  lemma FollowingGoesOn(before: Runtime, view: View, next: View, a: seq<Event>, b: seq<Event>,
                        exit: Option<TriggeredExit>)
    requires FollowsLog(before, view.runtime, a) && Fires(view, next, b, exit)
    ensures FollowsLog(before, next.runtime, a + b)
  {
    if b == [] {
      assert a + b == a;
    } else {
      assert (a + b)[|a + b| - 1] == b[|b| - 1];
    }
  }

  lemma AppendTwice(a: seq<Event>, b: seq<Event>, c: seq<Event>)
    ensures (a + b) + c == a + (b + c)
  {
  }

  lemma LastTickLogs(py: Python, config: Config, s: State, log: Log, ticks: seq<TickInputs>, id: string)
    requires Sound(s) && id in s.rules && AllReported(ticks) && ticks != []
    ensures var n := |ticks| - 1;
      EventsOf(RunTicks(py, config, s, log, ticks).1, id)
      == EventsOf(RunTicks(py, config, s, log, ticks[..n]).1, id)
         + LoggedBy(py, config, RunTicks(py, config, s, log, ticks[..n]).0, ticks[n], id)
  {
    LastTickIsLocal(py, config, s, log, ticks, id);
  }

  /** Over any run the log grows by `Logged` for the rule. */
  lemma {:induction false} RunLogs(py: Python, config: Config, s: State, log: Log, ticks: seq<TickInputs>, id: string)
    requires Sound(s) && id in s.rules && AllReported(ticks)
    ensures EventsOf(RunTicks(py, config, s, log, ticks).1, id)
         == EventsOf(log, id) + Logged(py, config, s, log, ticks, id)
  {
    if ticks != [] {
      var n := |ticks| - 1;
      RunLogs(py, config, s, log, ticks[..n], id);
      LastTickLogs(py, config, s, log, ticks, id);
      AppendTwice(EventsOf(log, id), Logged(py, config, s, log, ticks[..n], id),
                  LoggedBy(py, config, RunTicks(py, config, s, log, ticks[..n]).0, ticks[n], id));
    }
  }

  /** Over any run from an open latch, the rule is latched exactly when the last
      thing logged about it is not a block, and its live status follows. */
  lemma {:induction false} LatchFollowsLog(py: Python, config: Config, s: State, log: Log, ticks: seq<TickInputs>,
                                           id: string)
    requires Sound(s) && id in s.rules && AllReported(ticks) && Known(s, id) && !s.runtimes[id].triggered
    ensures var t := RunTicks(py, config, s, log, ticks).0;
      Known(t, id) && FollowsLog(s.runtimes[id], t.runtimes[id], Logged(py, config, s, log, ticks, id))
  {
    if ticks != [] {
      var n := |ticks| - 1;
      LatchFollowsLog(py, config, s, log, ticks[..n], id);
      var view, next, events := LastTickFires(py, config, s, log, ticks, id);
      FollowingGoesOn(s.runtimes[id], view, next, Logged(py, config, s, log, ticks[..n], id), events,
                      ExitIn(view, config.window, ticks[n], id));
    }
  }

  lemma OneMoreMark(rule: Rule, w: WindowSize, marks: seq<real>, mark: real)
    ensures AnyPasses(rule, w, marks + [mark])
       <==> AnyPasses(rule, w, marks) || Passes(rule, w, marks + [mark], |marks|)
  {
    assert (marks + [mark])[..|marks|] == marks;
    AnyPassesSnoc(rule, w, marks + [mark]);
  }

  lemma MoreMarksMorePasses(view: View, next: View, events: seq<Event>, rule: Rule, w: WindowSize, marks: seq<real>,
                            tick: TickInputs, id: string)
    requires ValidNumbers(rule) && SamePriceRule(view.runtime.rule, rule) && view.runtime.rule.id == id
    requires view.runtime.trail == Feed(rule, w, FRESH_TRAIL, marks)
    requires Hears(view, tick.account, tick.rules(id))
    requires Fires(view, next, events, ExitIn(view, w, tick, id))
    ensures AnyPasses(rule, w, marks + [tick.rules(id).mark.value.mark])
       <==> AnyPasses(rule, w, marks) || events != []
  {
    ViewFiresOnPassage(view, rule, w, marks, tick, id);
    OneMoreMark(rule, w, marks, tick.rules(id).mark.value.mark);
  }

  /** One more tick: something more passed, or nothing was logged. */
  lemma LastLogsOnPassage(py: Python, config: Config, s: State, log: Log, ticks: seq<TickInputs>, id: string)
    returns (events: seq<Event>)
    requires Sound(s) && id in s.rules && AllReported(ticks) && Known(s, id) && ticks != []
    requires s.runtimes[id].trail == FRESH_TRAIL
    ensures var rule, w, before := s.rules[id], config.window, ticks[..|ticks| - 1];
      && Logged(py, config, s, log, ticks, id) == Logged(py, config, s, log, before, id) + events
      && (AnyPasses(rule, w, Accepted(py, config, s, log, ticks, id))
          <==> AnyPasses(rule, w, Accepted(py, config, s, log, before, id)) || events != [])
  {
    var n := |ticks| - 1;
    var view, next;
    view, next, events := LastTickFires(py, config, s, log, ticks, id);
    BeforeLastTick(py, config, s, log, ticks, id);
    if Hears(view, ticks[n].account, ticks[n].rules(id)) {
      MoreMarksMorePasses(view, next, events, s.rules[id], config.window,
                          Accepted(py, config, s, log, ticks[..n], id), ticks[n], id);
    }
  }

  /** From a fresh trail, something was logged about the rule exactly when one
      of its accepted marks passed. */
  lemma {:induction false} LogsOnPassage(py: Python, config: Config, s: State, log: Log, ticks: seq<TickInputs>,
                                         id: string)
    requires Sound(s) && id in s.rules && AllReported(ticks) && Known(s, id)
    requires s.runtimes[id].trail == FRESH_TRAIL
    ensures Logged(py, config, s, log, ticks, id) != []
       <==> AnyPasses(s.rules[id], config.window, Accepted(py, config, s, log, ticks, id))
  {
    if ticks != [] {
      LogsOnPassage(py, config, s, log, ticks[..|ticks| - 1], id);
      var events := LastLogsOnPassage(py, config, s, log, ticks, id);
    }
  }

  lemma DryRunViewLogsDryRun(view: View, next: View, events: seq<Event>, w: WindowSize, tick: TickInputs, id: string)
    requires view.runtime.rule.executionMode == DryRun && Fires(view, next, events, ExitIn(view, w, tick, id))
    ensures events == [] || (|events| == 1 && events[0].DryRunExit?)
  {
    if events != [] {
      assert events == [DryRunExit(ExitIn(view, w, tick, id).value)];
    }
  }

  /** A dry-run rule logs nothing but its dry-run exits. */
  lemma {:induction false} DryRunsLogDryRuns(py: Python, config: Config, s: State, log: Log, ticks: seq<TickInputs>,
                                             id: string)
    requires Sound(s) && id in s.rules && AllReported(ticks) && Known(s, id) && s.rules[id].executionMode == DryRun
    ensures var events := Logged(py, config, s, log, ticks, id);
      events != [] ==> events[|events| - 1].DryRunExit?
  {
    if ticks != [] {
      var n := |ticks| - 1;
      DryRunsLogDryRuns(py, config, s, log, ticks[..n], id);
      var events := LastDryRunLogs(py, config, s, log, ticks, id);
      LastOfBoth(Logged(py, config, s, log, ticks[..n], id), events);
    }
  }

  /** The last tick of a dry-run rule's run logs one dry-run exit at most. */
  lemma LastDryRunLogs(py: Python, config: Config, s: State, log: Log, ticks: seq<TickInputs>, id: string)
    returns (events: seq<Event>)
    requires Sound(s) && id in s.rules && AllReported(ticks) && Known(s, id) && s.rules[id].executionMode == DryRun
    requires ticks != []
    ensures Logged(py, config, s, log, ticks, id) == Logged(py, config, s, log, ticks[..|ticks| - 1], id) + events
    ensures events == [] || (|events| == 1 && events[0].DryRunExit?)
  {
    var n := |ticks| - 1;
    RunFeedsAcceptedMarks(py, config, s, log, ticks[..n], id);
    var view, next;
    view, next, events := LastTickFires(py, config, s, log, ticks, id);
    DryRunViewLogsDryRun(view, next, events, config.window, ticks[n], id);
  }

  lemma LastOfBoth(a: seq<Event>, b: seq<Event>)
    requires a != [] ==> a[|a| - 1].DryRunExit?
    requires b == [] || (|b| == 1 && b[0].DryRunExit?)
    ensures a + b != [] ==> (a + b)[|a + b| - 1].DryRunExit?
  {
  }

  /** A dry-run rule that starts fresh has triggered exactly when one of its
      accepted marks passed. */
  lemma DryRunTriggersOnPassage(py: Python, config: Config, s: State, log: Log, ticks: seq<TickInputs>, id: string)
    requires Sound(s) && id in s.rules && AllReported(ticks) && Known(s, id) && s.rules[id].executionMode == DryRun
    requires s.runtimes[id].trail == FRESH_TRAIL && !s.runtimes[id].triggered
    ensures var t := RunTicks(py, config, s, log, ticks).0;
      && Known(t, id)
      && (t.runtimes[id].triggered
          <==> AnyPasses(s.rules[id], config.window, Accepted(py, config, s, log, ticks, id)))
  {
    LogsOnPassage(py, config, s, log, ticks, id);
    LatchFollowsLog(py, config, s, log, ticks, id);
    DryRunsLogDryRuns(py, config, s, log, ticks, id);
  }

  // ---------------------------------------------------------------------
  // The same from file to file
  // ---------------------------------------------------------------------

  /** The file holds `s`, and every decimal saved along the run is read back. */
  ghost predicate StartsFrom(py: Python, config: Config, file: Json, s: State, log: Log, ticks: seq<TickInputs>) {
    DecodeState(py, file) == Success(s) && ReadableRun(py, config, s, log, ticks)
  }

  /** From a file to a file over any number of restarts, for every rule with an
      open latch: the price side is the engine's fold over its accepted marks;
      the log grows for it, from a fresh trail, exactly when one of them passed;
      and the latch and the live status are what that growth says. */
  lemma RestartTransparency(py: Python, config: Config, s: State, log: Log, file: Json, ticks: seq<TickInputs>,
                            id: string)
    requires Sound(s) && id in s.rules && Known(s, id) && AllReported(ticks) && !s.runtimes[id].triggered
    ensures StartsFrom(py, config, file, s, log, ticks) ==>
      var (left, after) := RunOnFile(py, config, file, log, ticks);
      var end := DecodeState(py, left);
      var rule, marks := s.rules[id], Accepted(py, config, s, log, ticks, id);
      var events := Logged(py, config, s, log, ticks, id);
      && end.Success? && Known(end.value, id)
      && end.value.runtimes[id].trail == Feed(rule, config.window, s.runtimes[id].trail, marks)
      && EventsOf(after, id) == EventsOf(log, id) + events
      && FollowsLog(s.runtimes[id], end.value.runtimes[id], events)
      && (s.runtimes[id].trail == FRESH_TRAIL ==> (events != [] <==> AnyPasses(rule, config.window, marks)))
  {
    if StartsFrom(py, config, file, s, log, ticks) {
      RestartsAreInvisible(py, config, s, log, file, ticks);
      RunFeedsAcceptedMarks(py, config, s, log, ticks, id);
      RunLogs(py, config, s, log, ticks, id);
      LatchFollowsLog(py, config, s, log, ticks, id);
      if s.runtimes[id].trail == FRESH_TRAIL {
        LogsOnPassage(py, config, s, log, ticks, id);
      }
    }
  }

  lemma ReadablePrefix(py: Python, config: Config, file: Json, s: State, log: Log, ticks: seq<TickInputs>)
    requires StartsFrom(py, config, file, s, log, ticks) && ticks != []
    ensures StartsFrom(py, config, file, s, log, ticks[..|ticks| - 1])
  {
    var before := ticks[..|ticks| - 1];
    forall k | 0 <= k <= |before| ensures ReadableState(py, RunTicks(py, config, s, log, before[..k]).0) {
      assert before[..k] == ticks[..k];
    }
  }

  /** Restarted before every tick, the daemon's log grows about a rule by an
      answer to an exit - a dry-run record, a block, a call with its result or a
      failure - at exactly the ticks whose mark the rule hears and that passes
      one of the stops set so far, and by nothing at all other ticks. */
  lemma FiresAcrossRestarts(py: Python, config: Config, s: State, log: Log, file: Json, ticks: seq<TickInputs>,
                            id: string) returns (exit: Option<TriggeredExit>)
    requires Sound(s) && id in s.rules && AllReported(ticks) && Known(s, id) && ticks != []
    requires s.runtimes[id].trail == FRESH_TRAIL
    ensures StartsFrom(py, config, file, s, log, ticks) ==>
      var n := |ticks| - 1;
      var (f, before) := RunOnFile(py, config, file, log, ticks[..n]);
      var (g, after) := RunOnFile(py, config, file, log, ticks);
      var t, u := DecodeState(py, f), DecodeState(py, g);
      && t.Success? && u.Success? && Known(u.value, id)
      && TickFires(HearsIn(t.value, id, ticks[n]), ticks[n].rules(id).mark, u.value.runtimes[id],
                   EventsOf(before, id), EventsOf(after, id), s.rules[id], config.window,
                   Accepted(py, config, s, log, ticks, id), exit)
  {
    exit := FiresExactlyOnPassage(py, config, s, log, ticks, id);
    if StartsFrom(py, config, file, s, log, ticks) {
      ReadablePrefix(py, config, file, s, log, ticks);
      RestartsAreInvisible(py, config, s, log, file, ticks[..|ticks| - 1]);
      RestartsAreInvisible(py, config, s, log, file, ticks);
    }
  }

  // ---------------------------------------------------------------------
  // Blocked exits
  // ---------------------------------------------------------------------

  lemma {:induction false} FeedIgnoresStatus(a: Rule, b: Rule, w: WindowSize, trail: Trail, marks: seq<real>)
    requires SamePriceRule(a, b)
    ensures Feed(a, w, trail, marks) == Feed(b, w, trail, marks)
  {
    if marks != [] {
      var n := |marks| - 1;
      FeedIgnoresStatus(a, b, w, trail, marks[..n]);
      EngineIgnoresStatus(a, b, w, Feed(a, w, trail, marks[..n]), marks[n]);
    }
  }

  /** A view that fired, any marks in between, and a view that hears a mark at
      the same or a worse price. */
  lemma ViewFiresAgain(view: View, w: WindowSize, first: TickInputs, between: seq<real>, later: View, next: TickInputs,
                       id: string)
    requires WellFormed(view.runtime.rule) && ExitIn(view, w, first, id).Some?
    requires SamePriceRule(later.runtime.rule, view.runtime.rule)
    requires var fired := Advance(view.runtime.rule, w, view.runtime.trail, first.rules(id).mark.value.mark);
      later.runtime.trail == Feed(view.runtime.rule, w, fired, between)
    requires Hears(later, next.account, next.rules(id))
    requires AtLeastAsGood(view.runtime.rule.side, first.rules(id).mark.value.mark, next.rules(id).mark.value.mark)
    ensures ExitIn(later, w, next, id).Some?
  {
    BlockedExitFiresAgain(SpecSized(view, first.account.value), w, first.rules(id).mark.value, between,
                          SpecSized(later, next.account.value), next.rules(id).mark.value);
  }

  /** The first tick of a run in which something is logged about the rule. */
  lemma FirstTickFired(py: Python, config: Config, s: State, log: Log, first: TickInputs, id: string)
    requires Sound(s) && id in s.rules && Known(s, id) && Reported(first.account)
    requires EventsOf(TickResult(py, config, s, log, first).1, id) != EventsOf(log, id)
    ensures var t := TickResult(py, config, s, log, first).0;
      && ExitIn(ViewOf(s, id), config.window, first, id).Some? && WellFormed(s.rules[id])
      && Sound(t) && id in t.rules && Known(t, id) && t.rules[id] == s.rules[id].(liveStatus := t.rules[id].liveStatus)
      && t.runtimes[id].trail
         == Advance(s.rules[id], config.window, s.runtimes[id].trail, first.rules(id).mark.value.mark)
  {
    SoundKnows(s, id);
    TickIsLocal(py, config, s, log, first, id);
    LocalTickFires(py, config, ViewOf(s, id), s.killSwitch, first);
    LocalTickFeeds(py, config, ViewOf(s, id), s.killSwitch, first.account, first.rules(id));
  }

  /** A tick logs about a rule whose engine fires. */
  lemma FiringIsLogged(py: Python, config: Config, s: State, log: Log, tick: TickInputs, id: string)
    requires Sound(s) && id in s.rules && Known(s, id) && Reported(tick.account)
    requires ExitIn(ViewOf(s, id), config.window, tick, id).Some?
    ensures EventsOf(TickResult(py, config, s, log, tick).1, id) != EventsOf(log, id)
  {
    OneTickFires(py, config, s, log, tick, id);
  }

  /** A blocked exit comes back: once the daemon has fired for a rule, whatever
      ticks follow, it fires at the next tick whose mark the rule hears at the
      same or a worse price, in all three modes. */
  lemma BlockedExitComesBack(py: Python, config: Config, s: State, log: Log, first: TickInputs, ticks: seq<TickInputs>,
                             next: TickInputs, id: string)
    requires Sound(s) && id in s.rules && Known(s, id)
    requires Reported(first.account) && AllReported(ticks) && Reported(next.account)
    requires var (t, fired) := TickResult(py, config, s, log, first);
      && EventsOf(fired, id) != EventsOf(log, id)
      && HearsIn(RunTicks(py, config, t, fired, ticks).0, id, next)
      && first.rules(id).mark.Some?
      && AtLeastAsGood(s.rules[id].side, first.rules(id).mark.value.mark, next.rules(id).mark.value.mark)
    ensures var (t, fired) := TickResult(py, config, s, log, first);
      var (u, before) := RunTicks(py, config, t, fired, ticks);
      EventsOf(TickResult(py, config, u, before, next).1, id) != EventsOf(before, id)
  {
    var rule, w := s.rules[id], config.window;
    var (t, fired) := TickResult(py, config, s, log, first);
    var (u, before) := RunTicks(py, config, t, fired, ticks);
    var marks := Accepted(py, config, t, fired, ticks, id);
    FirstTickFired(py, config, s, log, first, id);
    RunStaysSound(py, config, t, fired, ticks, id);
    RunFeedsAcceptedMarks(py, config, t, fired, ticks, id);
    FeedIgnoresStatus(t.rules[id], rule, w, t.runtimes[id].trail, marks);
    ViewFiresAgain(ViewOf(s, id), w, first, marks, ViewOf(u, id), next, id);
    FiringIsLogged(py, config, u, before, next, id);
  }

  // ---------------------------------------------------------------------
  // What a rule protects
  // ---------------------------------------------------------------------

  /** The snapshots of a run, without the ticks that got none. */
  function AccountsOf(ticks: seq<TickInputs>): seq<Account> {
    if ticks == [] then []
    else
      var before, last := AccountsOf(ticks[..|ticks| - 1]), ticks[|ticks| - 1].account;
      if last.Some? then before + [last.value] else before
  }

  lemma {:induction false} MatchingIgnoresLiveStatus(a: Rule, b: Rule, fills: seq<Fill>)
    requires b == a.(liveStatus := b.liveStatus) && Attached(a)
    ensures MatchingSizes(b, fills) == MatchingSizes(a, fills)
  {
    if fills != [] {
      MatchingIgnoresLiveStatus(a, b, fills[..|fills| - 1]);
    }
  }

  /** How a tick moves the size and the mark of an attached rule. */
  lemma LocalTickProtects(py: Python, config: Config, view: View, killSwitch: bool, account: Account,
                          inputs: RuleInputs, rule: Rule)
    requires WellFormed(view.runtime.rule) && view.runtime.rule == rule.(liveStatus := view.runtime.rule.liveStatus)
    requires Attached(rule) && rule.status == Active
    requires SizedByMark(rule, view.runtime.protectedSize, view.high)
    ensures var after := LocalTick(py, config, view, killSwitch, Some(account), inputs);
      && after.high == HighWaterSpec(rule, view.high, account)
      && SizedByMark(rule, after.runtime.protectedSize, after.high)
  {
    MatchingIgnoresLiveStatus(rule, view.runtime.rule, account.fills);
    RecordKeepsRule(py, config, account, SpecSized(view, account), Start, killSwitch, inputs);
  }

  lemma TickProtects(py: Python, config: Config, s: State, log: Log, tick: TickInputs, id: string, rule: Rule)
    requires Sound(s) && id in s.rules && Known(s, id) && Reported(tick.account)
    requires s.rules[id] == rule.(liveStatus := s.rules[id].liveStatus) && Attached(rule) && rule.status == Active
    requires SizedByMark(rule, s.runtimes[id].protectedSize, ViewOf(s, id).high)
    ensures var t := TickResult(py, config, s, log, tick).0;
      && Known(t, id) && SizedByMark(rule, t.runtimes[id].protectedSize, ViewOf(t, id).high)
      && ViewOf(t, id).high == (if tick.account.Some? then HighWaterSpec(rule, ViewOf(s, id).high, tick.account.value)
                                else ViewOf(s, id).high)
  {
    SoundKnows(s, id);
    TickIsLocal(py, config, s, log, tick, id);
    if tick.account.Some? {
      LocalTickProtects(py, config, ViewOf(s, id), s.killSwitch, tick.account.value, tick.rules(id), rule);
    }
  }

  /** An enabled rule that follows an opening order protects, after any run of
      the daemon, the largest total ever reported for the order, capped. */
  lemma {:induction false} AttachedRunProtectsLargestTotal(py: Python, config: Config, s: State, log: Log,
                                                           ticks: seq<TickInputs>, id: string)
    requires Sound(s) && id in s.rules && AllReported(ticks) && Known(s, id)
    requires Attached(s.rules[id]) && s.rules[id].status == Active
    requires SizedByMark(s.rules[id], s.runtimes[id].protectedSize, ViewOf(s, id).high)
    ensures var t := RunTicks(py, config, s, log, ticks).0;
      && Known(t, id)
      && LargestTotal(s.rules[id], ViewOf(s, id).high, ViewOf(t, id).high, AccountsOf(ticks))
      && SizedByMark(s.rules[id], t.runtimes[id].protectedSize, ViewOf(t, id).high)
  {
    if ticks != [] {
      var n := |ticks| - 1;
      AttachedRunProtectsLargestTotal(py, config, s, log, ticks[..n], id);
      RunStaysSound(py, config, s, log, ticks[..n], id);
      RunFeedsAcceptedMarks(py, config, s, log, ticks[..n], id);
      var (t, before) := RunTicks(py, config, s, log, ticks[..n]);
      TickProtects(py, config, t, before, ticks[n], id, s.rules[id]);
      if ticks[n].account.Some? {
        LargestTotalSnoc(s.rules[id], ViewOf(s, id).high, ViewOf(t, id).high, AccountsOf(ticks[..n]),
                         ticks[n].account.value);
      }
    }
  }

  /** A tick whose snapshot repeats, permutes or truncates one that the daemon
      has already taken in leaves the rule's size and mark as they were. */
  lemma StaleTickLeavesTheRule(py: Python, config: Config, s: State, log: Log, ticks: seq<TickInputs>, id: string,
                               again: TickInputs, i: nat, dropped: seq<Fill>)
    requires Sound(s) && id in s.rules && AllReported(ticks) && Known(s, id)
    requires Attached(s.rules[id]) && s.rules[id].status == Active
    requires SizedByMark(s.rules[id], s.runtimes[id].protectedSize, ViewOf(s, id).high)
    requires again.account.Some? && IsStale(AccountsOf(ticks), again.account.value.fills, i, dropped)
    ensures var (t, before) := RunTicks(py, config, s, log, ticks);
      var u := TickResult(py, config, t, before, again).0;
      && Known(t, id) && Known(u, id)
      && u.runtimes[id].protectedSize == t.runtimes[id].protectedSize && ViewOf(u, id).high == ViewOf(t, id).high
  {
    var (t, before) := RunTicks(py, config, s, log, ticks);
    AttachedRunProtectsLargestTotal(py, config, s, log, ticks, id);
    RunStaysSound(py, config, s, log, ticks, id);
    RunFeedsAcceptedMarks(py, config, s, log, ticks, id);
    AccountsAreReported(ticks);
    StaleTotal(s.rules[id], ViewOf(s, id).high, ViewOf(t, id).high, AccountsOf(ticks), again.account.value.fills, i,
               dropped);
    TickProtects(py, config, t, before, again, id, s.rules[id]);
  }

  lemma {:induction false} AccountsAreReported(ticks: seq<TickInputs>)
    requires AllReported(ticks)
    ensures forall i :: 0 <= i < |AccountsOf(ticks)| ==> FillsNonNegative(AccountsOf(ticks)[i].fills)
  {
    if ticks != [] {
      AccountsAreReported(ticks[..|ticks| - 1]);
    }
  }

  // ---------------------------------------------------------------------
  // Dry-run exits over a run
  // ---------------------------------------------------------------------

  /** Logged dry-run exits of a rule, less its latch. */
  function Balance(s: State, log: Log, id: string): int
    requires id in s.runtimes
  {
    DryRuns(log, id) - if s.runtimes[id].triggered then 1 else 0
  }

  lemma RecordLogsDryRun(py: Python, config: Config, account: Account, runtime: Runtime, log: Log, killSwitch: bool,
                         inputs: RuleInputs, id: string)
    ensures var (after, afterLog) := RecordAfterMark(py, config, account, runtime, log, killSwitch, inputs);
      && (runtime.rule.id != id ==> DryRuns(afterLog, id) == DryRuns(log, id))
      && (runtime.rule.id == id && runtime.rule.executionMode == DryRun ==>
            DryRuns(afterLog, id) - (if after.triggered then 1 else 0)
            == DryRuns(log, id) - (if runtime.triggered then 1 else 0))
  {
    var mark := UsableMark(runtime.rule, inputs.mark);
    if mark.Some? {
      var (observed, exit) := Observed(runtime, config.window, mark.value);
      if exit.Some? {
        assert exit.value.ruleId == runtime.rule.id && exit.value.executionMode == runtime.rule.executionMode;
        var context := ContextFor(inputs.world.context, killSwitch, true);
        HandleLogsDryRun(py, log, config, account, exit.value, runtime.rule, context, inputs.world, id);
      }
    }
  }

  lemma HandleLogsDryRun(py: Python, log: Log, config: Config, account: Account, exit: TriggeredExit, rule: Rule,
                         context: Option<Readiness>, world: World, id: string)
    ensures DryRuns(Handled(py, log, config, account, exit, rule, context, world).1, id)
         == DryRuns(log, id) + if exit.executionMode == DryRun && exit.ruleId == id then 1 else 0
    ensures exit.executionMode == DryRun ==>
      Handled(py, log, config, account, exit, rule, context, world).0 == DryRunRecorded
  {
  }

  /** `id` is a dry-run rule of a coherent state. */
  predicate DryRunRule(s: State, id: string) {
    Coherent(s) && id in s.rules && Known(s, id) && s.rules[id].executionMode == DryRun
  }

  ghost predicate KeepsBalance(pass: Pass, id: string) {
    forall s, log, visited :: DryRunRule(s, id) && visited in s.rules ==>
      var (t, after) := pass(s, log, visited);
      DryRunRule(t, id) && t.rules.Keys == s.rules.Keys && Balance(t, after, id) == Balance(s, log, id)
  }

  /** What a pass adds to a rule's logged dry-run exits, it adds to its latch. */
  lemma ProcessBalances(py: Python, config: Config, account: Account, s: State, log: Log, visited: string,
                        inputs: RuleInputs, id: string)
    requires Known(s, id) && s.rules[id].executionMode == DryRun && Known(s, visited)
    ensures var (t, after) := ProcessRule(py, config, account, s, log, visited, inputs);
      id in t.runtimes && Balance(t, after, id) == Balance(s, log, id)
  {
    if s.rules[visited].status != Disabled {
      var sized := SizedRuntime(s, visited, account);
      var saved := SavedAhead(config, account, s, log, visited, inputs);
      ProcessRuleWrites(py, config, account, s, log, visited, inputs);
      SavingLogsNoDryRun(config, account, s, log, visited, inputs, id);
      RecordLogsDryRun(py, config, account, sized, saved, s.killSwitch, inputs, id);
    }
  }

  lemma ProcessKeepsBalance(py: Python, config: Config, account: Account, s: State, log: Log, visited: string,
                            inputs: RuleInputs, id: string)
    requires DryRunRule(s, id) && visited in s.rules && Known(s, visited)
    ensures var (t, after) := ProcessRule(py, config, account, s, log, visited, inputs);
      DryRunRule(t, id) && t.rules.Keys == s.rules.Keys && Balance(t, after, id) == Balance(s, log, id)
  {
    ProcessBalances(py, config, account, s, log, visited, inputs, id);
    ProcessRuleTouchesOnly(py, config, account, s, log, visited, inputs);
    var t := ProcessRule(py, config, account, s, log, visited, inputs).0;
    assert RecordCoherent(id, t.rules[id], t.runtimes[id]);
    if s.rules[visited].status != Disabled {
      ProcessRuleWrites(py, config, account, s, log, visited, inputs);
      RecordKeepsRule(py, config, account, SizedRuntime(s, visited, account),
                      SavedAhead(config, account, s, log, visited, inputs), s.killSwitch, inputs);
    }
  }

  lemma SavingLogsNoDryRun(config: Config, account: Account, s: State, log: Log, visited: string, inputs: RuleInputs,
                           id: string)
    requires Known(s, visited)
    ensures DryRuns(SavedAhead(config, account, s, log, visited, inputs), id) == DryRuns(log, id)
  {
  }

  lemma PassesKeepBalance(py: Python, config: Config, account: Account, inputs: string -> RuleInputs, id: string)
    ensures KeepsBalance(PassOf(py, config, account, inputs), id)
  {
    forall s, log, visited | DryRunRule(s, id) && visited in s.rules
      ensures var (t, after) := PassOf(py, config, account, inputs)(s, log, visited);
        DryRunRule(t, id) && t.rules.Keys == s.rules.Keys && Balance(t, after, id) == Balance(s, log, id)
    {
      assert RecordCoherent(visited, s.rules[visited], s.runtimes[visited]);
      ProcessKeepsBalance(py, config, account, s, log, visited, inputs(visited), id);
    }
  }

  lemma {:induction false} LoopKeepsBalance(pass: Pass, s: State, log: Log, ids: seq<string>, id: string)
    requires KeepsBalance(pass, id) && DryRunRule(s, id) && forall i :: 0 <= i < |ids| ==> ids[i] in s.rules
    ensures var (t, after) := Loop(pass, s, log, ids);
      DryRunRule(t, id) && t.rules.Keys == s.rules.Keys && Balance(t, after, id) == Balance(s, log, id)
  {
    if ids != [] {
      LoopKeepsBalance(pass, s, log, ids[..|ids| - 1], id);
      var (t, before) := Loop(pass, s, log, ids[..|ids| - 1]);
      assert ids[|ids| - 1] in t.rules;
    }
  }

  lemma TickKeepsBalance(py: Python, config: Config, s: State, log: Log, tick: TickInputs, id: string)
    requires DryRunRule(s, id)
    ensures var (t, after) := TickResult(py, config, s, log, tick);
      DryRunRule(t, id) && Balance(t, after, id) == Balance(s, log, id)
  {
    if tick.account.Some? {
      var pass := PassOf(py, config, tick.account.value, tick.rules);
      PassesKeepBalance(py, config, tick.account.value, tick.rules, id);
      LoopKeepsBalance(pass, s, log, s.order, id);
      SavingKeepsBalance(Loop(pass, s, log, s.order).0, Loop(pass, s, log, s.order).1, id);
    }
  }

  lemma SavingKeepsBalance(t: State, after: Log, id: string)
    requires id in t.runtimes
    ensures Balance(t, Then(after, StateSaved(t)), id) == Balance(t, after, id)
  {
  }

  /** Over any undisturbed run a dry-run rule logs exactly one exit when it
      triggers, and none otherwise. */
  lemma {:induction false} DryRunLogsExactlyItsTrigger(py: Python, config: Config, s: State, log: Log,
                                                       ticks: seq<TickInputs>, id: string)
    requires DryRunRule(s, id)
    ensures var (t, after) := RunTicks(py, config, s, log, ticks);
      DryRunRule(t, id) && Balance(t, after, id) == Balance(s, log, id)
  {
    if ticks != [] {
      var n := |ticks| - 1;
      DryRunLogsExactlyItsTrigger(py, config, s, log, ticks[..n], id);
      var (t, before) := RunTicks(py, config, s, log, ticks[..n]);
      TickKeepsBalance(py, config, t, before, ticks[n], id);
    }
  }
}
