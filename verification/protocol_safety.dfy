/** What every reachable state of the protocol satisfies, whatever crashes and
    operator commands fall inside its ticks. */
module ProtocolSafety {
  import opened Prelude
  import opened Models
  import opened Trailing
  import opened Json
  import opened DaemonState
  import opened Fills
  import opened Submission
  import opened Tick
  import opened Protocol

  // ---------------------------------------------------------------------
  // Reading the log
  // ---------------------------------------------------------------------

  function Resets(log: Log, id: string): nat {
    match log
    case Start => 0
    case Then(past, last) => Resets(past, id) + if last == RuleReset(id) then 1 else 0
  }

  predicate Succeeded(log: Log, id: string) {
    match log
    case Start => false
    case Then(past, last) => last == SubmissionSucceeded(id) || Succeeded(past, id)
  }

  /** The rule was promoted at some point after an accepted response. */
  predicate PromotedAfterSuccess(log: Log, id: string) {
    match log
    case Start => false
    case Then(past, last) => (last == RulePromoted(id) && Succeeded(past, id)) || PromotedAfterSuccess(past, id)
  }

  /** What holds of every exchange call: a live rule that is still pending its
      canary, a canary run, a crossed stop, every readiness condition, and a
      close size that is positive, within the configured size, and covered by
      the tick's own position snapshot unless the rule follows an order. */
  predicate Justified(exit: TriggeredExit, rule: Rule, account: Account, config: Config, context: Readiness,
                      now: int) {
    && exit.ruleId == rule.id && exit.coin == rule.coin
    && exit.executionMode == AutoSubmit && rule.executionMode == AutoSubmit
    && rule.status == Active && rule.liveStatus == CanaryPending && config.canaryMode
    && Crossed(rule.side, exit.mark, exit.stop)
    && Ready(context, true) && !MarkIsStale(rule, exit, config, now)
    && 0.0 < exit.size <= rule.size
    && (!Attached(rule) ==> Covered(rule, exit.size, account.positions))
  }

  predicate AllCallsJustified(log: Log) {
    match log
    case Start => true
    case Then(past, last) =>
      && AllCallsJustified(past)
      && (last.ExchangeCalled? ==>
            Justified(last.exit, last.rule, last.account, last.config, last.context, last.now))
  }

  // ---------------------------------------------------------------------
  // The invariant
  // ---------------------------------------------------------------------

  /** One rule's record against the log. `pending` marks the rule whose live
      exit fired in the running tick and has not reached the exchange. */
  predicate RecordOk(rule: Rule, runtime: Runtime, log: Log, pending: bool) {
    && runtime.protectedSize <= rule.size
    && (rule.executionMode == AutoSubmit && rule.liveStatus != CanaryPending ==> runtime.triggered)
    && (rule.liveStatus == CanarySucceeded || rule.liveStatus == NormalLive ==> Succeeded(log, rule.id))
    && (rule.liveStatus == NormalLive ==> PromotedAfterSuccess(log, rule.id))
    && Calls(log, rule.id) <= Resets(log, rule.id) + (if runtime.triggered && !pending then 1 else 0)
  }

  ghost predicate StateOk(s: State, log: Log, pending: Option<string>) {
    && Coherent(s)
    && (forall id :: id in s.rules ==> RecordOk(s.rules[id], s.runtimes[id], log, pending == Some(id)))
    && (forall id :: id !in s.rules ==> Calls(log, id) == 0)
  }

  /** A live exit on its way to the exchange. */
  predicate ExitOk(exit: TriggeredExit, s: State, account: Account) {
    && exit.ruleId in s.rules && exit.ruleId in s.runtimes
    && var rule := s.rules[exit.ruleId];
    && s.runtimes[exit.ruleId].triggered
    && exit.coin == rule.coin
    && exit.executionMode == AutoSubmit && rule.executionMode == AutoSubmit
    && rule.status == Active && rule.liveStatus == CanaryPending
    && Crossed(rule.side, exit.mark, exit.stop)
    && 0.0 < exit.size <= rule.size
    && (!Attached(rule) ==> Covered(rule, exit.size, account.positions))
  }

  function Pending(pc: Pc): Option<string> {
    match pc
    case AtSave(exit) => Some(exit.ruleId)
    case AtSubmit(exit) => Some(exit.ruleId)
    case _ => None
  }

  predicate Latched(s: State, id: string) {
    id in s.runtimes && s.runtimes[id].triggered
  }

  predicate PcOk(memory: Memory, disk: State, log: Log) {
    match memory.pc
    case AtRules => true
    case AtMark(id) =>
      && id in memory.state.rules && id in memory.state.runtimes
      && memory.state.rules[id].status == Active
      && (!Attached(memory.state.rules[id]) && memory.state.runtimes[id].protectedSize > 0.0 ==>
            Covered(memory.state.rules[id], memory.state.runtimes[id].protectedSize, memory.account.positions))
    case AtSave(exit) => ExitOk(exit, memory.state, memory.account)
    case AtSubmit(exit) =>
      && ExitOk(exit, memory.state, memory.account)
      && exit.ruleId in disk.rules
      // The write-ahead save latched the rule on disk; only a reset opens it.
      && Calls(log, exit.ruleId) + 1 <= Resets(log, exit.ruleId) + (if Latched(disk, exit.ruleId) then 1 else 0)
    case AtReply(exit, _) => ExitOk(exit, memory.state, memory.account)
  }

  ghost predicate MemoryOk(memory: Memory, disk: State, log: Log) {
    && StateOk(memory.state, log, Pending(memory.pc))
    && PcOk(memory, disk, log)
    && (forall i :: 0 <= i < |memory.todo| ==> memory.todo[i] in memory.state.rules)
  }

  ghost predicate Inv(m: Machine) {
    && StateOk(m.disk, m.log, None)
    && AllCallsJustified(m.log)
    && (m.memory.Some? ==> MemoryOk(m.memory.value, m.disk, m.log))
  }

  // ---------------------------------------------------------------------
  // How the invariant moves
  // ---------------------------------------------------------------------

  lemma RecordSurvivesEvent(rule: Rule, runtime: Runtime, log: Log, pending: bool, event: Event)
    requires RecordOk(rule, runtime, log, pending)
    requires event.ExchangeCalled? ==> event.exit.ruleId != rule.id
    ensures RecordOk(rule, runtime, Then(log, event), pending)
  {
  }

  lemma StateSurvivesEvent(s: State, log: Log, pending: Option<string>, event: Event)
    requires StateOk(s, log, pending) && !event.ExchangeCalled?
    ensures StateOk(s, Then(log, event), pending)
  {
    forall id | id in s.rules
      ensures RecordOk(s.rules[id], s.runtimes[id], Then(log, event), pending == Some(id))
    {
      RecordSurvivesEvent(s.rules[id], s.runtimes[id], log, pending == Some(id), event);
    }
  }

  /** Rewriting one record, and possibly moving the pending mark from or to it. */
  lemma StateSurvivesRewrite(s: State, t: State, log: Log, before: Option<string>, after: Option<string>, id: string)
    requires StateOk(s, log, before) && id in s.rules
    requires before == after || (before.None? && after == Some(id)) || (before == Some(id) && after.None?)
    requires TouchesOnly(s, t, id)
    requires RecordOk(t.rules[id], t.runtimes[id], log, after == Some(id))
    ensures StateOk(t, log, after)
  {
    forall other | other in t.rules
      ensures RecordOk(t.rules[other], t.runtimes[other], log, after == Some(other))
    {
      if other != id {
        assert RecordOk(s.rules[other], s.runtimes[other], log, before == Some(other));
      }
    }
  }

  lemma KnownHere(s: State, id: string)
    requires Coherent(s) && id in s.rules
    ensures Known(s, id)
  {
    assert RecordCoherent(id, s.rules[id], s.runtimes[id]);
  }

  // ---------------------------------------------------------------------
  // Daemon steps
  // ---------------------------------------------------------------------

  lemma SizingTouchesOnly(s: State, id: string, account: Account)
    requires Coherent(s) && id in s.rules
    ensures EnsureRule(s, s.rules[id]) == s
    ensures TouchesOnly(s, UpdateProtected(s, id, account), id)
    ensures var t := UpdateProtected(s, id, account);
      && t.rules[id] == s.rules[id]
      && t.runtimes[id] == s.runtimes[id].(protectedSize := Booked(s.rules[id], BooksOf(s, id), account).size)
  {
    KnownHere(s, id);
    EnsureKnownRule(s, s.rules[id]);
    var t := UpdateProtected(s, id, account);
    assert s.rules[id := s.rules[id]] == s.rules;
    RewriteTouchesOnly(s, t, s.rules[id], t.runtimes[id]);
  }

  lemma SizingKeepsState(s: State, log: Log, id: string, account: Account)
    requires StateOk(s, log, None) && id in s.rules
    ensures var t := UpdateProtected(s, id, account);
      && StateOk(t, log, None)
      && (!Attached(t.rules[id]) && t.runtimes[id].protectedSize > 0.0 ==>
            Covered(t.rules[id], t.runtimes[id].protectedSize, account.positions))
  {
    KnownHere(s, id);
    assert RecordOk(s.rules[id], s.runtimes[id], log, false);
    SizingTouchesOnly(s, id, account);
    AccountingStaysInRange(s.rules[id], BooksOf(s, id), account);
    StateSurvivesRewrite(s, UpdateProtected(s, id, account), log, None, None, id);
  }

  lemma TakeRuleKeepsInv(m: Machine)
    requires Inv(m) && m.memory.Some?
    ensures MemoryOk(AfterTakeRule(m.memory.value), m.disk, m.log)
  {
    var memory := m.memory.value;
    if memory.pc == AtRules && memory.todo != [] {
      var id, s := memory.todo[0], memory.state;
      KnownHere(s, id);
      if s.rules[id].status != Disabled {
        SizingTouchesOnly(s, id, memory.account);
        SizingKeepsState(s, m.log, id, memory.account);
      }
    }
  }

  /** The record after an observation, whether or not it fired. */
  lemma ObservationKeepsRecord(runtime: Runtime, w: WindowSize, tick: PriceTick, log: Log)
    requires RecordOk(runtime.rule, runtime, log, false)
    ensures var (after, exit) := Observed(runtime, w, tick);
      && after == runtime.(trail := after.trail, triggered := after.triggered)
      && RecordOk(runtime.rule, after, log, exit.Some?)
      && RecordOk(runtime.rule, after, log, false)
      && (exit.Some? ==>
            && after.triggered && !runtime.triggered && runtime.protectedSize > 0.0
            && exit.value.ruleId == runtime.rule.id && exit.value.coin == runtime.rule.coin
            && exit.value.executionMode == runtime.rule.executionMode
            && exit.value.size == runtime.protectedSize
            && Crossed(runtime.rule.side, exit.value.mark, exit.value.stop))
  {
  }

  lemma ObserveTouchesOnly(s: State, id: string, w: WindowSize, tick: PriceTick)
    requires Coherent(s) && id in s.rules
    ensures TouchesOnly(s, ObserveRule(s, id, w, tick).0, id)
    ensures ObserveRule(s, id, w, tick).0.rules == s.rules
    ensures ObserveRule(s, id, w, tick).0.runtimes[id] == Observed(s.runtimes[id], w, tick).0
  {
    KnownHere(s, id);
    var t := ObserveRule(s, id, w, tick).0;
    assert s.rules[id := s.rules[id]] == s.rules;
    assert t.runtimes[id].rule == s.runtimes[id].rule;
    RewriteTouchesOnly(s, t, s.rules[id], t.runtimes[id]);
  }

  lemma ObservationKeepsState(s: State, log: Log, id: string, w: WindowSize, tick: PriceTick)
    requires StateOk(s, log, None) && id in s.rules
    ensures var (t, exit) := ObserveRule(s, id, w, tick);
      && StateOk(t, log, None)
      && (exit.Some? ==> StateOk(t, log, Some(id)))
      && t.rules == s.rules
  {
    KnownHere(s, id);
    assert RecordOk(s.rules[id], s.runtimes[id], log, false);
    var (t, exit) := ObserveRule(s, id, w, tick);
    ObservationKeepsRecord(s.runtimes[id], w, tick, log);
    ObserveTouchesOnly(s, id, w, tick);
    StateSurvivesRewrite(s, t, log, None, None, id);
    if exit.Some? {
      StateSurvivesRewrite(s, t, log, None, Some(id), id);
    }
  }

  lemma FiredExitIsOk(s: State, id: string, w: WindowSize, tick: PriceTick, account: Account, log: Log)
    requires StateOk(s, log, None) && id in s.rules && s.rules[id].status == Active
    requires !Attached(s.rules[id]) && s.runtimes[id].protectedSize > 0.0 ==>
      Covered(s.rules[id], s.runtimes[id].protectedSize, account.positions)
    ensures var (t, exit) := ObserveRule(s, id, w, tick);
      exit.Some? && exit.value.executionMode == AutoSubmit ==> exit.value.ruleId == id && ExitOk(exit.value, t, account)
  {
    KnownHere(s, id);
    assert RecordOk(s.rules[id], s.runtimes[id], log, false);
    ObservationKeepsRecord(s.runtimes[id], w, tick, log);
    ObserveTouchesOnly(s, id, w, tick);
  }

  lemma ObservationKeepsInv(m: Machine, state: State, exit: Option<TriggeredExit>)
    requires Inv(m) && m.memory.Some? && state.rules == m.memory.value.state.rules
    requires StateOk(state, m.log, None)
    requires exit.Some? && exit.value.executionMode == AutoSubmit ==>
      && StateOk(state, m.log, Some(exit.value.ruleId))
      && ExitOk(exit.value, state, m.memory.value.account)
    ensures var (memory, log) := AfterObservation(m.memory.value, m.log, state, exit);
      Inv(Machine(m.disk, Some(memory), log))
  {
    if exit.Some? && exit.value.executionMode == DryRun {
      StateSurvivesEvent(state, m.log, None, DryRunExit(exit.value));
      StateSurvivesEvent(m.disk, m.log, None, DryRunExit(exit.value));
    }
  }

  lemma TakeMarkKeepsInv(m: Machine, mark: Option<PriceTick>)
    requires Inv(m) && m.memory.Some?
    ensures var (memory, log) := AfterTakeMark(m.memory.value, m.log, mark);
      Inv(Machine(m.disk, Some(memory), log))
  {
    var memory := m.memory.value;
    if memory.pc.AtMark? {
      var id, s := memory.pc.id, memory.state;
      KnownHere(s, id);
      var usable := UsableMark(s.rules[id], mark);
      if usable.Some? {
        var w := memory.config.window;
        var (t, exit) := ObserveRule(s, id, w, usable.value);
        ObservationKeepsState(s, m.log, id, w, usable.value);
        FiredExitIsOk(s, id, w, usable.value, memory.account, m.log);
        ObservationKeepsInv(m, t, exit);
      }
    }
  }

  lemma MergingKeepsState(s: State, disk: State, log: Log, pending: Option<string>)
    requires StateOk(s, log, pending)
    ensures StateOk(Merged(s, disk), log, pending)
  {
  }

  /** On disk nothing is pending: a latched record stands for the call that is
      about to be made. */
  lemma PendingMayBeSaved(s: State, log: Log, id: string)
    requires StateOk(s, log, Some(id)) && Latched(s, id)
    ensures StateOk(s, log, None)
  {
    forall other | other in s.rules ensures RecordOk(s.rules[other], s.runtimes[other], log, false) {
      assert RecordOk(s.rules[other], s.runtimes[other], log, Some(id) == Some(other));
    }
  }

  /** The machine with a save noted in its log. */
  function Journaled(m: Machine, state: State): Machine {
    m.(log := Then(m.log, StateSaved(state)))
  }

  lemma SaveKeepsInv(m: Machine, state: State)
    requires Inv(m)
    ensures Inv(Journaled(m, state))
  {
    StateSurvivesEvent(m.disk, m.log, None, StateSaved(state));
    if m.memory.Some? {
      StateSurvivesEvent(m.memory.value.state, m.log, Pending(m.memory.value.pc), StateSaved(state));
    }
  }

  lemma WriteAheadOnDiskKeepsInv(m: Machine, exit: TriggeredExit)
    requires Inv(m) && m.memory.Some? && m.memory.value.pc == AtSave(exit)
    ensures Inv(SavedAheadMachine(m, exit))
  {
    var memory := m.memory.value;
    var merged := Merged(memory.state, m.disk);
    MergingKeepsState(memory.state, m.disk, m.log, Some(exit.ruleId));
    PendingMayBeSaved(merged, m.log, exit.ruleId);
    assert RecordOk(merged.rules[exit.ruleId], merged.runtimes[exit.ruleId], m.log, true);
    KnownHere(merged, exit.ruleId);
  }

  /** The write-ahead save, as the machine it leads to. */
  function SavedAheadMachine(m: Machine, exit: TriggeredExit): Machine
    requires m.memory.Some?
  {
    var merged := Merged(m.memory.value.state, m.disk);
    m.(disk := merged, memory := Some(m.memory.value.(state := merged, pc := AtSubmit(exit))))
  }

  lemma WriteAheadIs(py: Python, m: Machine)
    requires m.memory.Some? && m.memory.value.pc.AtSave?
    ensures var merged := Merged(m.memory.value.state, m.disk);
      Next(py, m, WriteAhead) == SavedAheadMachine(Journaled(m, merged), m.memory.value.pc.exit)
  {
  }

  lemma WriteAheadKeepsInv(py: Python, m: Machine)
    requires Inv(m) && m.memory.Some?
    ensures Inv(Next(py, m, WriteAhead))
  {
    if m.memory.value.pc.AtSave? {
      var merged := Merged(m.memory.value.state, m.disk);
      SaveKeepsInv(m, merged);
      WriteAheadOnDiskKeepsInv(Journaled(m, merged), m.memory.value.pc.exit);
      WriteAheadIs(py, m);
    }
  }

  lemma LastSaveKeepsInv(py: Python, m: Machine)
    requires Inv(m) && m.memory.Some?
    ensures Inv(Next(py, m, SaveState))
  {
    if m.memory.value.pc == AtRules && m.memory.value.todo == [] {
      var merged := Merged(m.memory.value.state, m.disk);
      SaveKeepsInv(m, merged);
      MergingKeepsState(m.memory.value.state, m.disk, Journaled(m, merged).log, None);
    }
  }

  lemma SettlingTouchesOnly(s: State, id: string, outcome: Outcome)
    requires Coherent(s) && id in s.rules
    ensures TouchesOnly(s, SettleRule(s, id, outcome), id)
    ensures SettleRule(s, id, outcome).runtimes[id] == Settled(s.runtimes[id], outcome)
    ensures SettleRule(s, id, outcome).rules[id] == Settled(s.runtimes[id], outcome).rule
  {
    KnownHere(s, id);
    SettledKeepsRule(s.runtimes[id], outcome);
    var t := SettleRule(s, id, outcome);
    assert s.rules[id := s.rules[id]] == s.rules;
    RewriteTouchesOnly(s, t, t.rules[id], t.runtimes[id]);
  }

  /** Settling a fired live exit, by its outcome. */
  lemma SettlingKeepsRecord(runtime: Runtime, log: Log, pending: bool, outcome: Outcome)
    requires WellFormed(runtime.rule) && RecordOk(runtime.rule, runtime, log, pending)
    requires runtime.triggered && runtime.rule.executionMode == AutoSubmit && runtime.rule.liveStatus == CanaryPending
    requires outcome == LiveBlocked ==> pending
    requires outcome == LiveSubmitted ==> Succeeded(log, runtime.rule.id)
    ensures var after := Settled(runtime, outcome);
      RecordOk(after.rule, after, log, false)
  {
  }

  lemma SettlingKeepsState(s: State, log: Log, pending: Option<string>, id: string, outcome: Outcome)
    requires StateOk(s, log, pending) && id in s.rules
    requires pending.None? || pending == Some(id)
    requires s.runtimes[id].triggered
    requires s.rules[id].executionMode == AutoSubmit && s.rules[id].liveStatus == CanaryPending
    requires outcome == LiveBlocked ==> pending == Some(id)
    requires outcome == LiveSubmitted ==> Succeeded(log, id)
    ensures StateOk(SettleRule(s, id, outcome), log, None)
  {
    KnownHere(s, id);
    assert RecordOk(s.rules[id], s.runtimes[id], log, pending == Some(id));
    SettlingKeepsRecord(s.runtimes[id], log, pending == Some(id), outcome);
    SettlingTouchesOnly(s, id, outcome);
    StateSurvivesRewrite(s, SettleRule(s, id, outcome), log, pending, None, id);
  }

  /** The call itself: the disk has a latch or a reset to pay for it, and in
      memory the latch stops being free. */
  lemma CallKeepsDisk(m: Machine, exit: TriggeredExit, event: Event)
    requires StateOk(m.disk, m.log, None) && m.memory.Some? && m.memory.value.pc == AtSubmit(exit)
    requires PcOk(m.memory.value, m.disk, m.log) && event.ExchangeCalled? && event.exit == exit
    ensures StateOk(m.disk, Then(m.log, event), None)
  {
    var log := Then(m.log, event);
    forall id | id in m.disk.rules ensures RecordOk(m.disk.rules[id], m.disk.runtimes[id], log, false) {
      assert RecordOk(m.disk.rules[id], m.disk.runtimes[id], m.log, false);
      KnownHere(m.disk, id);
      if exit.ruleId != id {
        RecordSurvivesEvent(m.disk.rules[id], m.disk.runtimes[id], m.log, false, event);
      }
    }
  }

  lemma CallKeepsMemory(s: State, log: Log, exit: TriggeredExit, event: Event)
    requires StateOk(s, log, Some(exit.ruleId)) && exit.ruleId in s.rules && Latched(s, exit.ruleId)
    requires event.ExchangeCalled? && event.exit == exit
    ensures StateOk(s, Then(log, event), None)
  {
    forall id | id in s.rules ensures RecordOk(s.rules[id], s.runtimes[id], Then(log, event), false) {
      assert RecordOk(s.rules[id], s.runtimes[id], log, Some(exit.ruleId) == Some(id));
      KnownHere(s, id);
      if exit.ruleId != id {
        RecordSurvivesEvent(s.rules[id], s.runtimes[id], log, false, event);
      }
    }
  }

  /** Through the policy only a justified exit reaches the exchange. */
  lemma SubmitIsJustified(memory: Memory, exit: TriggeredExit, rule: Rule, world: World)
    requires memory.pc == AtSubmit(exit) && ExitOk(exit, memory.state, memory.account)
    requires rule == memory.state.rules[exit.ruleId] && rule.id == exit.ruleId
    ensures var context := ContextFor(world.context, memory.state.killSwitch, exit.ruleId in memory.state.observedIds);
      BlockedReasons(exit, rule, memory.config, context, world.hasKey, world.now) == [] ==>
        && context.Some? && !memory.state.killSwitch
        && Justified(exit, rule, memory.account, memory.config, context.value, world.now)
  {
    var context := ContextFor(world.context, memory.state.killSwitch, exit.ruleId in memory.state.observedIds);
    BlockedIffNotAllowed(exit, rule, memory.config, context, world.hasKey, world.now);
  }

  lemma SettledMemoryOk(m: Machine, id: string, outcome: Outcome, event: Event)
    requires Inv(m) && m.memory.Some?
    requires var memory := m.memory.value;
      && (memory.pc.AtSubmit? || memory.pc.AtReply?) && memory.pc.exit.ruleId == id
      && (outcome == LiveBlocked ==> memory.pc.AtSubmit?)
    requires !event.ExchangeCalled? && (outcome == LiveSubmitted ==> event == SubmissionSucceeded(id))
    ensures var t := SettleRule(m.memory.value.state, id, outcome);
      StateOk(t, Then(m.log, event), None) && t.rules.Keys == m.memory.value.state.rules.Keys
  {
    var memory := m.memory.value;
    StateSurvivesEvent(memory.state, m.log, Pending(memory.pc), event);
    SettlingKeepsState(memory.state, Then(m.log, event), Pending(memory.pc), id, outcome);
    SettlingTouchesOnly(memory.state, id, outcome);
  }

  /** A settled exit, with the event that is logged for it. */
  lemma SettledMachineOk(m: Machine, id: string, outcome: Outcome, event: Event)
    requires Inv(m) && m.memory.Some?
    requires var memory := m.memory.value;
      && (memory.pc.AtSubmit? || memory.pc.AtReply?) && memory.pc.exit.ruleId == id
      && (outcome == LiveBlocked ==> memory.pc.AtSubmit?)
    requires !event.ExchangeCalled? && (outcome == LiveSubmitted ==> event == SubmissionSucceeded(id))
    ensures var settled := SettleRule(m.memory.value.state, id, outcome);
      Inv(Machine(m.disk, Some(m.memory.value.(state := settled, pc := AtRules)), Then(m.log, event)))
  {
    StateSurvivesEvent(m.disk, m.log, None, event);
    SettledMemoryOk(m, id, outcome, event);
  }

  function CallOf(memory: Memory, exit: TriggeredExit, rule: Rule, context: Readiness, now: int): Event {
    ExchangeCalled(exit, rule, memory.account, memory.config, context, now)
  }

  lemma CallKeepsInv(m: Machine, exit: TriggeredExit, rule: Rule, context: Readiness, world: World)
    requires Inv(m) && m.memory.Some? && m.memory.value.pc == AtSubmit(exit)
    requires Justified(exit, rule, m.memory.value.account, m.memory.value.config, context, world.now)
    ensures Inv(Machine(m.disk, Some(m.memory.value.(pc := AtReply(exit, world.reply))),
                        Then(m.log, CallOf(m.memory.value, exit, rule, context, world.now))))
  {
    var event := CallOf(m.memory.value, exit, rule, context, world.now);
    CallKeepsDisk(m, exit, event);
    CallKeepsMemory(m.memory.value.state, m.log, exit, event);
  }

  lemma SubmitKeepsInv(py: Python, m: Machine, world: World)
    requires Inv(m) && m.memory.Some?
    ensures var (memory, log) := AfterSubmit(py, m.memory.value, m.log, world);
      Inv(Machine(m.disk, Some(memory), log))
  {
    var memory := m.memory.value;
    if memory.pc.AtSubmit? {
      var exit, s := memory.pc.exit, memory.state;
      KnownHere(s, exit.ruleId);
      var rule := s.rules[exit.ruleId];
      var context := ContextFor(world.context, s.killSwitch, exit.ruleId in s.observedIds);
      var reasons := BlockedReasons(exit, rule, memory.config, context, world.hasKey, world.now);
      SubmitIsJustified(memory, exit, rule, world);
      if reasons != [] {
        SettledMachineOk(m, exit.ruleId, LiveBlocked, SubmissionBlocked(exit, reasons));
      } else if world.reply.AttemptNotLogged? {
        SettledMachineOk(m, exit.ruleId, LiveFailed, SubmissionFailed(exit.ruleId));
      } else {
        CallKeepsInv(m, exit, rule, context.value, world);
      }
    }
  }

  lemma ReplyKeepsInv(py: Python, m: Machine)
    requires Inv(m) && m.memory.Some?
    ensures var (memory, log) := AfterReply(py, m.memory.value, m.log);
      Inv(Machine(m.disk, Some(memory), log))
  {
    var memory := m.memory.value;
    if memory.pc.AtReply? {
      var id, outcome := memory.pc.exit.ruleId, OutcomeOf(py, memory.pc.reply);
      KnownHere(memory.state, id);
      SettledMachineOk(m, id, outcome,
                       if outcome == LiveSubmitted then SubmissionSucceeded(id) else SubmissionFailed(id));
    }
  }

  // ---------------------------------------------------------------------
  // Operator commands
  // ---------------------------------------------------------------------

  lemma RewriteOnDisk(disk: State, log: Log, id: string, runtime: Runtime)
    requires StateOk(disk, log, None) && id in disk.rules
    requires RecordCoherent(id, runtime.rule, runtime) && RecordOk(runtime.rule, runtime, log, false)
    ensures StateOk(PutRecord(disk, runtime.rule, runtime), log, None)
  {
    var t := PutRecord(disk, runtime.rule, runtime);
    RewriteTouchesOnly(disk, t, runtime.rule, runtime);
    StateSurvivesRewrite(disk, t, log, None, None, id);
  }

  lemma RegisteringKeepsState(disk: State, log: Log, rule: Rule)
    requires StateOk(disk, log, None) && rule.id !in disk.rules
    requires WellFormed(rule) && (rule.executionMode == AutoSubmit ==> rule.liveStatus == CanaryPending)
    ensures StateOk(EnsureRule(disk, rule), log, None)
  {
    EnsureNewRule(disk, rule);
    var t := EnsureRule(disk, rule);
    forall id | id in t.rules ensures RecordOk(t.rules[id], t.runtimes[id], log, false) {
      if id != rule.id {
        assert RecordOk(disk.rules[id], disk.runtimes[id], log, false);
      }
    }
  }

  /** What create-trailing builds: a well-formed rule under the new id, a canary
      still pending if it is live at all. */
  lemma RequestedRule(request: Rule, newId: string)
    requires newId != "" && Requested(request, newId).Success?
    ensures var rule := Requested(request, newId).value;
      && WellFormed(rule) && rule.id == newId && rule.status == Active
      && rule == request.(id := newId, exitOrderType := Market, status := Active, liveStatus := rule.liveStatus)
      && (rule.executionMode == AutoSubmit ==> rule.liveStatus == CanaryPending)
  {
  }

  lemma CreateKeepsDisk(disk: State, log: Log, request: Rule, newId: string)
    requires StateOk(disk, log, None) && newId != "" && newId !in disk.rules && Requested(request, newId).Success?
    ensures StateOk(EnsureRule(disk, Requested(request, newId).value), Then(log, RuleCreated(newId)), None)
  {
    RequestedRule(request, newId);
    StateSurvivesEvent(disk, log, None, RuleCreated(newId));
    RegisteringKeepsState(disk, Then(log, RuleCreated(newId)), Requested(request, newId).value);
  }

  lemma DisablingKeepsRecord(runtime: Runtime, log: Log)
    requires WellFormed(runtime.rule) && RecordOk(runtime.rule, runtime, log, false)
    ensures var after := DisabledRecord(runtime);
      RecordCoherent(runtime.rule.id, after.rule, after) && RecordOk(after.rule, after, log, false)
  {
  }

  lemma PromotingKeepsRecord(runtime: Runtime, log: Log)
    requires WellFormed(runtime.rule) && RecordOk(runtime.rule, runtime, log, false)
    requires runtime.rule.liveStatus == CanarySucceeded
    ensures var after := PromotedRecord(runtime);
      && RecordCoherent(runtime.rule.id, after.rule, after)
      && RecordOk(after.rule, after, Then(log, RulePromoted(runtime.rule.id)), false)
  {
  }

  lemma ResettingKeepsRecord(runtime: Runtime, log: Log, position: Position)
    requires WellFormed(runtime.rule) && RecordOk(runtime.rule, runtime, log, false)
    ensures var after := ResetRecord(runtime, position);
      && RecordCoherent(runtime.rule.id, after.rule, after)
      && RecordOk(after.rule, after, Then(log, RuleReset(runtime.rule.id)), false)
  {
  }

  lemma CommandKeepsDisk(disk: State, log: Log, step: Step)
    requires StateOk(disk, log, None) && IsOperator(step) && Command(disk, step).Some?
    ensures StateOk(Command(disk, step).value.0, Then(log, Command(disk, step).value.1), None)
  {
    var event := Command(disk, step).value.1;
    var after := Then(log, event);
    StateSurvivesEvent(disk, log, None, event);
    if step.CreateRule? {
      CreateKeepsDisk(disk, log, step.request, step.newId);
    } else if !step.SetKillSwitch? {
      var id := step.id;
      var runtime := disk.runtimes[id];
      assert RecordOk(disk.rules[id], runtime, log, false) && RecordOk(disk.rules[id], runtime, after, false);
      if step.DisableRule? {
        DisablingKeepsRecord(runtime, after);
        RewriteOnDisk(disk, after, id, DisabledRecord(runtime));
      } else if step.PromoteRule? {
        PromotingKeepsRecord(runtime, log);
        RewriteOnDisk(disk, after, id, PromotedRecord(runtime));
      } else {
        var position := OpenPosition(disk.rules[id], step.positions).value;
        ResettingKeepsRecord(runtime, log, position);
        RewriteOnDisk(disk, after, id, ResetRecord(runtime, position));
      }
    }
  }

  lemma CommandKeepsIds(disk: State, step: Step)
    requires IsOperator(step) && Command(disk, step).Some?
    ensures forall id :: id in disk.rules ==> id in Command(disk, step).value.0.rules
  {
  }

  lemma RegisteringKeepsLatches(disk: State, rule: Rule, id: string)
    ensures Latched(EnsureRule(disk, rule), id) == Latched(disk, id)
  {
  }

  lemma RewritingKeepsOtherLatches(disk: State, runtime: Runtime, id: string)
    requires runtime.rule.id != id || (Latched(disk, id) ==> runtime.triggered)
    ensures Latched(disk, id) ==> Latched(PutRecord(disk, runtime.rule, runtime), id)
  {
  }

  /** A command opens a latch only by a reset, which pays for it. */
  lemma CommandKeepsCredit(disk: State, log: Log, step: Step, id: string)
    requires IsOperator(step) && Command(disk, step).Some?
    ensures var (after, event) := Command(disk, step).value;
      Resets(log, id) + (if Latched(disk, id) then 1 else 0)
        <= Resets(Then(log, event), id) + (if Latched(after, id) then 1 else 0)
  {
    match step
    case CreateRule(request, newId) => RegisteringKeepsLatches(disk, Requested(request, newId).value, id);
    case DisableRule(other) => RewritingKeepsOtherLatches(disk, DisabledRecord(disk.runtimes[other]), id);
    case PromoteRule(other) => RewritingKeepsOtherLatches(disk, PromotedRecord(disk.runtimes[other]), id);
    case ResetRule(other, reason, positions) =>
      if other != id {
        var position := OpenPosition(disk.rules[other], positions).value;
        RewritingKeepsOtherLatches(disk, ResetRecord(disk.runtimes[other], position), id);
      }
    case SetKillSwitch(active) =>
  }

  lemma CommandOnDiskKeepsInv(m: Machine, step: Step)
    requires Inv(m) && IsOperator(step) && Command(m.disk, step).Some?
    ensures var (disk, event) := Command(m.disk, step).value;
      Inv(Machine(disk, m.memory, Then(m.log, event)))
  {
    var (disk, event) := Command(m.disk, step).value;
    CommandKeepsDisk(m.disk, m.log, step);
    CommandKeepsIds(m.disk, step);
    if m.memory.Some? {
      var memory := m.memory.value;
      StateSurvivesEvent(memory.state, m.log, Pending(memory.pc), event);
      if memory.pc.AtSubmit? {
        CommandKeepsCredit(m.disk, m.log, step, memory.pc.exit.ruleId);
      }
    }
  }

  lemma CommandKeepsInv(py: Python, m: Machine, step: Step)
    requires Inv(m) && IsOperator(step)
    ensures Inv(Next(py, m, step))
  {
    if Command(m.disk, step).Some? {
      var saved := Journaled(m, Command(m.disk, step).value.0);
      SaveKeepsInv(m, Command(m.disk, step).value.0);
      CommandOnDiskKeepsInv(saved, step);
    }
  }

  // ---------------------------------------------------------------------
  // Every reachable state
  // ---------------------------------------------------------------------

  lemma LoadKeepsInv(m: Machine, config: Config, account: Account, health: Health, todo: seq<string>)
    requires Inv(m) && todo <= m.disk.order
    ensures Inv(m.(memory := Some(Memory(config, account, m.disk.(health := health), todo, AtRules))))
  {
    forall i | 0 <= i < |todo| ensures todo[i] in m.disk.rules {
      assert todo[i] == m.disk.order[i];
    }
  }

  lemma WorkKeepsInv(py: Python, m: Machine, step: Step)
    requires Inv(m) && m.memory.Some? && IsWork(step)
    ensures var (memory, log) := Worked(py, m.memory.value, m.log, step);
      Inv(Machine(m.disk, Some(memory), log))
  {
    match step
    case TakeRule => TakeRuleKeepsInv(m);
    case TakeMark(mark) => TakeMarkKeepsInv(m, mark);
    case Submit(world) => SubmitKeepsInv(py, m, world);
    case RecordReply => ReplyKeepsInv(py, m);
  }

  lemma StepKeepsInv(py: Python, m: Machine, step: Step)
    requires Inv(m)
    ensures Inv(Next(py, m, step))
  {
    if IsOperator(step) {
      CommandKeepsInv(py, m, step);
    } else if step.LoadState? && m.memory.None? {
      LoadKeepsInv(m, step.config, step.account, m.disk.health, m.disk.order);
    } else if step.LoadForHealth? && m.memory.None? {
      LoadKeepsInv(m, step.config, Account([], []), step.health, []);
    } else if m.memory.Some? && IsWork(step) {
      WorkKeepsInv(py, m, step);
    } else if m.memory.Some? && step.WriteAhead? {
      WriteAheadKeepsInv(py, m);
    } else if m.memory.Some? && step.SaveState? {
      LastSaveKeepsInv(py, m);
    }
  }

  lemma {:induction false} RunKeepsInv(py: Python, m: Machine, steps: seq<Step>)
    requires Inv(m)
    ensures Inv(Run(py, m, steps))
    decreases |steps|
  {
    if steps != [] {
      StepKeepsInv(py, m, steps[0]);
      RunKeepsInv(py, Next(py, m, steps[0]), steps[1..]);
    }
  }

  lemma ReachableInv(py: Python, steps: seq<Step>)
    ensures Inv(Run(py, INITIAL, steps))
  {
    RunKeepsInv(py, INITIAL, steps);
  }

  /** In every run, with crashes and operator commands anywhere, the exchange
      is called for a rule at most once more than the rule was reset. */
  lemma AtMostOneCallPerArming(py: Python, steps: seq<Step>, id: string)
    ensures var m := Run(py, INITIAL, steps);
      && Calls(m.log, id) <= 1 + Resets(m.log, id)
      // A rule that is open on disk while no tick runs has spent nothing.
      && (id in m.disk.rules && !Latched(m.disk, id) ==> Calls(m.log, id) <= Resets(m.log, id))
  {
    ReachableInv(py, steps);
    var m := Run(py, INITIAL, steps);
    if id in m.disk.rules {
      assert RecordOk(m.disk.rules[id], m.disk.runtimes[id], m.log, false);
      KnownHere(m.disk, id);
    }
  }

  /** Every call of every run is for a canary that is still pending, in a
      canary run, fully ready, with a covered close size: a rule promoted to
      normal live never reaches the exchange in that status. */
  lemma EveryCallIsJustified(py: Python, steps: seq<Step>)
    ensures AllCallsJustified(Run(py, INITIAL, steps).log)
  {
    ReachableInv(py, steps);
  }

  /** The live-enablement lifecycle of every rule on disk. */
  lemma Lifecycle(py: Python, steps: seq<Step>, id: string)
    requires id in Run(py, INITIAL, steps).disk.rules
    ensures var m := Run(py, INITIAL, steps);
      && id in m.disk.runtimes
      && var rule, runtime := m.disk.rules[id], m.disk.runtimes[id];
      && (rule.executionMode == AutoSubmit && rule.liveStatus != CanaryPending ==> runtime.triggered)
      && (rule.liveStatus == CanarySucceeded || rule.liveStatus == NormalLive ==> Succeeded(m.log, id))
      && (rule.liveStatus == NormalLive ==> PromotedAfterSuccess(m.log, id))
      && runtime.protectedSize <= rule.size
  {
    ReachableInv(py, steps);
    var m := Run(py, INITIAL, steps);
    assert RecordOk(m.disk.rules[id], m.disk.runtimes[id], m.log, false);
    KnownHere(m.disk, id);
  }

  /** Both copies of the state stay coherent, so no daemon step gets stuck on a
      missing record. */
  lemma ReachableStatesAreCoherent(py: Python, steps: seq<Step>)
    ensures var m := Run(py, INITIAL, steps);
      && Coherent(m.disk)
      && (m.memory.Some? ==>
            && Coherent(m.memory.value.state)
            && forall i :: 0 <= i < |m.memory.value.todo| ==> Known(m.memory.value.state, m.memory.value.todo[i]))
  {
    ReachableInv(py, steps);
    var m := Run(py, INITIAL, steps);
    if m.memory.Some? {
      var memory := m.memory.value;
      forall i | 0 <= i < |memory.todo| ensures Known(memory.state, memory.todo[i]) {
        KnownHere(memory.state, memory.todo[i]);
      }
    }
  }
}
