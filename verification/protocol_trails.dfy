/** Stops over every run: they only ratchet, and every call is made at the stop
    that was saved for it. */
module ProtocolTrails {
  import opened Prelude
  import opened Models
  import opened Trailing
  import opened TrailingRuns
  import opened Json
  import opened DaemonState
  import opened Fills
  import opened Submission
  import opened Tick
  import opened Protocol
  import opened ProtocolSafety

  /** `b` continues `a`: the same rule but for its status, a stop that is the one
      its favourable price sets, and neither moved against the position. */
  predicate Grows(a: Runtime, b: Runtime) {
    && SamePriceRule(a.rule, b.rule)
    && Consistent(a.rule, a.trail) && Consistent(b.rule, b.trail)
    && (a.trail.favorable.Some? ==>
          && b.trail.favorable.Some?
          && AtLeastAsGood(a.rule.side, b.trail.favorable.value, a.trail.favorable.value)
          && AtLeastAsGood(a.rule.side, b.trail.stop.value, a.trail.stop.value))
  }

  lemma GrowsOn(a: Runtime, b: Runtime, c: Runtime)
    requires Grows(a, b) && Grows(b, c)
    ensures Grows(a, c)
  {
  }

  /** A change of status, latch or size leaves the price side alone. */
  lemma SameTrailGrows(a: Runtime, b: Runtime)
    requires Grows(a, a) && SamePriceRule(a.rule, b.rule) && a.trail == b.trail
    ensures Grows(a, b) && Grows(b, a)
  {
    assert a.rule.side == b.rule.side && a.rule.trailMode == b.rule.trailMode && a.rule.trailValue == b.rule.trailValue;
    if a.trail.favorable.Some? {
      assert StopPrice(a.rule, a.trail.favorable.value) == StopPrice(b.rule, a.trail.favorable.value);
    }
  }

  lemma ObservationGrows(runtime: Runtime, w: WindowSize, tick: PriceTick)
    requires ValidNumbers(runtime.rule) && Grows(runtime, runtime)
    ensures Grows(runtime, Observed(runtime, w, tick).0)
    ensures var (after, exit) := Observed(runtime, w, tick);
      exit.Some? ==> exit.value.ruleId == runtime.rule.id && after.trail.stop == Some(exit.value.stop)
  {
    var marks := [tick.mark];
    assert marks[..|marks| - 1] == [];
    assert Feed(runtime.rule, w, runtime.trail, marks) == Advance(runtime.rule, w, runtime.trail, tick.mark);
    StopRatchets(runtime.rule, w, runtime.trail, marks);
  }

  /** Every runtime of `s` is continued in `t`. */
  predicate AllGrow(s: map<string, Runtime>, t: map<string, Runtime>) {
    forall id :: id in s ==> id in t && Grows(s[id], t[id])
  }

  lemma RewritingGrows(s: map<string, Runtime>, id: string, runtime: Runtime)
    requires AllGrow(s, s) && id in s && Grows(s[id], runtime)
    ensures AllGrow(s, s[id := runtime])
  {
  }

  /** Continued states are consistent themselves. */
  lemma GrownIsConsistent(s: map<string, Runtime>, t: map<string, Runtime>)
    requires AllGrow(s, t) && t.Keys == s.Keys
    ensures AllGrow(t, t)
  {
    forall id | id in t ensures Grows(t[id], t[id]) {
      assert id in s && Grows(s[id], t[id]);
    }
  }

  /** The stop of a live exit on its way to the exchange is the rule's own. */
  predicate StopIsOf(runtimes: map<string, Runtime>, exit: TriggeredExit) {
    exit.ruleId in runtimes && runtimes[exit.ruleId].trail.stop == Some(exit.stop)
  }

  predicate PcStop(pc: Pc, memory: map<string, Runtime>, disk: map<string, Runtime>) {
    match pc
    case AtSave(exit) => StopIsOf(memory, exit)
    case AtSubmit(exit) => StopIsOf(memory, exit) && StopIsOf(disk, exit)
    case _ => true
  }

  /** What a running tick holds continues what the file holds. */
  predicate TrailsOk(m: Machine) {
    && AllGrow(m.disk.runtimes, m.disk.runtimes)
    && (m.memory.Some? ==>
          var memory := m.memory.value;
          && AllGrow(memory.state.runtimes, memory.state.runtimes)
          && (forall id :: id in memory.state.runtimes ==>
                id in m.disk.runtimes && Grows(m.disk.runtimes[id], memory.state.runtimes[id]))
          && PcStop(memory.pc, memory.state.runtimes, m.disk.runtimes))
  }

  // ---------------------------------------------------------------------
  // Commands
  // ---------------------------------------------------------------------

  /** The rules of `s` are those of `t` but for status, with the same trails. */
  predicate SameTrails(s: map<string, Runtime>, t: map<string, Runtime>) {
    forall id :: id in s ==> id in t && SamePriceRule(s[id].rule, t[id].rule) && s[id].trail == t[id].trail
  }

  /** `t` has the trails of `s`, and what is new in it starts fresh. */
  predicate KeepsTrails(s: map<string, Runtime>, t: map<string, Runtime>) {
    SameTrails(s, t) && forall id :: id in t && id !in s ==> t[id].trail == FRESH_TRAIL
  }

  lemma RewritingKeepsTrails(s: map<string, Runtime>, id: string, runtime: Runtime)
    requires id in s && SamePriceRule(s[id].rule, runtime.rule) && s[id].trail == runtime.trail
    ensures KeepsTrails(s, s[id := runtime])
  {
  }

  lemma RegisteringKeepsTrails(disk: State, rule: Rule)
    ensures KeepsTrails(disk.runtimes, EnsureRule(disk, rule).runtimes)
  {
  }

  /** No command touches a trail, and a new rule starts fresh. */
  lemma CommandKeepsTrails(disk: State, step: Step)
    requires IsOperator(step) && Command(disk, step).Some?
    ensures KeepsTrails(disk.runtimes, Command(disk, step).value.0.runtimes)
  {
    match step
    case CreateRule(request, newId) => RegisteringKeepsTrails(disk, Requested(request, newId).value);
    case DisableRule(id) => RewritingKeepsTrails(disk.runtimes, id, DisabledRecord(disk.runtimes[id]));
    case PromoteRule(id) => RewritingKeepsTrails(disk.runtimes, id, PromotedRecord(disk.runtimes[id]));
    case ResetRule(id, reason, positions) =>
      var position := OpenPosition(disk.rules[id], positions).value;
      RewritingKeepsTrails(disk.runtimes, id, ResetRecord(disk.runtimes[id], position));
    case SetKillSwitch(active) =>
  }

  lemma SameTrailsGrow(s: map<string, Runtime>, t: map<string, Runtime>)
    requires AllGrow(s, s) && KeepsTrails(s, t)
    ensures AllGrow(s, t) && AllGrow(t, t)
    ensures forall id :: id in s ==> Grows(t[id], s[id])
  {
    forall id | id in s ensures Grows(s[id], t[id]) && Grows(t[id], s[id]) {
      SameTrailGrows(s[id], t[id]);
    }
    forall id | id in t ensures Grows(t[id], t[id]) {
      if id in s {
        GrowsOn(t[id], s[id], t[id]);
      }
    }
  }

  lemma CommandGrows(py: Python, m: Machine, step: Step)
    requires TrailsOk(m) && IsOperator(step)
    ensures TrailsOk(Next(py, m, step)) && AllGrow(m.disk.runtimes, Next(py, m, step).disk.runtimes)
  {
    if Command(m.disk, step).Some? {
      var after := Command(m.disk, step).value.0.runtimes;
      CommandKeepsTrails(m.disk, step);
      SameTrailsGrow(m.disk.runtimes, after);
      if m.memory.Some? {
        var runtimes := m.memory.value.state.runtimes;
        forall id | id in runtimes ensures id in after && Grows(after[id], runtimes[id]) {
          GrowsOn(after[id], m.disk.runtimes[id], runtimes[id]);
        }
      }
    }
  }

  // ---------------------------------------------------------------------
  // Daemon steps
  // ---------------------------------------------------------------------

  /** A step of memory that continues every runtime it holds. */
  predicate WorkGrows(before: Memory, after: Memory) {
    && after.state.runtimes.Keys == before.state.runtimes.Keys
    && AllGrow(before.state.runtimes, after.state.runtimes)
    && (after.pc.AtSave? ==> StopIsOf(after.state.runtimes, after.pc.exit))
    && (after.pc.AtSubmit? ==> after == before)
  }

  lemma SizingGrows(s: State, id: string, account: Account)
    requires Known(s, id) && AllGrow(s.runtimes, s.runtimes)
    ensures var t := UpdateProtected(EnsureRule(s, s.rules[id]), id, account);
      t.runtimes.Keys == s.runtimes.Keys && AllGrow(s.runtimes, t.runtimes)
  {
    EnsureKnownRule(s, s.rules[id]);
    var sized := UpdateProtected(s, id, account).runtimes[id];
    SameTrailGrows(s.runtimes[id], sized);
    RewritingGrows(s.runtimes, id, sized);
  }

  lemma TakeRuleGrows(memory: Memory)
    requires Coherent(memory.state) && AllGrow(memory.state.runtimes, memory.state.runtimes)
    requires memory.pc.AtSave? ==> StopIsOf(memory.state.runtimes, memory.pc.exit)
    ensures WorkGrows(memory, AfterTakeRule(memory))
  {
    if memory.pc == AtRules && memory.todo != [] && Known(memory.state, memory.todo[0]) {
      SizingGrows(memory.state, memory.todo[0], memory.account);
    }
  }

  lemma AfterObservationGrows(memory: Memory, log: Log, state: State, exit: Option<TriggeredExit>)
    requires state.runtimes.Keys == memory.state.runtimes.Keys && AllGrow(memory.state.runtimes, state.runtimes)
    requires exit.Some? ==> StopIsOf(state.runtimes, exit.value)
    ensures WorkGrows(memory, AfterObservation(memory, log, state, exit).0)
  {
  }

  lemma TakeMarkGrows(memory: Memory, log: Log, mark: Option<PriceTick>)
    requires AllGrow(memory.state.runtimes, memory.state.runtimes)
    requires memory.pc.AtSave? ==> StopIsOf(memory.state.runtimes, memory.pc.exit)
    ensures WorkGrows(memory, AfterTakeMark(memory, log, mark).0)
  {
    if memory.pc.AtMark? && Known(memory.state, memory.pc.id) {
      var id, s := memory.pc.id, memory.state;
      var usable := UsableMark(s.rules[id], mark);
      if usable.Some? {
        var w := memory.config.window;
        var (t, exit) := ObserveRule(s, id, w, usable.value);
        ObservationGrows(s.runtimes[id], w, usable.value);
        RewritingGrows(s.runtimes, id, Observed(s.runtimes[id], w, usable.value).0);
        AfterObservationGrows(memory, log, t, exit);
      }
    }
  }

  lemma SettlingGrows(s: State, id: string, outcome: Outcome)
    requires AllGrow(s.runtimes, s.runtimes) && Known(s, id)
    ensures SettleRule(s, id, outcome).runtimes.Keys == s.runtimes.Keys
    ensures AllGrow(s.runtimes, SettleRule(s, id, outcome).runtimes)
  {
    var after := Settled(s.runtimes[id], outcome);
    SettledKeepsRule(s.runtimes[id], outcome);
    SameTrailGrows(s.runtimes[id], after);
    RewritingGrows(s.runtimes, id, after);
  }

  lemma DecisionGrows(memory: Memory, log: Log, exit: TriggeredExit, rule: Rule, context: Option<Readiness>,
                      reasons: seq<Reason>, world: World)
    requires AllGrow(memory.state.runtimes, memory.state.runtimes) && Known(memory.state, exit.ruleId)
    ensures var after := AfterDecision(memory, log, exit, rule, context, reasons, world).0;
      && after.state.runtimes.Keys == memory.state.runtimes.Keys
      && AllGrow(memory.state.runtimes, after.state.runtimes)
      && (after.pc == AtRules || after.pc.AtReply?)
  {
    if reasons != [] || context.None? {
      SettlingGrows(memory.state, exit.ruleId, LiveBlocked);
    } else if world.reply.AttemptNotLogged? {
      SettlingGrows(memory.state, exit.ruleId, LiveFailed);
    }
  }

  lemma SubmitGrows(py: Python, memory: Memory, log: Log, world: World)
    requires AllGrow(memory.state.runtimes, memory.state.runtimes)
    requires memory.pc.AtSave? ==> StopIsOf(memory.state.runtimes, memory.pc.exit)
    ensures WorkGrows(memory, AfterSubmit(py, memory, log, world).0)
  {
    if memory.pc.AtSubmit? && Known(memory.state, memory.pc.exit.ruleId) {
      var exit, s := memory.pc.exit, memory.state;
      var rule := s.rules[exit.ruleId];
      var context := ContextFor(world.context, s.killSwitch, exit.ruleId in s.observedIds);
      var reasons := BlockedReasons(exit, rule, memory.config, context, world.hasKey, world.now);
      DecisionGrows(memory, log, exit, rule, context, reasons, world);
    }
  }

  lemma ReplyGrows(py: Python, memory: Memory, log: Log)
    requires AllGrow(memory.state.runtimes, memory.state.runtimes)
    requires memory.pc.AtSave? ==> StopIsOf(memory.state.runtimes, memory.pc.exit)
    ensures WorkGrows(memory, AfterReply(py, memory, log).0)
  {
    if memory.pc.AtReply? && Known(memory.state, memory.pc.exit.ruleId) {
      SettlingGrows(memory.state, memory.pc.exit.ruleId, OutcomeOf(py, memory.pc.reply));
    }
  }

  /** Work in memory leaves the file behind. */
  lemma WorkKeepsTrails(m: Machine, after: Memory, log: Log)
    requires TrailsOk(m) && m.memory.Some? && WorkGrows(m.memory.value, after)
    ensures TrailsOk(Machine(m.disk, Some(after), log))
  {
    var before, runtimes := m.memory.value.state.runtimes, after.state.runtimes;
    GrownIsConsistent(before, runtimes);
    forall id | id in runtimes ensures id in m.disk.runtimes && Grows(m.disk.runtimes[id], runtimes[id]) {
      assert id in before;
      GrowsOn(m.disk.runtimes[id], before[id], runtimes[id]);
    }
  }

  lemma WorkedGrows(py: Python, memory: Memory, log: Log, step: Step)
    requires IsWork(step) && Coherent(memory.state) && AllGrow(memory.state.runtimes, memory.state.runtimes)
    requires memory.pc.AtSave? ==> StopIsOf(memory.state.runtimes, memory.pc.exit)
    ensures WorkGrows(memory, Worked(py, memory, log, step).0)
  {
    match step
    case TakeRule => TakeRuleGrows(memory);
    case TakeMark(mark) => TakeMarkGrows(memory, log, mark);
    case Submit(world) => SubmitGrows(py, memory, log, world);
    case RecordReply => ReplyGrows(py, memory, log);
  }

  /** The rule is in the file, and in the running tick if there is one. */
  predicate Rooted(m: Machine, id: string) {
    id in m.disk.runtimes && (m.memory.Some? ==> id in m.memory.value.state.runtimes)
  }

  lemma WorkStepGrows(py: Python, m: Machine, step: Step, id: string)
    requires TrailsOk(m) && m.memory.Some? && Coherent(m.memory.value.state) && IsWork(step)
    ensures var next := Next(py, m, step);
      TrailsOk(next) && next.disk == m.disk && (Rooted(m, id) ==> Rooted(next, id))
  {
    var (memory, log) := Worked(py, m.memory.value, m.log, step);
    WorkedGrows(py, m.memory.value, m.log, step);
    WorkKeepsTrails(m, memory, log);
  }

  /** Loading, saving and crashing. */
  lemma FileStepGrows(py: Python, m: Machine, step: Step, id: string)
    requires TrailsOk(m) && !IsOperator(step) && (m.memory.Some? ==> !IsWork(step))
    ensures var next := Next(py, m, step);
      TrailsOk(next) && (Rooted(m, id) ==> Rooted(next, id) && Grows(m.disk.runtimes[id], next.disk.runtimes[id]))
  {
  }

  lemma StepGrows(py: Python, m: Machine, step: Step, id: string)
    requires Inv(m) && TrailsOk(m)
    ensures var next := Next(py, m, step);
      TrailsOk(next) && (Rooted(m, id) ==> Rooted(next, id) && Grows(m.disk.runtimes[id], next.disk.runtimes[id]))
  {
    if IsOperator(step) {
      CommandGrows(py, m, step);
    } else if m.memory.Some? && IsWork(step) {
      WorkStepGrows(py, m, step, id);
    } else {
      FileStepGrows(py, m, step, id);
    }
  }

  lemma {:induction false} RunGrows(py: Python, m: Machine, steps: seq<Step>, id: string)
    requires Inv(m) && TrailsOk(m)
    ensures var after := Run(py, m, steps);
      && Inv(after) && TrailsOk(after)
      && (Rooted(m, id) ==> Rooted(after, id) && Grows(m.disk.runtimes[id], after.disk.runtimes[id]))
    decreases |steps|
  {
    if steps != [] {
      var next := Next(py, m, steps[0]);
      StepKeepsInv(py, m, steps[0]);
      StepGrows(py, m, steps[0], id);
      RunGrows(py, next, steps[1..], id);
      if Rooted(m, id) {
        GrowsOn(m.disk.runtimes[id], next.disk.runtimes[id], Run(py, m, steps).disk.runtimes[id]);
      }
    }
  }

  /** A rule that is in the file while no tick runs stays in the file for good,
      and whatever ticks, crashes and commands follow, its stop and favourable
      price on disk never move against the position. */
  lemma StopsRatchet(py: Python, before: seq<Step>, steps: seq<Step>, id: string)
    requires var m := Run(py, INITIAL, before);
      m.memory.None? && id in m.disk.runtimes
    ensures var m := Run(py, INITIAL, before);
      var after := Run(py, m, steps);
      id in after.disk.runtimes && Grows(m.disk.runtimes[id], after.disk.runtimes[id])
  {
    RunGrows(py, INITIAL, before, id);
    RunGrows(py, Run(py, INITIAL, before), steps, id);
  }

  /** `after` is `before` and the call for `exit`. */
  predicate LogsCall(before: Log, after: Log, exit: TriggeredExit) {
    after.Then? && after.past == before && after.last.ExchangeCalled? && after.last.exit == exit
  }

  lemma OnlyDecisionsCall(memory: Memory, log: Log, exit: TriggeredExit, rule: Rule, context: Option<Readiness>,
                          reasons: seq<Reason>, world: World, id: string)
    requires exit.ruleId in memory.state.runtimes
    ensures var after := AfterDecision(memory, log, exit, rule, context, reasons, world).1;
      Calls(after, id) != Calls(log, id) ==> exit.ruleId == id && LogsCall(log, after, exit)
  {
  }

  lemma OnlySubmitsCall(py: Python, memory: Memory, log: Log, world: World, id: string)
    ensures var after := AfterSubmit(py, memory, log, world).1;
      Calls(after, id) != Calls(log, id) ==>
        memory.pc.AtSubmit? && memory.pc.exit.ruleId == id && LogsCall(log, after, memory.pc.exit)
  {
    if memory.pc.AtSubmit? && Known(memory.state, memory.pc.exit.ruleId) {
      var exit, s := memory.pc.exit, memory.state;
      var rule := s.rules[exit.ruleId];
      var context := ContextFor(world.context, s.killSwitch, exit.ruleId in s.observedIds);
      var reasons := BlockedReasons(exit, rule, memory.config, context, world.hasKey, world.now);
      OnlyDecisionsCall(memory, log, exit, rule, context, reasons, world, id);
    }
  }

  lemma OtherStepsCallNothing(py: Python, m: Machine, step: Step, id: string)
    requires m.memory.None? || !step.Submit?
    ensures Calls(Next(py, m, step).log, id) == Calls(m.log, id)
  {
  }

  /** The exit about to be submitted, against the file. */
  lemma SavedStop(m: Machine, exit: TriggeredExit)
    requires TrailsOk(m) && m.memory.Some? && m.memory.value.pc == AtSubmit(exit)
    requires ExitOk(exit, m.memory.value.state, m.memory.value.account)
    requires Known(m.disk, exit.ruleId) && Known(m.memory.value.state, exit.ruleId)
    ensures StopIsOf(m.disk.runtimes, exit) && exit.ruleId in m.disk.rules
    ensures Crossed(m.disk.rules[exit.ruleId].side, exit.mark, exit.stop)
  {
    var s := m.memory.value.state;
    assert Grows(m.disk.runtimes[exit.ruleId], s.runtimes[exit.ruleId]);
  }

  lemma StandsAtSubmit(m: Machine)
    requires Inv(m) && m.memory.Some? && m.memory.value.pc.AtSubmit?
    ensures var exit := m.memory.value.pc.exit;
      && ExitOk(exit, m.memory.value.state, m.memory.value.account)
      && Known(m.disk, exit.ruleId) && Known(m.memory.value.state, exit.ruleId)
  {
    KnownHere(m.disk, m.memory.value.pc.exit.ruleId);
    KnownHere(m.memory.value.state, m.memory.value.pc.exit.ruleId);
  }

  /** `next` comes from `m` by a call for rule `id`, at a stop that is on disk and
      that the exit's mark has crossed. */
  predicate CallsAtSavedStop(m: Machine, next: Machine, exit: TriggeredExit, id: string) {
    && exit.ruleId == id && LogsCall(m.log, next.log, exit)
    && StopIsOf(m.disk.runtimes, exit)
    && id in m.disk.rules && Crossed(m.disk.rules[id].side, exit.mark, exit.stop)
  }

  /** A step, in any state that keeps the invariants. */
  lemma CallAtSavedStop(py: Python, m: Machine, step: Step, id: string) returns (exit: Option<TriggeredExit>)
    requires Inv(m) && TrailsOk(m)
    ensures var next := Next(py, m, step);
      && (exit.None? ==> Calls(next.log, id) == Calls(m.log, id))
      && (exit.Some? ==> CallsAtSavedStop(m, next, exit.value, id))
  {
    exit := None;
    if m.memory.None? || !step.Submit? {
      OtherStepsCallNothing(py, m, step, id);
    } else if Calls(Next(py, m, step).log, id) != Calls(m.log, id) {
      OnlySubmitsCall(py, m.memory.value, m.log, step.world, id);
      exit := Some(m.memory.value.pc.exit);
      StandsAtSubmit(m);
      SavedStop(m, exit.value);
    }
  }

  /** In every run, a step calls nothing for a rule, or calls the exchange for an
      exit whose stop is the one its write-ahead save left in the file, and
      whose mark has crossed it, whatever commands came between save and call. */
  lemma CallsUseTheSavedStop(py: Python, steps: seq<Step>, step: Step, id: string)
    returns (exit: Option<TriggeredExit>)
    ensures var m := Run(py, INITIAL, steps);
      var next := Next(py, m, step);
      && (exit.None? ==> Calls(next.log, id) == Calls(m.log, id))
      && (exit.Some? ==> CallsAtSavedStop(m, next, exit.value, id))
  {
    RunGrows(py, INITIAL, steps, id);
    exit := CallAtSavedStop(py, Run(py, INITIAL, steps), step, id);
  }
}
