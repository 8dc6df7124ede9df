/** Operators against a running tick: what the kill switch guarantees, which
    commands a tick overwrites, and what atomic commands are needed for. */
module ProtocolOperators {
  import opened Prelude
  import opened Models
  import opened Trailing
  import opened Json
  import opened DaemonState
  import opened Fills
  import opened Submission
  import opened Tick
  import opened Protocol
  import opened ProtocolSafety

  // ---------------------------------------------------------------------
  // Histories that grow alike
  // ---------------------------------------------------------------------

  /** Two machines that differ in their history only, and by how much two logs
      grew alike. */
  predicate GrewAlike(a: Log, a1: Log, b: Log, b1: Log, id: string) {
    && Calls(a1, id) - Calls(a, id) == Calls(b1, id) - Calls(b, id)
    && Resets(a1, id) - Resets(a, id) == Resets(b1, id) - Resets(b, id)
    && DryRuns(a1, id) - DryRuns(a, id) == DryRuns(b1, id) - DryRuns(b, id)
  }

  lemma ObservationIgnoresTheLog(memory: Memory, a: Log, b: Log, state: State, exit: Option<TriggeredExit>, id: string)
    ensures AfterObservation(memory, a, state, exit).0 == AfterObservation(memory, b, state, exit).0
    ensures GrewAlike(a, AfterObservation(memory, a, state, exit).1, b, AfterObservation(memory, b, state, exit).1, id)
  {
  }

  lemma MarkIgnoresTheLog(memory: Memory, a: Log, b: Log, mark: Option<PriceTick>, id: string)
    ensures AfterTakeMark(memory, a, mark).0 == AfterTakeMark(memory, b, mark).0
    ensures GrewAlike(a, AfterTakeMark(memory, a, mark).1, b, AfterTakeMark(memory, b, mark).1, id)
  {
    if memory.pc.AtMark? && Known(memory.state, memory.pc.id) {
      var usable := UsableMark(memory.state.rules[memory.pc.id], mark);
      if usable.Some? {
        var (state, exit) := ObserveRule(memory.state, memory.pc.id, memory.config.window, usable.value);
        ObservationIgnoresTheLog(memory, a, b, state, exit, id);
      }
    }
  }

  lemma DecisionIgnoresTheLog(memory: Memory, a: Log, b: Log, exit: TriggeredExit, rule: Rule,
                              context: Option<Readiness>,
                              reasons: seq<Reason>, world: World, id: string)
    requires exit.ruleId in memory.state.runtimes
    ensures AfterDecision(memory, a, exit, rule, context, reasons, world).0
         == AfterDecision(memory, b, exit, rule, context, reasons, world).0
    ensures GrewAlike(a, AfterDecision(memory, a, exit, rule, context, reasons, world).1,
                      b, AfterDecision(memory, b, exit, rule, context, reasons, world).1, id)
  {
  }

  lemma SubmitIgnoresTheLog(py: Python, memory: Memory, a: Log, b: Log, world: World, id: string)
    ensures AfterSubmit(py, memory, a, world).0 == AfterSubmit(py, memory, b, world).0
    ensures GrewAlike(a, AfterSubmit(py, memory, a, world).1, b, AfterSubmit(py, memory, b, world).1, id)
  {
    if memory.pc.AtSubmit? && Known(memory.state, memory.pc.exit.ruleId) {
      var exit := memory.pc.exit;
      var rule := memory.state.rules[exit.ruleId];
      var context := ContextFor(world.context, memory.state.killSwitch, exit.ruleId in memory.state.observedIds);
      var reasons := BlockedReasons(exit, rule, memory.config, context, world.hasKey, world.now);
      DecisionIgnoresTheLog(memory, a, b, exit, rule, context, reasons, world, id);
    }
  }

  lemma ReplyIgnoresTheLog(py: Python, memory: Memory, a: Log, b: Log, id: string)
    ensures AfterReply(py, memory, a).0 == AfterReply(py, memory, b).0
    ensures GrewAlike(a, AfterReply(py, memory, a).1, b, AfterReply(py, memory, b).1, id)
  {
  }

  // ---------------------------------------------------------------------
  // The kill switch
  // ---------------------------------------------------------------------

  predicate NeverSwitchedOff(steps: seq<Step>) {
    forall i :: 0 <= i < |steps| ==> steps[i] != SetKillSwitch(false)
  }

  lemma CommandKeepsSwitch(disk: State, step: Step)
    requires IsOperator(step) && !step.SetKillSwitch? && Command(disk, step).Some?
    ensures Command(disk, step).value.0.killSwitch == disk.killSwitch
  {
  }

  lemma StepKeepsSwitch(py: Python, m: Machine, step: Step)
    requires m.disk.killSwitch && step != SetKillSwitch(false)
    ensures Next(py, m, step).disk.killSwitch
  {
    if IsOperator(step) && !step.SetKillSwitch? && Command(m.disk, step).Some? {
      CommandKeepsSwitch(m.disk, step);
    }
  }

  /** Only an operator turns a persisted active switch off: no daemon step, no
      stale memory and no crash does. */
  lemma {:induction false} ActiveSwitchStays(py: Python, m: Machine, steps: seq<Step>)
    requires m.disk.killSwitch && NeverSwitchedOff(steps)
    ensures Run(py, m, steps).disk.killSwitch
    decreases |steps|
  {
    if steps != [] {
      StepKeepsSwitch(py, m, steps[0]);
      ActiveSwitchStays(py, Next(py, m, steps[0]), steps[1..]);
    }
  }

  /** Under an active switch in memory the policy does not call. */
  lemma SubmitUnderSwitch(py: Python, memory: Memory, log: Log, world: World, id: string)
    requires memory.state.killSwitch
    ensures Calls(AfterSubmit(py, memory, log, world).1, id) == Calls(log, id)
    ensures AfterSubmit(py, memory, log, world).0.state.killSwitch
    ensures AfterSubmit(py, memory, log, world).0.pc.AtSubmit? ==> AfterSubmit(py, memory, log, world).0 == memory
  {
    if memory.pc.AtSubmit? && Known(memory.state, memory.pc.exit.ruleId) {
      var exit := memory.pc.exit;
      var context := ContextFor(world.context, true, exit.ruleId in memory.state.observedIds);
      BlockedIffNotAllowed(exit, memory.state.rules[exit.ruleId], memory.config, context, world.hasKey, world.now);
    }
  }

  /** The switch as the running tick knows it. */
  predicate TickIsStopped(m: Machine) {
    m.memory.Some? ==> m.memory.value.state.killSwitch
  }

  predicate NoLoad(steps: seq<Step>) {
    forall i :: 0 <= i < |steps| ==> !steps[i].LoadState? && !steps[i].LoadForHealth?
  }

  lemma StoppedStep(py: Python, m: Machine, step: Step, id: string)
    requires TickIsStopped(m) && !step.LoadState? && !step.LoadForHealth?
    ensures TickIsStopped(Next(py, m, step)) && Calls(Next(py, m, step).log, id) == Calls(m.log, id)
  {
    if !IsOperator(step) && m.memory.Some? && step.Submit? {
      SubmitUnderSwitch(py, m.memory.value, m.log, step.world, id);
    }
  }

  lemma {:induction false} StoppedTickMakesNoCalls(py: Python, m: Machine, steps: seq<Step>, id: string)
    requires TickIsStopped(m) && NoLoad(steps)
    ensures Calls(Run(py, m, steps).log, id) == Calls(m.log, id)
    decreases |steps|
  {
    if steps != [] {
      StoppedStep(py, m, steps[0], id);
      StoppedTickMakesNoCalls(py, Next(py, m, steps[0]), steps[1..], id);
    }
  }

  /** If the switch is active on disk or in memory when a trigger is saved,
      neither that trigger nor any later one of the tick reaches the exchange,
      even if an operator turns the switch off meanwhile. */
  lemma SwitchAtSaveStopsTheTick(py: Python, m: Machine, steps: seq<Step>, id: string)
    requires m.memory.Some? && m.memory.value.pc.AtSave?
    requires m.disk.killSwitch || m.memory.value.state.killSwitch
    requires NoLoad(steps)
    ensures Calls(Run(py, m, [WriteAhead] + steps).log, id) == Calls(m.log, id)
  {
    assert ([WriteAhead] + steps)[1..] == steps;
    StoppedTickMakesNoCalls(py, Next(py, m, WriteAhead), steps, id);
  }

  lemma {:induction false} CommandsLeaveMemory(py: Python, m: Machine, commands: seq<Step>, id: string)
    requires forall i :: 0 <= i < |commands| ==> IsOperator(commands[i])
    ensures Run(py, m, commands).memory == m.memory
    ensures Calls(Run(py, m, commands).log, id) == Calls(m.log, id)
    decreases |commands|
  {
    if commands != [] {
      var next := Next(py, m, commands[0]);
      assert next.memory == m.memory && Calls(next.log, id) == Calls(m.log, id);
      CommandsLeaveMemory(py, next, commands[1..], id);
    }
  }

  /** After the write-ahead save the decision is memory's alone: whatever
      operators do to the file before the policy runs, the same calls are made
      and the same memory results. */
  lemma CommandsAfterSaveAreTooLate(py: Python, m: Machine, commands: seq<Step>, world: World, id: string)
    requires m.memory.Some? && forall i :: 0 <= i < |commands| ==> IsOperator(commands[i])
    ensures var late, plain := Next(py, Run(py, m, commands), Submit(world)), Next(py, m, Submit(world));
      late.memory == plain.memory && Calls(late.log, id) == Calls(plain.log, id)
  {
    CommandsLeaveMemory(py, m, commands, id);
    SubmitIgnoresTheLog(py, m.memory.value, m.log, Run(py, m, commands).log, world, id);
  }

  /** Active on disk, with no submission already past its save. */
  predicate StoppedEverywhere(m: Machine) {
    m.disk.killSwitch && (m.memory.Some? && m.memory.value.pc.AtSubmit? ==> m.memory.value.state.killSwitch)
  }

  /** Work that is not a submission under an open switch calls nothing, and
      reaches no submission. */
  lemma WorkUnderSwitch(py: Python, memory: Memory, log: Log, step: Step, id: string)
    requires IsWork(step) && (step.Submit? && memory.pc.AtSubmit? ==> memory.state.killSwitch)
    ensures Calls(Worked(py, memory, log, step).1, id) == Calls(log, id)
    ensures Worked(py, memory, log, step).0.pc.AtSubmit? ==> Worked(py, memory, log, step).0 == memory
  {
    if step.Submit? && memory.pc.AtSubmit? {
      SubmitUnderSwitch(py, memory, log, step.world, id);
    }
  }

  lemma StoppedEverywhereStep(py: Python, m: Machine, step: Step, id: string)
    requires StoppedEverywhere(m) && step != SetKillSwitch(false)
    ensures StoppedEverywhere(Next(py, m, step)) && Calls(Next(py, m, step).log, id) == Calls(m.log, id)
  {
    StepKeepsSwitch(py, m, step);
    if IsOperator(step) {
      CommandCallsNothing(m.disk, m.log, step, id);
    } else if m.memory.Some? && IsWork(step) {
      WorkUnderSwitch(py, m.memory.value, m.log, step, id);
    }
  }

  /** As long as the switch is not turned off, nothing reaches the exchange in
      any later tick either, for any rule. */
  lemma {:induction false} ActiveSwitchStopsAllCalls(py: Python, m: Machine, steps: seq<Step>, id: string)
    requires StoppedEverywhere(m) && NeverSwitchedOff(steps)
    ensures Calls(Run(py, m, steps).log, id) == Calls(m.log, id)
    decreases |steps|
  {
    if steps != [] {
      StoppedEverywhereStep(py, m, steps[0], id);
      ActiveSwitchStopsAllCalls(py, Next(py, m, steps[0]), steps[1..], id);
    }
  }

  /** Switching is what it says, whatever the switch was: the file gets the new
      value and nothing else, and a running tick learns nothing of it. */
  lemma SwitchIsSet(py: Python, m: Machine, active: bool)
    ensures var next := Next(py, m, SetKillSwitch(active));
      next.disk == m.disk.(killSwitch := active) && next.memory == m.memory
  {
  }

  /** Switching on stops every later call of every rule, for as long as nobody
      switches off, unless a submission is already past its save. */
  lemma SwitchingOnStopsAllCalls(py: Python, m: Machine, steps: seq<Step>, id: string)
    requires m.memory.None? || !m.memory.value.pc.AtSubmit?
    requires NeverSwitchedOff(steps)
    ensures var after := Run(py, Next(py, m, SetKillSwitch(true)), steps);
      Calls(after.log, id) == Calls(m.log, id) && after.disk.killSwitch
  {
    var next := Next(py, m, SetKillSwitch(true));
    SwitchIsSet(py, m, true);
    CommandCallsNothing(m.disk, m.log, SetKillSwitch(true), id);
    ActiveSwitchStopsAllCalls(py, next, steps, id);
    ActiveSwitchStays(py, next, steps);
  }

  // ---------------------------------------------------------------------
  // Commands that a running tick overwrites
  // ---------------------------------------------------------------------

  /** A step of a tick that is already running. */
  predicate IsTickStep(step: Step) {
    step.TakeRule? || step.TakeMark? || step.WriteAhead? || step.Submit? || step.RecordReply? || step.SaveState?
  }

  predicate AllTickSteps(steps: seq<Step>) {
    forall i :: 0 <= i < |steps| ==> IsTickStep(steps[i])
  }

  /** The same running tick over two files that agree on the switch, or two
      idle machines with the same file. */
  predicate SameFuture(a: Machine, b: Machine) {
    || (a.memory.Some? && a.memory == b.memory && a.disk.killSwitch == b.disk.killSwitch)
    || (a.memory.None? && b.memory.None? && a.disk == b.disk)
  }

  lemma TickStepKeepsSameFuture(py: Python, a: Machine, b: Machine, step: Step)
    requires SameFuture(a, b) && IsTickStep(step)
    ensures SameFuture(Next(py, a, step), Next(py, b, step))
  {
    if a.memory.Some? && step.Submit? {
      SubmitIgnoresTheLog(py, a.memory.value, a.log, b.log, step.world, "");
    }
  }

  lemma {:induction false} SameFutureRuns(py: Python, a: Machine, b: Machine, steps: seq<Step>)
    requires SameFuture(a, b) && AllTickSteps(steps)
    ensures SameFuture(Run(py, a, steps), Run(py, b, steps))
    decreases |steps|
  {
    if steps != [] {
      TickStepKeepsSameFuture(py, a, b, steps[0]);
      SameFutureRuns(py, Next(py, a, steps[0]), Next(py, b, steps[0]), steps[1..]);
    }
  }

  predicate PlainCommands(commands: seq<Step>) {
    forall i :: 0 <= i < |commands| ==> IsOperator(commands[i]) && !commands[i].SetKillSwitch?
  }

  lemma {:induction false} CommandsLeaveTheTick(py: Python, m: Machine, commands: seq<Step>)
    requires m.memory.Some? && PlainCommands(commands)
    ensures SameFuture(Run(py, m, commands), m)
    decreases |commands|
  {
    if commands != [] {
      if Command(m.disk, commands[0]).Some? {
        CommandKeepsSwitch(m.disk, commands[0]);
      }
      CommandsLeaveTheTick(py, Next(py, m, commands[0]), commands[1..]);
    }
  }

  /** Creations, disablings, promotions and resets that fall inside a tick are
      lost: when the tick completes, the file is what it would have been
      without them. */
  lemma CommandsInsideATickAreLost(py: Python, m: Machine, commands: seq<Step>, steps: seq<Step>)
    requires m.memory.Some? && PlainCommands(commands) && AllTickSteps(steps)
    requires Run(py, m, steps).memory.None?
    ensures var late, plain := Run(py, Run(py, m, commands), steps), Run(py, m, steps);
      late.disk == plain.disk && late.memory.None?
  {
    CommandsLeaveTheTick(py, m, commands);
    SameFutureRuns(py, Run(py, m, commands), m, steps);
  }

  /** The rule the daemon is busy with. */
  function BusyWith(pc: Pc): Option<string> {
    match pc
    case AtRules => None
    case AtMark(id) => Some(id)
    case AtSave(exit) => Some(exit.ruleId)
    case AtSubmit(exit) => Some(exit.ruleId)
    case AtReply(exit, _) => Some(exit.ruleId)
  }

  predicate IsOff(s: State, id: string) {
    id in s.rules && s.rules[id].status == Disabled
  }

  /** Disabled in the file and in whatever copy a tick holds. */
  predicate OffEverywhere(m: Machine, id: string) {
    && IsOff(m.disk, id)
    && (m.memory.Some? ==> IsOff(m.memory.value.state, id) && BusyWith(m.memory.value.pc) != Some(id))
  }

  lemma RewritingKeepsOff(disk: State, runtime: Runtime, id: string)
    requires IsOff(disk, id) && (runtime.rule.id == id ==> runtime.rule.status == Disabled)
    ensures IsOff(PutRecord(disk, runtime.rule, runtime), id)
  {
  }

  lemma RegisteringKeepsOff(disk: State, rule: Rule, id: string)
    requires IsOff(disk, id) && rule.id !in disk.rules
    ensures IsOff(EnsureRule(disk, rule), id)
  {
  }

  /** Commands that rewrite one record keep a disabled rule disabled. */
  lemma RecordCommandKeepsOff(disk: State, step: Step, id: string)
    requires step.DisableRule? || step.PromoteRule? || step.ResetRule?
    requires Command(disk, step).Some? && IsOff(disk, id) && disk.runtimes[step.id].rule == disk.rules[step.id]
    ensures IsOff(Command(disk, step).value.0, id)
  {
    var runtime := disk.runtimes[step.id];
    match step
    case DisableRule(_) => RewritingKeepsOff(disk, DisabledRecord(runtime), id);
    case PromoteRule(_) => RewritingKeepsOff(disk, PromotedRecord(runtime), id);
    case ResetRule(other, _, positions) =>
      RewritingKeepsOff(disk, ResetRecord(runtime, OpenPosition(disk.rules[other], positions).value), id);
  }

  lemma CommandKeepsOff(disk: State, step: Step, id: string)
    requires IsOperator(step) && Command(disk, step).Some? && IsOff(disk, id)
    ensures IsOff(Command(disk, step).value.0, id)
  {
    if step.CreateRule? {
      RequestedRule(step.request, step.newId);
      RegisteringKeepsOff(disk, Requested(step.request, step.newId).value, id);
    } else if !step.SetKillSwitch? {
      RecordCommandKeepsOff(disk, step, id);
    }
  }

  lemma OtherRecordStaysOff(s: State, t: State, touched: string, id: string)
    requires TouchesOnly(s, t, touched) && IsOff(s, id) && touched in s.rules
    requires touched == id ==> t.rules[id] == s.rules[id]
    ensures IsOff(t, id)
  {
  }

  lemma ObservationNamesItsRule(s: State, id: string, w: WindowSize, tick: PriceTick)
    requires Known(s, id)
    ensures var exit := ObserveRule(s, id, w, tick).1;
      exit.Some? ==> exit.value.ruleId == id
  {
  }

  predicate OffInMemory(memory: Memory, id: string) {
    IsOff(memory.state, id) && BusyWith(memory.pc) != Some(id)
  }

  lemma TakeRuleKeepsOff(memory: Memory, id: string)
    requires Coherent(memory.state) && OffInMemory(memory, id)
    ensures OffInMemory(AfterTakeRule(memory), id)
  {
    var s := memory.state;
    if memory.pc == AtRules && memory.todo != [] && Known(s, memory.todo[0]) {
      var taken := memory.todo[0];
      if s.rules[taken].status != Disabled {
        SizingTouchesOnly(s, taken, memory.account);
        OtherRecordStaysOff(s, UpdateProtected(s, taken, memory.account), taken, id);
      }
    }
  }

  lemma ObservationKeepsOff(memory: Memory, log: Log, state: State, exit: Option<TriggeredExit>, id: string)
    requires IsOff(state, id) && (exit.Some? ==> exit.value.ruleId != id)
    ensures OffInMemory(AfterObservation(memory, log, state, exit).0, id)
    ensures Calls(AfterObservation(memory, log, state, exit).1, id) == Calls(log, id)
  {
  }

  lemma TakeMarkKeepsOff(memory: Memory, log: Log, mark: Option<PriceTick>, id: string)
    requires Coherent(memory.state) && OffInMemory(memory, id)
    ensures OffInMemory(AfterTakeMark(memory, log, mark).0, id)
    ensures Calls(AfterTakeMark(memory, log, mark).1, id) == Calls(log, id)
  {
    var s := memory.state;
    if memory.pc.AtMark? && Known(s, memory.pc.id) {
      var busy := memory.pc.id;
      var usable := UsableMark(s.rules[busy], mark);
      if usable.Some? {
        var (t, exit) := ObserveRule(s, busy, memory.config.window, usable.value);
        ObserveTouchesOnly(s, busy, memory.config.window, usable.value);
        ObservationNamesItsRule(s, busy, memory.config.window, usable.value);
        ObservationKeepsOff(memory, log, t, exit, id);
      }
    }
  }

  lemma SettlingKeepsOff(s: State, busy: string, outcome: Outcome, id: string)
    requires Coherent(s) && busy in s.rules && IsOff(s, id) && busy != id
    ensures IsOff(SettleRule(s, busy, outcome), id)
  {
    SettlingTouchesOnly(s, busy, outcome);
  }

  lemma DecisionKeepsOff(memory: Memory, log: Log, exit: TriggeredExit, rule: Rule, context: Option<Readiness>,
                         reasons: seq<Reason>, world: World, id: string)
    requires Coherent(memory.state) && OffInMemory(memory, id)
    requires memory.pc == AtSubmit(exit) && Known(memory.state, exit.ruleId)
    ensures OffInMemory(AfterDecision(memory, log, exit, rule, context, reasons, world).0, id)
    ensures Calls(AfterDecision(memory, log, exit, rule, context, reasons, world).1, id) == Calls(log, id)
  {
    SettlingKeepsOff(memory.state, exit.ruleId, LiveBlocked, id);
    SettlingKeepsOff(memory.state, exit.ruleId, LiveFailed, id);
  }

  lemma SubmitKeepsOff(py: Python, memory: Memory, log: Log, world: World, id: string)
    requires Coherent(memory.state) && OffInMemory(memory, id)
    ensures OffInMemory(AfterSubmit(py, memory, log, world).0, id)
    ensures Calls(AfterSubmit(py, memory, log, world).1, id) == Calls(log, id)
  {
    if memory.pc.AtSubmit? && Known(memory.state, memory.pc.exit.ruleId) {
      var exit := memory.pc.exit;
      var rule := memory.state.rules[exit.ruleId];
      var context := ContextFor(world.context, memory.state.killSwitch, exit.ruleId in memory.state.observedIds);
      var reasons := BlockedReasons(exit, rule, memory.config, context, world.hasKey, world.now);
      DecisionKeepsOff(memory, log, exit, rule, context, reasons, world, id);
    }
  }

  lemma ReplyKeepsOff(py: Python, memory: Memory, log: Log, id: string)
    requires Coherent(memory.state) && OffInMemory(memory, id)
    ensures OffInMemory(AfterReply(py, memory, log).0, id)
    ensures Calls(AfterReply(py, memory, log).1, id) == Calls(log, id)
  {
    if memory.pc.AtReply? && Known(memory.state, memory.pc.exit.ruleId) {
      SettlingKeepsOff(memory.state, memory.pc.exit.ruleId, OutcomeOf(py, memory.pc.reply), id);
    }
  }

  lemma WorkKeepsOff(py: Python, memory: Memory, log: Log, step: Step, id: string)
    requires IsWork(step) && Coherent(memory.state) && OffInMemory(memory, id)
    ensures OffInMemory(Worked(py, memory, log, step).0, id)
    ensures Calls(Worked(py, memory, log, step).1, id) == Calls(log, id)
  {
    match step
    case TakeRule => TakeRuleKeepsOff(memory, id);
    case TakeMark(mark) => TakeMarkKeepsOff(memory, log, mark, id);
    case Submit(world) => SubmitKeepsOff(py, memory, log, world, id);
    case RecordReply => ReplyKeepsOff(py, memory, log, id);
  }

  lemma CommandCallsNothing(disk: State, log: Log, step: Step, id: string)
    requires IsOperator(step)
    ensures Calls(Commanded(disk, log, step).1, id) == Calls(log, id)
  {
  }

  lemma StepKeepsOff(py: Python, m: Machine, step: Step, id: string)
    requires Coherent(m.disk) && (m.memory.Some? ==> Coherent(m.memory.value.state)) && OffEverywhere(m, id)
    ensures OffEverywhere(Next(py, m, step), id)
    ensures Calls(Next(py, m, step).log, id) == Calls(m.log, id)
  {
    if IsOperator(step) {
      CommandCallsNothing(m.disk, m.log, step, id);
      if Command(m.disk, step).Some? {
        CommandKeepsOff(m.disk, step, id);
      }
    } else if m.memory.Some? && IsWork(step) {
      WorkKeepsOff(py, m.memory.value, m.log, step, id);
    }
  }

  /** A rule that is off everywhere stays off and never reaches the exchange
      again, in any run. */
  lemma {:induction false} OffStaysOff(py: Python, m: Machine, steps: seq<Step>, id: string)
    requires Inv(m) && OffEverywhere(m, id)
    ensures OffEverywhere(Run(py, m, steps), id)
    ensures Calls(Run(py, m, steps).log, id) == Calls(m.log, id)
    decreases |steps|
  {
    if steps != [] {
      StepKeepsInv(py, m, steps[0]);
      StepKeepsOff(py, m, steps[0], id);
      OffStaysOff(py, Next(py, m, steps[0]), steps[1..], id);
    }
  }

  lemma DisablingTurnsOff(py: Python, m: Machine, id: string)
    requires Inv(m) && m.memory.None? && id in m.disk.rules
    ensures var next := Next(py, m, DisableRule(id));
      OffEverywhere(next, id) && Calls(next.log, id) == Calls(m.log, id)
  {
    KnownHere(m.disk, id);
  }

  /** Disabling works for good when no tick is running. */
  lemma DisableWhileIdleHolds(py: Python, m: Machine, id: string, steps: seq<Step>)
    requires Inv(m) && m.memory.None? && id in m.disk.rules
    ensures var after := Run(py, Next(py, m, DisableRule(id)), steps);
      IsOff(after.disk, id) && Calls(after.log, id) == Calls(m.log, id)
  {
    DisablingTurnsOff(py, m, id);
    StepKeepsInv(py, m, DisableRule(id));
    OffStaysOff(py, Next(py, m, DisableRule(id)), steps, id);
  }

  /** A rule's status in memory, which no tick step changes. */
  predicate IsOn(s: State, id: string) {
    id in s.rules && s.rules[id].status == Active
  }

  lemma SettlingKeepsOn(s: State, busy: string, outcome: Outcome, id: string)
    requires Coherent(s) && busy in s.rules && IsOn(s, id)
    ensures IsOn(SettleRule(s, busy, outcome), id)
  {
    KnownHere(s, busy);
    SettlingTouchesOnly(s, busy, outcome);
    SettledKeepsRule(s.runtimes[busy], outcome);
  }

  lemma TakeRuleKeepsOn(memory: Memory, id: string)
    requires Coherent(memory.state) && IsOn(memory.state, id)
    ensures IsOn(AfterTakeRule(memory).state, id)
  {
    if memory.pc == AtRules && memory.todo != [] && Known(memory.state, memory.todo[0]) {
      SizingTouchesOnly(memory.state, memory.todo[0], memory.account);
    }
  }

  lemma TakeMarkKeepsOn(memory: Memory, log: Log, mark: Option<PriceTick>, id: string)
    requires Coherent(memory.state) && IsOn(memory.state, id)
    ensures IsOn(AfterTakeMark(memory, log, mark).0.state, id)
  {
    if memory.pc.AtMark? && Known(memory.state, memory.pc.id) {
      var usable := UsableMark(memory.state.rules[memory.pc.id], mark);
      if usable.Some? {
        ObserveTouchesOnly(memory.state, memory.pc.id, memory.config.window, usable.value);
      }
    }
  }

  lemma DecisionKeepsOn(memory: Memory, log: Log, exit: TriggeredExit, rule: Rule, context: Option<Readiness>,
                        reasons: seq<Reason>, world: World, id: string)
    requires Coherent(memory.state) && IsOn(memory.state, id) && Known(memory.state, exit.ruleId)
    ensures IsOn(AfterDecision(memory, log, exit, rule, context, reasons, world).0.state, id)
  {
    SettlingKeepsOn(memory.state, exit.ruleId, LiveBlocked, id);
    SettlingKeepsOn(memory.state, exit.ruleId, LiveFailed, id);
  }

  lemma SubmitKeepsOn(py: Python, memory: Memory, log: Log, world: World, id: string)
    requires Coherent(memory.state) && IsOn(memory.state, id)
    ensures IsOn(AfterSubmit(py, memory, log, world).0.state, id)
  {
    if memory.pc.AtSubmit? && Known(memory.state, memory.pc.exit.ruleId) {
      var exit := memory.pc.exit;
      var rule := memory.state.rules[exit.ruleId];
      var context := ContextFor(world.context, memory.state.killSwitch, exit.ruleId in memory.state.observedIds);
      var reasons := BlockedReasons(exit, rule, memory.config, context, world.hasKey, world.now);
      DecisionKeepsOn(memory, log, exit, rule, context, reasons, world, id);
    }
  }

  /** Active in the running tick's copy, or in the file once the tick is over. */
  predicate OnForTheTick(m: Machine, id: string) {
    if m.memory.Some? then IsOn(m.memory.value.state, id) else IsOn(m.disk, id)
  }

  lemma ReplyKeepsOn(py: Python, memory: Memory, log: Log, id: string)
    requires Coherent(memory.state) && IsOn(memory.state, id)
    ensures IsOn(AfterReply(py, memory, log).0.state, id)
  {
    if memory.pc.AtReply? && Known(memory.state, memory.pc.exit.ruleId) {
      SettlingKeepsOn(memory.state, memory.pc.exit.ruleId, OutcomeOf(py, memory.pc.reply), id);
    }
  }

  lemma WorkKeepsOn(py: Python, memory: Memory, log: Log, step: Step, id: string)
    requires IsWork(step) && Coherent(memory.state) && IsOn(memory.state, id)
    ensures IsOn(Worked(py, memory, log, step).0.state, id)
  {
    match step
    case TakeRule => TakeRuleKeepsOn(memory, id);
    case TakeMark(mark) => TakeMarkKeepsOn(memory, log, mark, id);
    case Submit(world) => SubmitKeepsOn(py, memory, log, world, id);
    case RecordReply => ReplyKeepsOn(py, memory, log, id);
  }

  lemma TickStepKeepsOn(py: Python, m: Machine, step: Step, id: string)
    requires OnForTheTick(m, id) && IsTickStep(step)
    requires m.memory.Some? ==> Coherent(m.memory.value.state)
    ensures OnForTheTick(Next(py, m, step), id)
  {
    if m.memory.Some? && IsWork(step) {
      WorkKeepsOn(py, m.memory.value, m.log, step, id);
    }
  }

  lemma {:induction false} TickKeepsOn(py: Python, m: Machine, steps: seq<Step>, id: string)
    requires Inv(m) && OnForTheTick(m, id) && AllTickSteps(steps)
    ensures OnForTheTick(Run(py, m, steps), id)
    decreases |steps|
  {
    if steps != [] {
      StepKeepsInv(py, m, steps[0]);
      TickStepKeepsOn(py, m, steps[0], id);
      TickKeepsOn(py, Next(py, m, steps[0]), steps[1..], id);
    }
  }

  /** Disabling a rule that the daemon holds as active works exactly when no
      tick is running: otherwise the tick's last save enables it again. */
  lemma DisableHoldsExactlyWhenIdle(py: Python, m: Machine, id: string, steps: seq<Step>)
    requires Inv(m) && id in m.disk.rules && AllTickSteps(steps)
    requires m.memory.Some? ==> IsOn(m.memory.value.state, id)
    requires Run(py, m, steps).memory.None?
    ensures IsOff(Run(py, Next(py, m, DisableRule(id)), steps).disk, id) <==> m.memory.None?
  {
    if m.memory.None? {
      DisableWhileIdleHolds(py, m, id, steps);
    } else {
      TickKeepsOn(py, m, steps, id);
      var commands := [DisableRule(id)];
      assert Run(py, m, commands) == Run(py, Next(py, m, DisableRule(id)), []);
      CommandsInsideATickAreLost(py, m, commands, steps);
    }
  }

  /** The switch of a running tick is the tick's own, or newly switched on. */
  predicate SwitchFollows(m: Machine, on: bool) {
    if m.memory.Some? then m.memory.value.state.killSwitch == on && (m.disk.killSwitch ==> on)
    else m.disk.killSwitch == on
  }

  lemma DecisionKeepsSwitch(memory: Memory, log: Log, exit: TriggeredExit, rule: Rule, context: Option<Readiness>,
                            reasons: seq<Reason>, world: World)
    requires exit.ruleId in memory.state.runtimes
    ensures AfterDecision(memory, log, exit, rule, context, reasons, world).0.state.killSwitch
         == memory.state.killSwitch
  {
  }

  lemma SubmitKeepsSwitch(py: Python, memory: Memory, log: Log, world: World)
    ensures AfterSubmit(py, memory, log, world).0.state.killSwitch == memory.state.killSwitch
  {
    if memory.pc.AtSubmit? && Known(memory.state, memory.pc.exit.ruleId) {
      var exit := memory.pc.exit;
      var rule := memory.state.rules[exit.ruleId];
      var context := ContextFor(world.context, memory.state.killSwitch, exit.ruleId in memory.state.observedIds);
      var reasons := BlockedReasons(exit, rule, memory.config, context, world.hasKey, world.now);
      DecisionKeepsSwitch(memory, log, exit, rule, context, reasons, world);
    }
  }

  lemma MarkKeepsSwitch(memory: Memory, log: Log, mark: Option<PriceTick>)
    ensures AfterTakeMark(memory, log, mark).0.state.killSwitch == memory.state.killSwitch
  {
  }

  lemma WorkKeepsSwitch(py: Python, memory: Memory, log: Log, step: Step)
    requires IsWork(step)
    ensures Worked(py, memory, log, step).0.state.killSwitch == memory.state.killSwitch
  {
    match step
    case TakeRule =>
    case TakeMark(mark) => MarkKeepsSwitch(memory, log, mark);
    case Submit(world) => SubmitKeepsSwitch(py, memory, log, world);
    case RecordReply =>
  }

  lemma TickStepFollowsSwitch(py: Python, m: Machine, step: Step, on: bool)
    requires SwitchFollows(m, on) && IsTickStep(step)
    ensures SwitchFollows(Next(py, m, step), on)
  {
    if m.memory.Some? && IsWork(step) {
      WorkKeepsSwitch(py, m.memory.value, m.log, step);
    }
  }

  lemma {:induction false} TickFollowsSwitch(py: Python, m: Machine, steps: seq<Step>, on: bool)
    requires SwitchFollows(m, on) && AllTickSteps(steps)
    ensures SwitchFollows(Run(py, m, steps), on)
    decreases |steps|
  {
    if steps != [] {
      TickStepFollowsSwitch(py, m, steps[0], on);
      TickFollowsSwitch(py, Next(py, m, steps[0]), steps[1..], on);
    }
  }

  /** Switching off inside a tick holds exactly when the tick had not seen the
      switch on; a tick that had puts it back. */
  lemma SwitchOffHoldsExactlyWhenUnseen(py: Python, m: Machine, steps: seq<Step>)
    requires m.memory.Some? && AllTickSteps(steps)
    requires Run(py, Next(py, m, SetKillSwitch(false)), steps).memory.None?
    ensures !Run(py, Next(py, m, SetKillSwitch(false)), steps).disk.killSwitch
       <==> !m.memory.value.state.killSwitch
  {
    TickFollowsSwitch(py, Next(py, m, SetKillSwitch(false)), steps, m.memory.value.state.killSwitch);
  }

  // ---------------------------------------------------------------------
  // What happens twice
  // ---------------------------------------------------------------------

  lemma WorkIgnoresTheLog(py: Python, memory: Memory, a: Log, b: Log, step: Step, id: string)
    requires IsWork(step)
    ensures Worked(py, memory, a, step).0 == Worked(py, memory, b, step).0
    ensures GrewAlike(a, Worked(py, memory, a, step).1, b, Worked(py, memory, b, step).1, id)
  {
    match step
    case TakeRule =>
    case TakeMark(mark) => MarkIgnoresTheLog(memory, a, b, mark, id);
    case Submit(world) => SubmitIgnoresTheLog(py, memory, a, b, world, id);
    case RecordReply => ReplyIgnoresTheLog(py, memory, a, b, id);
  }

  lemma CommandIgnoresTheLog(disk: State, a: Log, b: Log, step: Step, id: string)
    requires IsOperator(step)
    ensures Commanded(disk, a, step).0 == Commanded(disk, b, step).0
    ensures GrewAlike(a, Commanded(disk, a, step).1, b, Commanded(disk, b, step).1, id)
  {
  }

  lemma NextIgnoresTheLog(py: Python, m: Machine, log: Log, step: Step, id: string)
    ensures var a, b := Next(py, m, step), Next(py, m.(log := log), step);
      && a.disk == b.disk && a.memory == b.memory
      && GrewAlike(m.log, a.log, log, b.log, id)
  {
    if IsOperator(step) {
      CommandIgnoresTheLog(m.disk, m.log, log, step, id);
    } else if m.memory.Some? && IsWork(step) {
      WorkIgnoresTheLog(py, m.memory.value, m.log, log, step, id);
    }
  }

  lemma {:induction false} RunIgnoresTheLog(py: Python, m: Machine, log: Log, steps: seq<Step>, id: string)
    ensures var a, b := Run(py, m, steps), Run(py, m.(log := log), steps);
      && a.disk == b.disk && a.memory == b.memory
      && GrewAlike(m.log, a.log, log, b.log, id)
    decreases |steps|
  {
    if steps != [] {
      var a, b := Next(py, m, steps[0]), Next(py, m.(log := log), steps[0]);
      NextIgnoresTheLog(py, m, log, steps[0], id);
      RunIgnoresTheLog(py, a, b.log, steps[1..], id);
      assert b == a.(log := b.log);
    }
  }

  /** A command whose load happened at `base`, long before its save. */
  function StaleCommand(m: Machine, base: State, step: Step): Machine
    requires IsOperator(step)
  {
    match Command(base, step)
    case None => m
    case Some((disk, event)) => m.(disk := disk, log := Then(Then(m.log, StateSaved(disk)), event))
  }

  /** Commands must be atomic: setting the kill switch from a file loaded
      before a tick takes the file back to before the tick, so the same tick
      happens again with the same calls, and no reset has paid for them. */
  lemma StaleCommandRepeatsTheTick(py: Python, m: Machine, steps: seq<Step>, id: string)
    requires m.memory.None? && Run(py, m, steps).memory.None?
    ensures var once := Run(py, m, steps);
      var twice := Run(py, StaleCommand(once, m.disk, SetKillSwitch(m.disk.killSwitch)), steps);
      && Calls(twice.log, id) - Calls(m.log, id) == 2 * (Calls(once.log, id) - Calls(m.log, id))
      && Resets(twice.log, id) - Resets(m.log, id) == 2 * (Resets(once.log, id) - Resets(m.log, id))
  {
    var once := Run(py, m, steps);
    var again := StaleCommand(once, m.disk, SetKillSwitch(m.disk.killSwitch));
    var saved := Then(once.log, StateSaved(m.disk));
    assert again.log == Then(saved, KillSwitchSet(m.disk.killSwitch));
    assert Calls(saved, id) == Calls(once.log, id) && Resets(saved, id) == Resets(once.log, id);
    assert again == m.(log := again.log);
    RunIgnoresTheLog(py, m, again.log, steps, id);
  }

  /** Steps that never write the file. */
  predicate WritesNothing(steps: seq<Step>) {
    forall i :: 0 <= i < |steps| ==> !IsOperator(steps[i]) && !steps[i].WriteAhead? && !steps[i].SaveState?
  }

  lemma {:induction false} FileStays(py: Python, m: Machine, steps: seq<Step>)
    requires WritesNothing(steps)
    ensures Run(py, m, steps).disk == m.disk
    decreases |steps|
  {
    if steps != [] {
      FileStays(py, Next(py, m, steps[0]), steps[1..]);
    }
  }

  function Repeat(steps: seq<Step>, n: nat): seq<Step> {
    if n == 0 then [] else steps + Repeat(steps, n - 1)
  }

  /** A dry-run exit has no write-ahead save: a tick that crashes before its
      final save happens again, and logs its dry-run exits again, any number
      of times. Only live exits are guarded. */
  lemma {:induction false} CrashesRepeatDryRuns(py: Python, m: Machine, steps: seq<Step>, id: string, n: nat)
    requires m.memory.None? && WritesNothing(steps)
    ensures DryRuns(Run(py, m, Repeat(steps + [Crash], n)).log, id)
         == DryRuns(m.log, id) + n * (DryRuns(Run(py, m, steps).log, id) - DryRuns(m.log, id))
    decreases n
  {
    if n > 0 {
      var tick := Run(py, m, steps);
      FileStays(py, m, steps);
      RunAppend(py, m, steps, [Crash]);
      var crashed := Run(py, m, steps + [Crash]);
      assert Run(py, tick, [Crash]) == Run(py, Next(py, tick, Crash), []);
      assert crashed == m.(log := tick.log);
      RunAppend(py, m, steps + [Crash], Repeat(steps + [Crash], n - 1));
      CrashesRepeatDryRuns(py, crashed, steps, id, n - 1);
      RunIgnoresTheLog(py, m, tick.log, steps, id);
      var grown := DryRuns(tick.log, id) - DryRuns(m.log, id);
      assert n * grown == grown + (n - 1) * grown;
    }
  }
}
