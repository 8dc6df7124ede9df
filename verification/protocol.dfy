/** The daemon and its operators as interleaved small steps over one state
    file. A step that is not enabled changes nothing, so every list of steps
    is a run. */
module Protocol {
  import opened Prelude
  import opened Models
  import opened Trailing
  import opened Json
  import opened DaemonState
  import opened Fills
  import opened Submission
  import opened Tick

  /** Where the daemon is inside a tick. */
  datatype Pc =
    | AtRules                                    // between two rules
    | AtMark(id: string)                         // the rule is sized, its mark is next
    | AtSave(exit: TriggeredExit)                // a live exit fired, the write-ahead save is next
    | AtSubmit(exit: TriggeredExit)              // saved, the policy is next
    | AtReply(exit: TriggeredExit, reply: Reply) // the exchange was called, recording is next

  datatype Memory = Memory(config: Config, account: Account, state: State, todo: seq<string>, pc: Pc)

  /** `disk` is what the state file decodes to; no `memory` means that no tick
      is running. */
  datatype Machine = Machine(disk: State, memory: Option<Memory>, log: Log)

  datatype Step =
    | LoadState(config: Config, account: Account)
    | LoadForHealth(config: Config, health: Health)
    | TakeRule
    | TakeMark(mark: Option<PriceTick>)
    | WriteAhead
    | Submit(world: World)
    | RecordReply
    | SaveState
    | Crash
    | CreateRule(request: Rule, newId: string)
    | DisableRule(id: string)
    | PromoteRule(id: string)
    | ResetRule(id: string, reason: string, positions: seq<Position>)
    | SetKillSwitch(active: bool)

  const INITIAL := Machine(EMPTY_STATE, None, Start)

  // ---------------------------------------------------------------------
  // Operator commands: one atomic read-modify-write of the file each
  // ---------------------------------------------------------------------

  /** The rule that create-trailing builds from the command line. */
  function Requested(request: Rule, newId: string): Result<Rule> {
    MakeRule(request.(id := newId, exitOrderType := Market, status := Active, liveStatus := NotLive), newId)
  }

  function OpenPosition(rule: Rule, positions: seq<Position>): Option<Position> {
    if positions == [] then None
    else if positions[0].coin == rule.coin && positions[0].side == rule.side && positions[0].size > 0.0
    then Some(positions[0])
    else OpenPosition(rule, positions[1..])
  }

  predicate Blank(reason: string) {
    forall i :: 0 <= i < |reason| ==> reason[i] in " \t\n\r\U{0B}\U{0C}\U{1C}\U{1D}\U{1E}\U{1F}"
  }

  /** The record that reset-triggered writes. */
  function ResetRecord(runtime: Runtime, position: Position): Runtime {
    var rule := if runtime.rule.executionMode == AutoSubmit
                then WithLiveStatus(runtime.rule, CanaryPending) else runtime.rule;
    runtime.(rule := rule, triggered := false, protectedSize := Min(runtime.rule.size, position.size))
  }

  function DisabledRecord(runtime: Runtime): Runtime {
    runtime.(rule := runtime.rule.(status := Disabled))
  }

  function PromotedRecord(runtime: Runtime): Runtime {
    runtime.(rule := WithLiveStatus(runtime.rule, NormalLive))
  }

  predicate IsOperator(step: Step) {
    step.CreateRule? || step.DisableRule? || step.PromoteRule? || step.ResetRule? || step.SetKillSwitch?
  }

  /** The new file and the logged event, when the command succeeds. */
  function Command(disk: State, step: Step): Option<(State, Event)>
    requires IsOperator(step)
  {
    match step
    case CreateRule(request, newId) =>
      var made := Requested(request, newId);
      if newId == "" || newId in disk.rules || made.Failure? then None
      else Some((EnsureRule(disk, made.value), RuleCreated(newId)))
    case DisableRule(id) =>
      if !Known(disk, id) then None
      else
        var runtime := DisabledRecord(disk.runtimes[id]);
        Some((PutRecord(disk, runtime.rule, runtime), RuleDisabled(id)))
    case PromoteRule(id) =>
      if !Known(disk, id) || disk.rules[id].liveStatus != CanarySucceeded then None
      else
        var runtime := PromotedRecord(disk.runtimes[id]);
        Some((PutRecord(disk, runtime.rule, runtime), RulePromoted(id)))
    case ResetRule(id, reason, positions) =>
      if Blank(reason) || !Known(disk, id) || OpenPosition(disk.rules[id], positions).None? then None
      else
        var runtime := ResetRecord(disk.runtimes[id], OpenPosition(disk.rules[id], positions).value);
        Some((PutRecord(disk, runtime.rule, runtime), RuleReset(id)))
    case SetKillSwitch(active) => Some((disk.(killSwitch := active), KillSwitchSet(active)))
  }

  /** The file and the log after one command, whether or not it succeeds. */
  function Commanded(disk: State, log: Log, step: Step): (State, Log)
    requires IsOperator(step)
  {
    match Command(disk, step)
    case None => (disk, log)
    case Some((after, event)) => (after, Then(Then(log, StateSaved(after)), event))
  }

  // ---------------------------------------------------------------------
  // Daemon steps
  // ---------------------------------------------------------------------

  /** `save_preserving_active_kill_switch` */
  function Merged(state: State, disk: State): State {
    state.(killSwitch := state.killSwitch || disk.killSwitch)
  }

  function AfterTakeRule(memory: Memory): Memory {
    if memory.pc != AtRules || memory.todo == [] || !Known(memory.state, memory.todo[0]) then memory
    else
      var id, rest := memory.todo[0], memory.todo[1..];
      var rule := memory.state.rules[id];
      if rule.status == Disabled then memory.(todo := rest)
      else
        memory.(todo := rest, pc := AtMark(id),
                state := UpdateProtected(EnsureRule(memory.state, rule), id, memory.account))
  }

  function AfterTakeMark(memory: Memory, log: Log, mark: Option<PriceTick>): (Memory, Log) {
    if !memory.pc.AtMark? || !Known(memory.state, memory.pc.id) then (memory, log)
    else
      var id := memory.pc.id;
      var usable := UsableMark(memory.state.rules[id], mark);
      if usable.None? then (memory.(pc := AtRules), log)
      else
        var (state, exit) := ObserveRule(memory.state, id, memory.config.window, usable.value);
        AfterObservation(memory, log, state, exit)
  }

  /** A dry-run exit is only logged; a live one has to be saved first. */
  function AfterObservation(memory: Memory, log: Log, state: State, exit: Option<TriggeredExit>): (Memory, Log) {
    match exit
    case None => (memory.(state := state, pc := AtRules), log)
    case Some(e) =>
      if e.executionMode == DryRun then (memory.(state := state, pc := AtRules), Then(log, DryRunExit(e)))
      else (memory.(state := state, pc := AtSave(e)), log)
  }

  function AfterSubmit(py: Python, memory: Memory, log: Log, world: World): (Memory, Log) {
    if !memory.pc.AtSubmit? || !Known(memory.state, memory.pc.exit.ruleId) then (memory, log)
    else
      var exit := memory.pc.exit;
      var rule := memory.state.rules[exit.ruleId];
      var context := ContextFor(world.context, memory.state.killSwitch, exit.ruleId in memory.state.observedIds);
      var reasons := BlockedReasons(exit, rule, memory.config, context, world.hasKey, world.now);
      AfterDecision(memory, log, exit, rule, context, reasons, world)
  }

  /** Blocked with reasons, failed before the call, or called. */
  function AfterDecision(memory: Memory, log: Log, exit: TriggeredExit, rule: Rule, context: Option<Readiness>,
                         reasons: seq<Reason>, world: World): (Memory, Log)
    requires exit.ruleId in memory.state.runtimes
  {
    if reasons != [] || context.None? then
      (memory.(state := SettleRule(memory.state, exit.ruleId, LiveBlocked), pc := AtRules),
       Then(log, SubmissionBlocked(exit, reasons)))
    else if world.reply.AttemptNotLogged? then
      (memory.(state := SettleRule(memory.state, exit.ruleId, LiveFailed), pc := AtRules),
       Then(log, SubmissionFailed(exit.ruleId)))
    else
      (memory.(pc := AtReply(exit, world.reply)),
       Then(log, ExchangeCalled(exit, rule, memory.account, memory.config, context.value, world.now)))
  }

  function AfterReply(py: Python, memory: Memory, log: Log): (Memory, Log) {
    if !memory.pc.AtReply? || !Known(memory.state, memory.pc.exit.ruleId) then (memory, log)
    else
      var id, outcome := memory.pc.exit.ruleId, OutcomeOf(py, memory.pc.reply);
      (memory.(state := SettleRule(memory.state, id, outcome), pc := AtRules),
       Then(log, if outcome == LiveSubmitted then SubmissionSucceeded(id) else SubmissionFailed(id)))
  }

  /** Steps of a running tick that leave the file alone. */
  predicate IsWork(step: Step) {
    step.TakeRule? || step.TakeMark? || step.Submit? || step.RecordReply?
  }

  function Worked(py: Python, memory: Memory, log: Log, step: Step): (Memory, Log)
    requires IsWork(step)
  {
    match step
    case TakeRule => (AfterTakeRule(memory), log)
    case TakeMark(mark) => AfterTakeMark(memory, log, mark)
    case Submit(world) => AfterSubmit(py, memory, log, world)
    case RecordReply => AfterReply(py, memory, log)
  }

  /** A process that starts: for a tick, or to note its health. */
  function Loaded(m: Machine, step: Step): Machine {
    match step
    case LoadState(config, account) =>
      m.(memory := Some(Memory(config, account, m.disk, m.disk.order, AtRules)))
    case LoadForHealth(config, health) =>
      m.(memory := Some(Memory(config, Account([], []), m.disk.(health := health), [], AtRules)))
    case _ => m
  }

  /** Saving, finally or ahead of a submission, and crashing. */
  function Filed(m: Machine, memory: Memory, step: Step): Machine {
    match step
    case WriteAhead =>
      if !memory.pc.AtSave? then m
      else
        var merged := Merged(memory.state, m.disk);
        Machine(merged, Some(memory.(state := merged, pc := AtSubmit(memory.pc.exit))), Then(m.log, StateSaved(merged)))
    case SaveState =>
      if memory.pc != AtRules || memory.todo != [] then m
      else
        var merged := Merged(memory.state, m.disk);
        Machine(merged, None, Then(m.log, StateSaved(merged)))
    case Crash => m.(memory := None)
    case _ => m
  }

  function Next(py: Python, m: Machine, step: Step): Machine {
    if IsOperator(step) then
      var (disk, log) := Commanded(m.disk, m.log, step);
      m.(disk := disk, log := log)
    else if m.memory.None? then Loaded(m, step)
    else if IsWork(step) then
      var (memory, log) := Worked(py, m.memory.value, m.log, step);
      m.(memory := Some(memory), log := log)
    else Filed(m, m.memory.value, step)
  }

  function Run(py: Python, m: Machine, steps: seq<Step>): Machine
    decreases |steps|
  {
    if steps == [] then m else Run(py, Next(py, m, steps[0]), steps[1..])
  }

  lemma {:induction false} RunAppend(py: Python, m: Machine, a: seq<Step>, b: seq<Step>)
    ensures Run(py, m, a + b) == Run(py, Run(py, m, a), b)
    decreases |a|
  {
    if a == [] {
      assert a + b == b;
    } else {
      assert (a + b)[0] == a[0] && (a + b)[1..] == a[1..] + b;
      RunAppend(py, Next(py, m, a[0]), a[1..], b);
    }
  }
}
