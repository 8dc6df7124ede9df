/** What stands before every exchange call: a save of the latched rule, and
    answers of the world that let it through. */
module ProtocolCalls {
  import opened Prelude
  import opened Models
  import opened Json
  import opened DaemonState
  import opened Submission
  import opened Tick
  import opened Protocol
  import opened ProtocolSafety
  import opened ProtocolTrails

  // ---------------------------------------------------------------------
  // When a step calls
  // ---------------------------------------------------------------------

  /** The step is a submission that the world's answers and memory's switch let
      through, of an exit of rule `id`. */
  predicate SubmitsFor(m: Machine, step: Step, id: string) {
    && m.memory.Some? && step.Submit? && m.memory.value.pc.AtSubmit?
    && var memory, exit := m.memory.value, m.memory.value.pc.exit;
    && exit.ruleId == id && Known(memory.state, id)
    && !step.world.reply.AttemptNotLogged?
    && Submits(exit, memory.state.rules[id], memory.config, step.world, memory.state.killSwitch)
  }

  lemma DecisionCallsExactlyWhen(memory: Memory, log: Log, exit: TriggeredExit, rule: Rule, context: Option<Readiness>,
                                 reasons: seq<Reason>, world: World, id: string)
    requires exit.ruleId in memory.state.runtimes
    ensures Calls(AfterDecision(memory, log, exit, rule, context, reasons, world).1, id) == Calls(log, id) +
      if reasons == [] && context.Some? && !world.reply.AttemptNotLogged? && id == exit.ruleId then 1 else 0
  {
  }

  lemma SubmitCallsExactlyWhen(py: Python, memory: Memory, log: Log, world: World, id: string)
    requires memory.pc.AtSubmit? && Known(memory.state, memory.pc.exit.ruleId)
    ensures var exit := memory.pc.exit;
      Calls(AfterSubmit(py, memory, log, world).1, id) == Calls(log, id) +
        if && id == exit.ruleId && !world.reply.AttemptNotLogged?
           && Submits(exit, memory.state.rules[exit.ruleId], memory.config, world, memory.state.killSwitch)
        then 1 else 0
  {
    var exit, s := memory.pc.exit, memory.state;
    var rule, observed := s.rules[exit.ruleId], exit.ruleId in s.observedIds;
    var context := ContextFor(world.context, s.killSwitch, observed);
    var reasons := BlockedReasons(exit, rule, memory.config, context, world.hasKey, world.now);
    BlockedIffNotAllowed(exit, rule, memory.config, context, world.hasKey, world.now);
    AnswerDecides(exit, rule, memory.config, world, s.killSwitch, observed);
    DecisionCallsExactlyWhen(memory, log, exit, rule, context, reasons, world, id);
  }

  /** In any state, a step calls the exchange for a rule exactly when it is a
      submission for it that the factory's own answer - its phrase, market,
      observed mark, available switch and dry-run evidence - the key store, the
      clock, the start-up options and memory's switch let through. */
  lemma StepCallsExactlyWhen(py: Python, m: Machine, step: Step, id: string)
    ensures Calls(Next(py, m, step).log, id) == Calls(m.log, id) + if SubmitsFor(m, step, id) then 1 else 0
  {
    if m.memory.None? || !step.Submit? {
      OtherStepsCallNothing(py, m, step, id);
    } else if m.memory.value.pc.AtSubmit? && Known(m.memory.value.state, m.memory.value.pc.exit.ruleId) {
      SubmitCallsExactlyWhen(py, m.memory.value, m.log, step.world, id);
    }
  }

  // ---------------------------------------------------------------------
  // The file and the log
  // ---------------------------------------------------------------------

  function LastSaved(log: Log): State {
    match log
    case Start => EMPTY_STATE
    case Then(past, last) => if last.StateSaved? then last.state else LastSaved(past)
  }

  lemma WorkSavesNothing(py: Python, memory: Memory, log: Log, step: Step)
    requires IsWork(step)
    ensures LastSaved(Worked(py, memory, log, step).1) == LastSaved(log)
  {
  }

  lemma StepSavesTheFile(py: Python, m: Machine, step: Step)
    requires m.disk == LastSaved(m.log)
    ensures Next(py, m, step).disk == LastSaved(Next(py, m, step).log)
  {
    if !IsOperator(step) && m.memory.Some? && IsWork(step) {
      WorkSavesNothing(py, m.memory.value, m.log, step);
    }
  }

  lemma {:induction false} RunSavesTheFile(py: Python, m: Machine, steps: seq<Step>)
    requires m.disk == LastSaved(m.log)
    ensures Run(py, m, steps).disk == LastSaved(Run(py, m, steps).log)
    decreases |steps|
  {
    if steps != [] {
      StepSavesTheFile(py, m, steps[0]);
      RunSavesTheFile(py, Next(py, m, steps[0]), steps[1..]);
    }
  }

  /** In every run the file is what the log last saw saved: no step writes it
      behind the log's back. */
  lemma FileIsLastSave(py: Python, steps: seq<Step>)
    ensures Run(py, INITIAL, steps).disk == LastSaved(Run(py, INITIAL, steps).log)
  {
    RunSavesTheFile(py, INITIAL, steps);
  }

  // ---------------------------------------------------------------------
  // The write-ahead save
  // ---------------------------------------------------------------------

  /** What operator commands add to the log. */
  predicate IsCommandEvent(event: Event) {
    || event.RuleCreated? || event.RuleDisabled? || event.RulePromoted? || event.RuleReset?
    || event.KillSwitchSet? || event.StateSaved?
  }

  /** The state holds the exit's rule latched, at the exit's stop. */
  predicate HoldsLatched(state: State, exit: TriggeredExit) {
    && StopIsOf(state.runtimes, exit) && state.runtimes[exit.ruleId].triggered
  }

  /** A save that holds the exit's rule latched, with nothing but commands since. */
  predicate SavedFor(log: Log, exit: TriggeredExit) {
    match log
    case Start => false
    case Then(past, last) =>
      || (last.StateSaved? && HoldsLatched(last.state, exit))
      || (IsCommandEvent(last) && SavedFor(past, exit))
  }

  predicate AllCallsSavedFirst(log: Log) {
    match log
    case Start => true
    case Then(past, last) => AllCallsSavedFirst(past) && (last.ExchangeCalled? ==> SavedFor(past, last.exit))
  }

  predicate SavesOk(m: Machine) {
    && AllCallsSavedFirst(m.log)
    && (m.memory.Some? && m.memory.value.pc.AtSubmit? ==> SavedFor(m.log, m.memory.value.pc.exit))
  }

  lemma CommandKeepsSaves(py: Python, m: Machine, step: Step)
    requires SavesOk(m) && IsOperator(step)
    ensures SavesOk(Next(py, m, step))
  {
    if Command(m.disk, step).Some? {
      var (after, event) := Command(m.disk, step).value;
      var saved := Then(m.log, StateSaved(after));
      assert IsCommandEvent(event) && !event.ExchangeCalled?;
      assert AllCallsSavedFirst(saved);
      if m.memory.Some? && m.memory.value.pc.AtSubmit? {
        assert SavedFor(saved, m.memory.value.pc.exit);
      }
    }
  }

  lemma DecisionKeepsSaves(memory: Memory, log: Log, exit: TriggeredExit, rule: Rule, context: Option<Readiness>,
                           reasons: seq<Reason>, world: World)
    requires AllCallsSavedFirst(log) && SavedFor(log, exit) && exit.ruleId in memory.state.runtimes
    ensures AllCallsSavedFirst(AfterDecision(memory, log, exit, rule, context, reasons, world).1)
    ensures !AfterDecision(memory, log, exit, rule, context, reasons, world).0.pc.AtSubmit?
  {
  }

  lemma SubmitKeepsSaves(py: Python, memory: Memory, log: Log, world: World)
    requires AllCallsSavedFirst(log) && (memory.pc.AtSubmit? ==> SavedFor(log, memory.pc.exit))
    ensures var (after, logged) := AfterSubmit(py, memory, log, world);
      && AllCallsSavedFirst(logged)
      && (after.pc.AtSubmit? ==> SavedFor(logged, after.pc.exit))
  {
    if memory.pc.AtSubmit? && Known(memory.state, memory.pc.exit.ruleId) {
      var exit, s := memory.pc.exit, memory.state;
      var rule := s.rules[exit.ruleId];
      var context := ContextFor(world.context, s.killSwitch, exit.ruleId in s.observedIds);
      var reasons := BlockedReasons(exit, rule, memory.config, context, world.hasKey, world.now);
      DecisionKeepsSaves(memory, log, exit, rule, context, reasons, world);
    }
  }

  lemma WorkKeepsSaves(py: Python, memory: Memory, log: Log, step: Step)
    requires IsWork(step) && AllCallsSavedFirst(log) && (memory.pc.AtSubmit? ==> SavedFor(log, memory.pc.exit))
    ensures var (after, logged) := Worked(py, memory, log, step);
      && AllCallsSavedFirst(logged)
      && (after.pc.AtSubmit? ==> SavedFor(logged, after.pc.exit))
  {
    if step.Submit? {
      SubmitKeepsSaves(py, memory, log, step.world);
    }
  }

  /** The write-ahead save is one that counts. */
  lemma WriteAheadSaves(py: Python, m: Machine, exit: TriggeredExit)
    requires m.memory.Some? && m.memory.value.pc == AtSave(exit) && SavesOk(m)
    requires HoldsLatched(m.memory.value.state, exit)
    ensures SavesOk(Next(py, m, WriteAhead))
  {
  }

  lemma ExitIsHeld(m: Machine, exit: TriggeredExit)
    requires Inv(m) && TrailsOk(m) && m.memory.Some? && m.memory.value.pc == AtSave(exit)
    ensures HoldsLatched(m.memory.value.state, exit)
  {
    assert ExitOk(exit, m.memory.value.state, m.memory.value.account);
  }

  lemma StepKeepsSaves(py: Python, m: Machine, step: Step)
    requires Inv(m) && TrailsOk(m) && SavesOk(m)
    ensures SavesOk(Next(py, m, step))
  {
    if IsOperator(step) {
      CommandKeepsSaves(py, m, step);
    } else if m.memory.Some? && IsWork(step) {
      WorkKeepsSaves(py, m.memory.value, m.log, step);
    } else if m.memory.Some? && step.WriteAhead? && m.memory.value.pc.AtSave? {
      ExitIsHeld(m, m.memory.value.pc.exit);
      WriteAheadSaves(py, m, m.memory.value.pc.exit);
    }
  }

  lemma {:induction false} RunKeepsSaves(py: Python, m: Machine, steps: seq<Step>)
    requires Inv(m) && TrailsOk(m) && SavesOk(m)
    ensures SavesOk(Run(py, m, steps))
    decreases |steps|
  {
    if steps != [] {
      StepKeepsInv(py, m, steps[0]);
      StepGrows(py, m, steps[0], "");
      StepKeepsSaves(py, m, steps[0]);
      RunKeepsSaves(py, Next(py, m, steps[0]), steps[1..]);
    }
  }

  /** In every run, every exchange call comes after a save of the state file that
      holds its rule latched, at the stop of that very exit, with nothing but
      operator commands in between. */
  lemma EveryCallWasSavedFirst(py: Python, steps: seq<Step>)
    ensures AllCallsSavedFirst(Run(py, INITIAL, steps).log)
  {
    RunKeepsSaves(py, INITIAL, steps);
  }
}
