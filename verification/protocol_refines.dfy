/** A tick as one function is a run of the small steps, so everything proved of
    runs holds of the daemon's own code. */
module ProtocolRefines {
  import opened Prelude
  import opened Models
  import opened Trailing
  import opened Json
  import opened DaemonState
  import opened Submission
  import opened Tick
  import opened Protocol

  lemma RunOne(py: Python, m: Machine, a: Step)
    ensures Run(py, m, [a]) == Next(py, m, a)
  {
    assert [a][1..] == [];
  }

  lemma RunTwo(py: Python, m: Machine, a: Step, b: Step)
    ensures Run(py, m, [a, b]) == Next(py, Next(py, m, a), b)
  {
    assert [a, b][1..] == [b];
    RunOne(py, Next(py, m, a), b);
  }

  lemma RunThree(py: Python, m: Machine, a: Step, b: Step, c: Step)
    ensures Run(py, m, [a, b, c]) == Next(py, Next(py, Next(py, m, a), b), c)
  {
    assert [a, b, c][1..] == [b, c];
    RunTwo(py, Next(py, m, a), b, c);
  }

  /** The state a tick works on, at a given place. */
  function At(config: Config, account: Account, s: State, todo: seq<string>, pc: Pc): Option<Memory> {
    Some(Memory(config, account, s, todo, pc))
  }

  /** Deciding, calling and recording are together what `handle` does. */
  lemma DecisionAndReplyAreHandle(py: Python, memory: Memory, log: Log, exit: TriggeredExit, rule: Rule, world: World)
    requires memory.pc == AtSubmit(exit) && Known(memory.state, exit.ruleId)
    requires exit.executionMode == AutoSubmit && rule == memory.state.rules[exit.ruleId]
    ensures var context := ContextFor(world.context, memory.state.killSwitch, exit.ruleId in memory.state.observedIds);
      var (outcome, after) := Handled(py, log, memory.config, memory.account, exit, rule, context, world);
      var (submitted, between) := AfterSubmit(py, memory, log, world);
      AfterReply(py, submitted, between)
        == (memory.(state := SettleRule(memory.state, exit.ruleId, outcome), pc := AtRules), after)
  {
    var context := ContextFor(world.context, memory.state.killSwitch, exit.ruleId in memory.state.observedIds);
    var reasons := BlockedReasons(exit, rule, memory.config, context, world.hasKey, world.now);
    DecisionThenReply(py, memory, log, exit, rule, context, reasons, world);
  }

  lemma DecisionThenReply(py: Python, memory: Memory, log: Log, exit: TriggeredExit, rule: Rule,
                          context: Option<Readiness>,
                          reasons: seq<Reason>, world: World)
    requires memory.pc == AtSubmit(exit) && Known(memory.state, exit.ruleId)
    requires exit.executionMode == AutoSubmit
    requires reasons == BlockedReasons(exit, rule, memory.config, context, world.hasKey, world.now)
    ensures var (outcome, after) := Handled(py, log, memory.config, memory.account, exit, rule, context, world);
      var (submitted, between) := AfterDecision(memory, log, exit, rule, context, reasons, world);
      AfterReply(py, submitted, between)
        == (memory.(state := SettleRule(memory.state, exit.ruleId, outcome), pc := AtRules), after)
  {
  }

  /** The three steps after a live exit fired. */
  lemma LiveExitIsARun(py: Python, m: Machine, exit: TriggeredExit, world: World)
    requires m.memory.Some? && m.memory.value.pc == AtSave(exit) && exit.executionMode == AutoSubmit
    requires Known(m.memory.value.state, exit.ruleId)
    requires m.disk.killSwitch == m.memory.value.state.killSwitch
    ensures var memory := m.memory.value;
      var context := ContextFor(world.context, memory.state.killSwitch, exit.ruleId in memory.state.observedIds);
      var (outcome, after) := Handled(py, Then(m.log, StateSaved(memory.state)), memory.config, memory.account, exit,
                                      memory.state.rules[exit.ruleId], context, world);
      Run(py, m, [WriteAhead, Submit(world), RecordReply])
        == Machine(memory.state,
                   Some(memory.(state := SettleRule(memory.state, exit.ruleId, outcome), pc := AtRules)), after)
  {
    RunThree(py, m, WriteAhead, Submit(world), RecordReply);
    var saved := Next(py, m, WriteAhead);
    assert Merged(m.memory.value.state, m.disk) == m.memory.value.state;
    var rule := saved.memory.value.state.rules[exit.ruleId];
    DecisionAndReplyAreHandle(py, saved.memory.value, saved.log, exit, rule, world);
  }

  /** Steps that find nothing to do between two rules. */
  lemma NothingToSubmit(py: Python, m: Machine, world: World)
    requires m.memory.Some? && m.memory.value.pc == AtRules
    ensures Run(py, m, [WriteAhead, Submit(world), RecordReply]) == m
  {
    RunThree(py, m, WriteAhead, Submit(world), RecordReply);
  }

  function RuleSteps(inputs: RuleInputs): seq<Step> {
    [TakeRule, TakeMark(inputs.mark)] + [WriteAhead, Submit(inputs.world), RecordReply]
  }

  lemma TakingSizes(memory: Memory, id: string)
    requires Known(memory.state, id) && memory.pc == AtRules && memory.todo != [] && memory.todo[0] == id
    requires memory.state.rules[id].status == Active
    ensures AfterTakeRule(memory)
         == memory.(todo := memory.todo[1..], pc := AtMark(id), state := SizedState(memory.state, id, memory.account))
  {
    EnsureKnownRule(memory.state, memory.state.rules[id]);
  }

  /** Settling in the state is settling the record. */
  lemma SettlingIsLocal(s: State, id: string, outcome: Outcome)
    requires Known(s, id)
    ensures var runtime := Settled(s.runtimes[id], outcome);
      SettleRule(s, id, outcome) == s.(rules := s.rules[id := runtime.rule], runtimes := s.runtimes[id := runtime])
  {
    SettledKeepsRule(s.runtimes[id], outcome);
    assert s.rules[id := s.rules[id]] == s.rules;
  }

  lemma ObservingIsLocal(s: State, id: string, w: WindowSize, account: Account, tick: PriceTick)
    requires Known(s, id)
    ensures var (t, exit) := ObserveRule(SizedState(s, id, account), id, w, tick);
      && t == MarkedState(s, id, w, account, tick)
      && exit == Observed(SizedRuntime(s, id, account), w, tick).1
      && Known(t, id) && t.rules == s.rules && id in t.observedIds
      && t.runtimes[id] == Observed(SizedRuntime(s, id, account), w, tick).0
      && (exit.Some? ==> exit.value.ruleId == id && exit.value.executionMode == s.rules[id].executionMode)
  {
    var sized := SizedState(s, id, account);
    var runtime := Observed(SizedRuntime(s, id, account), w, tick).0;
    assert sized.runtimes[id := runtime] == s.runtimes[id := runtime];
  }

  /** What a pass writes when the mark reaches the engine and fires. */
  lemma PassAfterExit(py: Python, config: Config, account: Account, s: State, log: Log, id: string, inputs: RuleInputs)
    requires Known(s, id) && s.rules[id].status == Active
    requires UsableMark(s.rules[id], inputs.mark).Some?
    requires Observed(SizedRuntime(s, id, account), config.window, UsableMark(s.rules[id], inputs.mark).value).1.Some?
    ensures var mark := UsableMark(s.rules[id], inputs.mark).value;
      var t := MarkedState(s, id, config.window, account, mark);
      var exit := Observed(SizedRuntime(s, id, account), config.window, mark).1.value;
      var context := ContextFor(inputs.world.context, s.killSwitch, true);
      var saved := SavedAhead(config, account, s, log, id, inputs);
      var (outcome, after) := Handled(py, saved, config, account, exit, s.rules[id], context, inputs.world);
      var runtime := Settled(t.runtimes[id], outcome);
      && saved == (if s.rules[id].executionMode == AutoSubmit then Then(log, StateSaved(t)) else log)
      && ProcessRule(py, config, account, s, log, id, inputs)
        == (t.(rules := t.rules[id := runtime.rule], runtimes := t.runtimes[id := runtime]), after)
  {
    var mark := UsableMark(s.rules[id], inputs.mark).value;
    var t := MarkedState(s, id, config.window, account, mark);
    var exit := Observed(SizedRuntime(s, id, account), config.window, mark).1.value;
    var context := ContextFor(inputs.world.context, s.killSwitch, true);
    var saved := SavedAhead(config, account, s, log, id, inputs);
    var outcome := Handled(py, saved, config, account, exit, s.rules[id], context, inputs.world).0;
    var runtime := Settled(t.runtimes[id], outcome);
    assert t.runtimes[id := runtime] == s.runtimes[id := runtime];
  }

  lemma PassWithoutExit(py: Python, config: Config, account: Account, s: State, log: Log, id: string,
                        inputs: RuleInputs)
    requires Known(s, id) && s.rules[id].status == Active
    ensures UsableMark(s.rules[id], inputs.mark).None? ==>
      ProcessRule(py, config, account, s, log, id, inputs) == (SizedState(s, id, account), log)
    ensures UsableMark(s.rules[id], inputs.mark).Some? ==>
      var mark := UsableMark(s.rules[id], inputs.mark).value;
      Observed(SizedRuntime(s, id, account), config.window, mark).1.None? ==>
        ProcessRule(py, config, account, s, log, id, inputs) == (MarkedState(s, id, config.window, account, mark), log)
  {
    assert s.rules[id := s.rules[id]] == s.rules;
  }

  /** After the first two steps. */
  lemma TakenAndMarked(py: Python, m: Machine, id: string, mark: Option<PriceTick>)
    requires m.memory.Some? && m.memory.value.pc == AtRules && m.memory.value.todo != [] && m.memory.value.todo[0] == id
    requires Known(m.memory.value.state, id) && m.memory.value.state.rules[id].status == Active
    ensures var memory := m.memory.value;
      var s, w, account := memory.state, memory.config.window, memory.account;
      var taken := memory.(todo := memory.todo[1..], pc := AtMark(id), state := SizedState(s, id, account));
      var usable := UsableMark(s.rules[id], mark);
      Run(py, m, [TakeRule, TakeMark(mark)]) ==
        if usable.None? then m.(memory := Some(taken.(pc := AtRules)))
        else
          var exit := Observed(SizedRuntime(s, id, account), w, usable.value).1;
          var (after, log) := AfterObservation(taken, m.log, MarkedState(s, id, w, account, usable.value), exit);
          m.(memory := Some(after), log := log)
  {
    var memory := m.memory.value;
    RunTwo(py, m, TakeRule, TakeMark(mark));
    TakingSizes(memory, id);
    var usable := UsableMark(memory.state.rules[id], mark);
    if usable.Some? {
      ObservingIsLocal(memory.state, id, memory.config.window, memory.account, usable.value);
    }
  }

  /** The machine that a pass leads to. */
  predicate ReachedBy(end: Machine, config: Config, account: Account, result: (State, Log), rest: seq<string>) {
    && end == Machine(end.disk, At(config, account, result.0, rest, AtRules), result.1)
    && end.disk.killSwitch == result.0.killSwitch
  }

  /** A pass whose mark does not reach the engine, or does not fire. */
  lemma QuietPassIsARun(py: Python, m: Machine, config: Config, account: Account, s: State, id: string,
                        rest: seq<string>,
                        inputs: RuleInputs)
    requires m.memory == At(config, account, s, [id] + rest, AtRules) && m.disk.killSwitch == s.killSwitch
    requires Known(s, id) && s.rules[id].status == Active
    requires var usable := UsableMark(s.rules[id], inputs.mark);
      usable.None? || Observed(SizedRuntime(s, id, account), config.window, usable.value).1.None?
    ensures ReachedBy(Run(py, m, RuleSteps(inputs)), config, account,
                      ProcessRule(py, config, account, s, m.log, id, inputs), rest)
  {
    assert ([id] + rest)[1..] == rest;
    RunAppend(py, m, [TakeRule, TakeMark(inputs.mark)], [WriteAhead, Submit(inputs.world), RecordReply]);
    TakenAndMarked(py, m, id, inputs.mark);
    PassWithoutExit(py, config, account, s, m.log, id, inputs);
    NothingToSubmit(py, Run(py, m, [TakeRule, TakeMark(inputs.mark)]), inputs.world);
  }

  lemma SkippedPassIsARun(py: Python, m: Machine, config: Config, account: Account, s: State, id: string,
                          rest: seq<string>,
                          inputs: RuleInputs)
    requires m.memory == At(config, account, s, [id] + rest, AtRules) && m.disk.killSwitch == s.killSwitch
    requires Known(s, id) && s.rules[id].status == Disabled
    ensures ReachedBy(Run(py, m, RuleSteps(inputs)), config, account,
                      ProcessRule(py, config, account, s, m.log, id, inputs), rest)
  {
    assert ([id] + rest)[1..] == rest;
    RunAppend(py, m, [TakeRule, TakeMark(inputs.mark)], [WriteAhead, Submit(inputs.world), RecordReply]);
    RunTwo(py, m, TakeRule, TakeMark(inputs.mark));
    NothingToSubmit(py, Run(py, m, [TakeRule, TakeMark(inputs.mark)]), inputs.world);
  }

  lemma FiringPassIsARun(py: Python, m: Machine, config: Config, account: Account, s: State, id: string,
                         rest: seq<string>,
                         inputs: RuleInputs)
    requires m.memory == At(config, account, s, [id] + rest, AtRules) && m.disk.killSwitch == s.killSwitch
    requires Known(s, id) && s.rules[id].status == Active
    requires UsableMark(s.rules[id], inputs.mark).Some?
    requires Observed(SizedRuntime(s, id, account), config.window, UsableMark(s.rules[id], inputs.mark).value).1.Some?
    ensures ReachedBy(Run(py, m, RuleSteps(inputs)), config, account,
                      ProcessRule(py, config, account, s, m.log, id, inputs), rest)
  {
    assert ([id] + rest)[1..] == rest;
    var two := Run(py, m, [TakeRule, TakeMark(inputs.mark)]);
    var mark := UsableMark(s.rules[id], inputs.mark).value;
    var exit := Observed(SizedRuntime(s, id, account), config.window, mark).1.value;
    var t := MarkedState(s, id, config.window, account, mark);
    RunAppend(py, m, [TakeRule, TakeMark(inputs.mark)], [WriteAhead, Submit(inputs.world), RecordReply]);
    TakenAndMarked(py, m, id, inputs.mark);
    ObservingIsLocal(s, id, config.window, account, mark);
    PassAfterExit(py, config, account, s, m.log, id, inputs);
    ExitIsARun(py, two, config, account, t, id, rest, exit, m.log, inputs.world);
  }

  /** One pass of the loop is the run of its five steps. */
  lemma PassIsARun(py: Python, m: Machine, config: Config, account: Account, s: State, id: string, rest: seq<string>,
                   inputs: RuleInputs)
    requires m.memory == At(config, account, s, [id] + rest, AtRules) && m.disk.killSwitch == s.killSwitch
    requires Known(s, id)
    ensures ReachedBy(Run(py, m, RuleSteps(inputs)), config, account,
                      ProcessRule(py, config, account, s, m.log, id, inputs), rest)
  {
    var usable := UsableMark(s.rules[id], inputs.mark);
    if s.rules[id].status == Disabled {
      SkippedPassIsARun(py, m, config, account, s, id, rest, inputs);
    } else if usable.Some? && Observed(SizedRuntime(s, id, account), config.window, usable.value).1.Some? {
      FiringPassIsARun(py, m, config, account, s, id, rest, inputs);
    } else {
      QuietPassIsARun(py, m, config, account, s, id, rest, inputs);
    }
  }

  lemma ExitIsARun(py: Python, two: Machine, config: Config, account: Account, t: State, id: string, rest: seq<string>,
                   exit: TriggeredExit, log: Log, world: World)
    requires Known(t, id) && exit.ruleId == id && id in t.observedIds
    requires exit.executionMode == t.rules[id].executionMode && two.disk.killSwitch == t.killSwitch
    requires var (after, log') := AfterObservation(Memory(config, account, t, rest, AtMark(id)), log, t, Some(exit));
      two == Machine(two.disk, Some(after), log')
    ensures var context := ContextFor(world.context, t.killSwitch, true);
      var saved := if exit.executionMode == AutoSubmit then Then(log, StateSaved(t)) else log;
      var (outcome, after) := Handled(py, saved, config, account, exit, t.rules[id], context, world);
      var runtime := Settled(t.runtimes[id], outcome);
      var end := Run(py, two, [WriteAhead, Submit(world), RecordReply]);
      && end == Machine(end.disk, At(config, account, t.(rules := t.rules[id := runtime.rule],
                                                         runtimes := t.runtimes[id := runtime]), rest, AtRules), after)
      && end.disk.killSwitch == t.killSwitch
  {
    if exit.executionMode == DryRun {
      NothingToSubmit(py, two, world);
      assert t.rules[id := t.rules[id]] == t.rules && t.runtimes[id := t.runtimes[id]] == t.runtimes;
    } else {
      LiveExitIsARun(py, two, exit, world);
      var context := ContextFor(world.context, t.killSwitch, true);
      var saved := Then(log, StateSaved(t));
      SettlingIsLocal(t, id, Handled(py, saved, config, account, exit, t.rules[id], context, world).0);
    }
  }

  function LoopSteps(ids: seq<string>, inputs: string -> RuleInputs): seq<Step> {
    if ids == [] then [] else LoopSteps(ids[..|ids| - 1], inputs) + RuleSteps(inputs(ids[|ids| - 1]))
  }

  lemma NextPassIsARun(py: Python, config: Config, account: Account, s: State, log: Log, i: nat,
                       inputs: string -> RuleInputs, reached: Machine)
    requires Coherent(s) && i < |s.order|
    requires ReachedBy(reached, config, account,
                       Loop(PassOf(py, config, account, inputs), s, log, s.order[..i]), s.order[i..])
    ensures ReachedBy(Run(py, reached, RuleSteps(inputs(s.order[i]))), config, account,
                      Loop(PassOf(py, config, account, inputs), s, log, s.order[..i + 1]), s.order[i + 1..])
  {
    PassesTouchOneRecord(py, config, account, inputs);
    LoopReaches(PassOf(py, config, account, inputs), s, log, i);
    LoopGoesOn(PassOf(py, config, account, inputs), s, log, s.order, i);
    assert s.order[i..] == [s.order[i]] + s.order[i + 1..];
    var (t, before) := Loop(PassOf(py, config, account, inputs), s, log, s.order[..i]);
    PassIsARun(py, reached, config, account, t, s.order[i], s.order[i + 1..], inputs(s.order[i]));
  }

  lemma {:induction false} LoopIsARun(py: Python, config: Config, account: Account, s: State, log: Log, n: nat,
                                      inputs: string -> RuleInputs)
    requires Coherent(s) && n <= |s.order|
    ensures ReachedBy(Run(py, Machine(s, At(config, account, s, s.order, AtRules), log),
                          LoopSteps(s.order[..n], inputs)),
                      config, account, Loop(PassOf(py, config, account, inputs), s, log, s.order[..n]), s.order[n..])
  {
    var m := Machine(s, At(config, account, s, s.order, AtRules), log);
    if n == 0 {
      assert s.order[..0] == [] && s.order[0..] == s.order;
    } else {
      var before := LoopSteps(s.order[..n - 1], inputs);
      LoopIsARun(py, config, account, s, log, n - 1, inputs);
      assert s.order[..n][..n - 1] == s.order[..n - 1];
      RunAppend(py, m, before, RuleSteps(inputs(s.order[n - 1])));
      NextPassIsARun(py, config, account, s, log, n - 1, inputs, Run(py, m, before));
    }
  }

  function TickSteps(config: Config, s: State, inputs: TickInputs): seq<Step> {
    match inputs.account
    case None => []
    case Some(account) => [LoadState(config, account)] + LoopSteps(s.order, inputs.rules) + [SaveState]
  }

  /** A whole undisturbed tick - which is what `RunOnce` computes - is a run of
      small steps between two idle machines. */
  lemma TickIsARun(py: Python, config: Config, s: State, log: Log, inputs: TickInputs)
    requires Coherent(s)
    ensures var (t, after) := TickResult(py, config, s, log, inputs);
      Run(py, Machine(s, None, log), TickSteps(config, s, inputs)) == Machine(t, None, after)
  {
    if inputs.account.Some? {
      var account := inputs.account.value;
      var start := Machine(s, None, log);
      var load := [LoadState(config, account)];
      var loop := LoopSteps(s.order, inputs.rules);
      RunOne(py, start, load[0]);
      RunAppend(py, start, load, loop);
      RunAppend(py, start, load + loop, [SaveState]);
      LoopIsARun(py, config, account, s, log, |s.order|, inputs.rules);
      assert s.order[..|s.order|] == s.order && s.order[|s.order|..] == [];
      var t := Loop(PassOf(py, config, account, inputs.rules), s, log, s.order).0;
      assert Run(py, start, load + loop).disk.killSwitch == t.killSwitch;
      assert Merged(t, Run(py, start, load + loop).disk) == t;
      RunOne(py, Run(py, start, load + loop), SaveState);
    } else {
      assert TickSteps(config, s, inputs) == [];
    }
  }
}
