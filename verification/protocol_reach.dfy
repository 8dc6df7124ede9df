/** The safety theorems are not empty: a ready canary does reach the exchange,
    and exactly the allowed submissions do. */
module ProtocolReach {
  import opened Prelude
  import opened Models
  import opened Trailing
  import opened TrailingRuns
  import opened Json
  import opened Response
  import opened DaemonState
  import opened Fills
  import opened Submission
  import opened Tick
  import opened Protocol
  import opened ProtocolSafety
  import opened ProtocolRefines
  import opened ProtocolOperators

  /** A saved live exit is submitted exactly when the world's own answers and
      the switch let it through; it is blocked, and its latch opened in memory,
      exactly otherwise. */
  lemma SubmittedExactlyWhenAllowed(py: Python, m: Machine, world: World)
    requires m.memory.Some? && m.memory.value.pc.AtSubmit?
    requires Known(m.memory.value.state, m.memory.value.pc.exit.ruleId)
    ensures var memory, exit := m.memory.value, m.memory.value.pc.exit;
      var allowed := Submits(exit, memory.state.rules[exit.ruleId], memory.config, world, memory.state.killSwitch);
      var next := Next(py, m, Submit(world));
      && next.memory.Some?
      && (!allowed <==> next.log.last.SubmissionBlocked?)
      && (allowed && !world.reply.AttemptNotLogged? <==> next.log.last.ExchangeCalled?)
      && (next.log.last.ExchangeCalled? ==>
            && world.context.Some?
            && var passed := world.context.value.(killSwitchActive := false);
            next.log.last == ExchangeCalled(exit, memory.state.rules[exit.ruleId], memory.account, memory.config,
                                            passed, world.now))
      && (allowed && world.reply.AttemptNotLogged? <==> next.log.last == SubmissionFailed(exit.ruleId))
      && next.log.past == m.log
      && (!allowed ==> !Latched(next.memory.value.state, exit.ruleId))
      && (allowed ==> Latched(next.memory.value.state, exit.ruleId) == Latched(memory.state, exit.ruleId))
  {
    var memory, exit := m.memory.value, m.memory.value.pc.exit;
    var rule, observed := memory.state.rules[exit.ruleId], exit.ruleId in memory.state.observedIds;
    var context := ContextFor(world.context, memory.state.killSwitch, observed);
    BlockedIffNotAllowed(exit, rule, memory.config, context, world.hasKey, world.now);
    AnswerDecides(exit, rule, memory.config, world, memory.state.killSwitch, observed);
    SettlingIsLocal(memory.state, exit.ruleId, LiveBlocked);
    SettlingIsLocal(memory.state, exit.ruleId, LiveFailed);
  }

  const CANARY := Rule("r", "ETH", Long, 1.0, Absolute, 5.0, Market, AutoSubmit, Active, CanaryPending, None)

  const HOLDING := Account([Position("ETH", Long, 1.0)], [])

  const CANARY_RUN := Config(20, true, true, true, 300)

  const READY := Readiness("trader", true, true, true, false, 1, MAINNET_CONFIRMATION_PHRASE)

  function MarkAt(price: real): RuleInputs {
    RuleInputs(Some(PriceTick("ETH", price, Timestamp(0, "t"), MarkPrice)),
               World(Some(READY), true, 0, Responded([Field("status", JString("ok"))])))
  }

  function TickAt(price: real): TickInputs {
    TickInputs(Some(HOLDING), _ => MarkAt(price))
  }

  lemma CanaryAccepted(py: Python)
    ensures ExchangeResponseError(py, [Field("status", JString("ok"))]) == None
  {
    var fields := [Field("status", JString("ok"))];
    assert Lower(py, "ok") == "ok" && Lower(py, "status") == "status";
    assert fields[1..] == [];
    assert FindInFields(py, []) == None && FindResponseError(py, JString("ok")) == None;
    assert FindInFields(py, fields) == None;
    assert Get(fields, "status") == Some(JString("ok"));
    assert StatusOf(py, fields) == "ok";
  }

  /** A tick over a file with the canary as its only rule. */
  lemma OnlyRuleTick(py: Python, s: State, log: Log, price: real)
    requires s.order == ["r"] && Known(s, "r")
    ensures TickResult(py, CANARY_RUN, s, log, TickAt(price))
         == var (t, after) := ProcessRule(py, CANARY_RUN, HOLDING, s, log, "r", MarkAt(price));
            (t, Then(after, StateSaved(t)))
  {
    var pass := PassOf(py, CANARY_RUN, HOLDING, TickAt(price).rules);
    assert s.order[..|s.order| - 1] == [];
    assert Loop(pass, s, log, []) == (s, log);
    assert Loop(pass, s, log, s.order) == pass(s, log, "r");
    assert TickAt(price).rules("r") == MarkAt(price);
  }

  lemma HoldingSizes(books: Books)
    ensures Booked(CANARY, books, HOLDING).size == 1.0
  {
    assert HOLDING.positions[0] == Position("ETH", Long, 1.0);
  }

  const ANCHORED := Runtime(CANARY, 1.0, Trail(Some(100.0), Some(95.0), []), false)

  /** The first mark anchors the stop at 95. */
  lemma FirstMarkAnchors(py: Python, log: Log)
    ensures var sized := FreshRuntime(CANARY).(protectedSize := 1.0);
      RecordAfterMark(py, CANARY_RUN, HOLDING, sized, log, false, MarkAt(100.0)) == (ANCHORED, log)
  {
  }

  /** The second mark crosses it, and the exchange is called and accepts. */
  lemma SecondMarkSubmits(py: Python, log: Log)
    ensures var (runtime, after) := RecordAfterMark(py, CANARY_RUN, HOLDING, ANCHORED, log, false, MarkAt(90.0));
      && Calls(after, "r") == Calls(log, "r") + 1
      && runtime.triggered && runtime.rule == CANARY.(liveStatus := CanarySucceeded)
      && Succeeded(after, "r")
  {
    var mark := MarkAt(90.0).mark.value;
    var world := MarkAt(90.0).world;
    var (observed, exit) := Observed(ANCHORED, 20, mark);
    var context := ContextFor(world.context, false, true);
    assert exit.Some? && exit.value.ruleId == "r";
    CanaryAccepted(py);
    BlockedIffNotAllowed(exit.value, CANARY, CANARY_RUN, context, world.hasKey, world.now);
    assert MaySubmit(exit.value, CANARY, CANARY_RUN, context, world.hasKey, world.now);
  }

  lemma CreatingTheCanary(py: Python)
    ensures Requested(CANARY, "r") == Success(CANARY)
    ensures var s := EnsureRule(EMPTY_STATE, CANARY);
      && Next(py, INITIAL, CreateRule(CANARY, "r")) ==
           Machine(s, None, Then(Then(Start, StateSaved(s)), RuleCreated("r")))
      && Coherent(s) && s.order == ["r"] && !s.killSwitch
      && "r" in s.runtimes && s.runtimes["r"] == FreshRuntime(CANARY)
  {
    EnsureNewRule(EMPTY_STATE, CANARY);
  }

  lemma PromotingAfterSuccess(py: Python, s: State, log: Log)
    requires Known(s, "r") && s.rules["r"].liveStatus == CanarySucceeded && s.rules["r"].executionMode == AutoSubmit
    ensures var m := Next(py, Machine(s, None, log), PromoteRule("r"));
      && Calls(m.log, "r") == Calls(log, "r") && Resets(m.log, "r") == Resets(log, "r")
      && "r" in m.disk.rules && m.disk.rules["r"].liveStatus == NormalLive
  {
  }

  /** The first tick, as steps of the machine. */
  lemma AnchorRun(py: Python, s: State, log: Log)
    requires Coherent(s) && s.order == ["r"] && !s.killSwitch
    requires "r" in s.runtimes && s.runtimes["r"] == FreshRuntime(CANARY)
    ensures var m := Run(py, Machine(s, None, log), TickSteps(CANARY_RUN, s, TickAt(100.0)));
      && m.memory == None && Coherent(m.disk) && m.disk.order == ["r"]
      && Calls(m.log, "r") == Calls(log, "r") && Resets(m.log, "r") == Resets(log, "r")
      && "r" in m.disk.runtimes && m.disk.runtimes["r"] == ANCHORED && !m.disk.killSwitch
  {
    KnownHere(s, "r");
    TickKeepsCoherence(py, CANARY_RUN, s, log, TickAt(100.0));
    AnchorTick(py, s, log);
    TickIsARun(py, CANARY_RUN, s, log, TickAt(100.0));
  }

  /** The second one. */
  lemma SubmitRun(py: Python, s: State, log: Log)
    requires Coherent(s) && s.order == ["r"] && "r" in s.runtimes && s.runtimes["r"] == ANCHORED && !s.killSwitch
    ensures var m := Run(py, Machine(s, None, log), TickSteps(CANARY_RUN, s, TickAt(90.0)));
      && m.memory == None && Calls(m.log, "r") == Calls(log, "r") + 1 && Resets(m.log, "r") == Resets(log, "r")
      && Known(m.disk, "r") && m.disk.rules["r"] == CANARY.(liveStatus := CanarySucceeded)
  {
    KnownHere(s, "r");
    TickKeepsCoherence(py, CANARY_RUN, s, log, TickAt(90.0));
    SubmitTick(py, s, log);
    TickIsARun(py, CANARY_RUN, s, log, TickAt(90.0));
    KnownHere(TickResult(py, CANARY_RUN, s, log, TickAt(90.0)).0, "r");
  }

  /** An idle machine whose file holds nothing but the anchored canary. */
  predicate Anchored(m: Machine) {
    && m.memory.None? && Coherent(m.disk) && m.disk.order == ["r"] && !m.disk.killSwitch
    && "r" in m.disk.runtimes && m.disk.runtimes["r"] == ANCHORED
    && Calls(m.log, "r") == 0 && Resets(m.log, "r") == 0
  }

  lemma CreatedAndAnchored(py: Python) returns (steps: seq<Step>)
    ensures Anchored(Run(py, INITIAL, steps))
  {
    var create := CreateRule(CANARY, "r");
    CreatingTheCanary(py);
    var m := Next(py, INITIAL, create);
    var tick := TickSteps(CANARY_RUN, m.disk, TickAt(100.0));
    AnchorRun(py, m.disk, m.log);
    steps := [create] + tick;
    RunAppend(py, INITIAL, [create], tick);
    RunOne(py, INITIAL, create);
  }

  /** A canary that is anchored, and the steps that make it fire. */
  lemma AnAnchoredCanary(py: Python) returns (steps: seq<Step>, tick: seq<Step>)
    ensures var m := Run(py, INITIAL, steps);
      var fired := Run(py, m, tick);
      && Anchored(m)
      && fired.memory.None? && Calls(fired.log, "r") == 1 && Resets(fired.log, "r") == 0
      && Known(fired.disk, "r") && fired.disk.rules["r"] == CANARY.(liveStatus := CanarySucceeded)
  {
    steps := CreatedAndAnchored(py);
    var m := Run(py, INITIAL, steps);
    tick := TickSteps(CANARY_RUN, m.disk, TickAt(90.0));
    SubmitRun(py, m.disk, m.log);
  }

  /** From nothing: create a canary, let it anchor, let it fire. One call is
      made, it succeeds, and the rule can then be promoted - so the bound of one
      call per arming is reached, and so is every live status on the way. */
  lemma ACanaryReachesTheExchange(py: Python) returns (steps: seq<Step>)
    ensures var m := Run(py, INITIAL, steps);
      && Calls(m.log, "r") == 1 && Resets(m.log, "r") == 0
      && "r" in m.disk.rules && m.disk.rules["r"].liveStatus == NormalLive
  {
    var anchor, tick := AnAnchoredCanary(py);
    var promote := PromoteRule("r");
    var m := Run(py, INITIAL, anchor);
    var fired := Run(py, m, tick);
    PromotingAfterSuccess(py, fired.disk, fired.log);
    steps := anchor + (tick + [promote]);
    RunAppend(py, INITIAL, anchor, tick + [promote]);
    RunAppend(py, m, tick, [promote]);
    RunOne(py, fired, promote);
  }

  /** The bound breaks without atomic commands: switching the kill switch off
      from a file loaded before the canary fires, and saved after it, leads to
      a second call although the rule was never reset. */
  lemma AStaleCommandBreaksTheBound(py: Python) returns (steps: seq<Step>, tick: seq<Step>)
    ensures var loaded := Run(py, INITIAL, steps);
      var saved := StaleCommand(Run(py, loaded, tick), loaded.disk, SetKillSwitch(false));
      var m := Run(py, saved, tick);
      Calls(m.log, "r") == 2 && Resets(m.log, "r") == 0
  {
    steps, tick := AnAnchoredCanary(py);
    StaleCommandRepeatsTheTick(py, Run(py, INITIAL, steps), tick, "r");
  }

  lemma AnchorTick(py: Python, s: State, log: Log)
    requires s.order == ["r"] && Known(s, "r") && s.runtimes["r"] == FreshRuntime(CANARY) && !s.killSwitch
    ensures var (t, after) := TickResult(py, CANARY_RUN, s, log, TickAt(100.0));
      && Calls(after, "r") == Calls(log, "r") && Resets(after, "r") == Resets(log, "r")
      && "r" in t.rules && "r" in t.runtimes && t.runtimes["r"] == ANCHORED
  {
    OnlyRuleTick(py, s, log, 100.0);
    HoldingSizes(BooksOf(s, "r"));
    ProcessRuleWrites(py, CANARY_RUN, HOLDING, s, log, "r", MarkAt(100.0));
    FirstMarkAnchors(py, log);
  }

  lemma SubmitTick(py: Python, s: State, log: Log)
    requires s.order == ["r"] && Known(s, "r") && s.runtimes["r"] == ANCHORED && !s.killSwitch
    ensures var (t, after) := TickResult(py, CANARY_RUN, s, log, TickAt(90.0));
      && Calls(after, "r") == Calls(log, "r") + 1
      && "r" in t.rules && t.rules["r"] == CANARY.(liveStatus := CanarySucceeded)
      && Resets(after, "r") == Resets(log, "r")
  {
    OnlyRuleTick(py, s, log, 90.0);
    SubmitPass(py, s, log);
  }

  lemma SubmitPass(py: Python, s: State, log: Log)
    requires Known(s, "r") && s.runtimes["r"] == ANCHORED && !s.killSwitch
    ensures var (t, after) := ProcessRule(py, CANARY_RUN, HOLDING, s, log, "r", MarkAt(90.0));
      && Calls(after, "r") == Calls(log, "r") + 1
      && "r" in t.rules && t.rules["r"] == CANARY.(liveStatus := CanarySucceeded)
      && Resets(after, "r") == Resets(log, "r")
  {
    var saved := SavedAhead(CANARY_RUN, HOLDING, s, log, "r", MarkAt(90.0));
    assert Calls(saved, "r") == Calls(log, "r") && Resets(saved, "r") == Resets(log, "r");
    HoldingSizes(BooksOf(s, "r"));
    assert SizedRuntime(s, "r", HOLDING) == ANCHORED;
    ProcessRuleWrites(py, CANARY_RUN, HOLDING, s, log, "r", MarkAt(90.0));
    SecondMarkSubmits(py, saved);
    RecordResetsNothing(py, CANARY_RUN, HOLDING, ANCHORED, saved, MarkAt(90.0));
  }

  lemma RecordResetsNothing(py: Python, config: Config, account: Account, runtime: Runtime, log: Log,
                            inputs: RuleInputs)
    ensures Resets(RecordAfterMark(py, config, account, runtime, log, false, inputs).1, runtime.rule.id)
         == Resets(log, runtime.rule.id)
  {
  }

  /** A reset opens the latch but keeps the stop: the next mark at the same or
      a worse price fires again. */
  lemma ResetRuleFiresAgain(runtime: Runtime, w: WindowSize, tick: PriceTick, position: Position, next: PriceTick)
    requires WellFormed(runtime.rule) && Observed(runtime, w, tick).1.Some?
    requires position.size > 0.0 && next.coin == runtime.rule.coin
    requires AtLeastAsGood(runtime.rule.side, tick.mark, next.mark)
    ensures Observed(ResetRecord(Observed(runtime, w, tick).0, position), w, next).1.Some?
  {
    var fired := Observed(runtime, w, tick).0;
    BlockedExitFiresAgain(runtime, w, tick, [], ResetRecord(fired, position), next);
  }
}
