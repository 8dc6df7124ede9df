/** One daemon tick as a function of the loaded state and of what the world
    answers: daemon.py's `run_once`, with nobody else writing the state file. */
module Tick {
  import opened Prelude
  import opened Models
  import opened Trailing
  import opened Json
  import opened DaemonState
  import opened Fills
  import opened Submission

  /** What the world answers while one rule is processed. */
  datatype RuleInputs = RuleInputs(mark: Option<PriceTick>, world: World)

  /** `account` is None when the account snapshot fails; every rule is
      processed at most once a tick, so its answers are keyed by its id. */
  datatype TickInputs = TickInputs(account: Option<Account>, rules: string -> RuleInputs)

  /** The mark that reaches the engine, if any. */
  function UsableMark(rule: Rule, mark: Option<PriceTick>): Option<PriceTick> {
    if mark.Some? && mark.value.coin == rule.coin && mark.value.source == MarkPrice then mark else None
  }

  function NoteMark(s: State, id: string, tick: PriceTick): State {
    s.(observedIds := s.observedIds + {id}, observedAt := s.observedAt[id := tick.observedAt.text])
  }

  function PutRuntime(s: State, id: string, runtime: Runtime): State {
    s.(runtimes := s.runtimes[id := runtime])
  }

  /** The state after an observation, and the exit it fires. */
  function ObserveRule(s: State, id: string, w: WindowSize, tick: PriceTick): (State, Option<TriggeredExit>)
    requires id in s.runtimes
  {
    var (runtime, exit) := Observed(s.runtimes[id], w, tick);
    (PutRuntime(NoteMark(s, id, tick), id, runtime), exit)
  }

  /** The record of a rule after its triggered exit was handled. */
  function Settled(runtime: Runtime, outcome: Outcome): Runtime {
    match outcome
    case DryRunRecorded => runtime
    case LiveBlocked => runtime.(triggered := false)
    case LiveSubmitted =>
      if runtime.rule.liveStatus == CanaryPending
      then runtime.(rule := WithLiveStatus(runtime.rule, CanarySucceeded)) else runtime
    case LiveFailed =>
      if runtime.rule.executionMode == AutoSubmit
      then runtime.(rule := WithLiveStatus(runtime.rule, ManualReview)) else runtime
  }

  function SettleRule(s: State, id: string, outcome: Outcome): State
    requires id in s.runtimes
  {
    var runtime := Settled(s.runtimes[id], outcome);
    if runtime.rule == s.runtimes[id].rule then PutRuntime(s, id, runtime)
    else PutRecord(s, runtime.rule, runtime)
  }

  // ---------------------------------------------------------------------
  // One record, one tick
  // ---------------------------------------------------------------------

  /** A runtime whose size is settled for this tick: what the mark and the
      exit it fires do to it, given only the kill switch. */
  function RecordAfterMark(py: Python, config: Config, account: Account, runtime: Runtime, log: Log, killSwitch: bool,
                           inputs: RuleInputs): (Runtime, Log) {
    var mark := UsableMark(runtime.rule, inputs.mark);
    if mark.None? then (runtime, log)
    else
      var (observed, exit) := Observed(runtime, config.window, mark.value);
      if exit.None? then (observed, log)
      else
        var context := ContextFor(inputs.world.context, killSwitch, true);
        var (outcome, after) := Handled(py, log, config, account, exit.value, runtime.rule, context, inputs.world);
        (Settled(observed, outcome), after)
  }

  /** Settling an exit changes at most the latch and the live status, and keeps
      a rule well formed. */
  lemma SettledKeepsRule(runtime: Runtime, outcome: Outcome)
    requires WellFormed(runtime.rule)
    ensures var after := Settled(runtime, outcome);
      && WellFormed(after.rule)
      && after.rule == runtime.rule.(liveStatus := after.rule.liveStatus)
      && after == runtime.(rule := after.rule, triggered := after.triggered)
      && (after.triggered ==> runtime.triggered)
      && (outcome != LiveBlocked ==> after.triggered == runtime.triggered)
      && (outcome == LiveBlocked ==> !after.triggered && after.rule == runtime.rule)
      && (after.rule.liveStatus != runtime.rule.liveStatus ==> runtime.rule.executionMode == AutoSubmit)
  {
  }

  lemma RecordKeepsRule(py: Python, config: Config, account: Account, runtime: Runtime, log: Log, killSwitch: bool,
                        inputs: RuleInputs)
    requires WellFormed(runtime.rule)
    ensures var after := RecordAfterMark(py, config, account, runtime, log, killSwitch, inputs).0;
      && WellFormed(after.rule)
      && after.rule == runtime.rule.(liveStatus := after.rule.liveStatus)
      && after.protectedSize == runtime.protectedSize
  {
    var mark := UsableMark(runtime.rule, inputs.mark);
    if mark.Some? {
      var (observed, exit) := Observed(runtime, config.window, mark.value);
      if exit.Some? {
        var context := ContextFor(inputs.world.context, killSwitch, true);
        var rule, world := runtime.rule, inputs.world;
        SettledKeepsRule(observed, Handled(py, log, config, account, exit.value, rule, context, world).0);
      }
    }
  }

  predicate Known(s: State, id: string) {
    id in s.rules && id in s.runtimes && RecordCoherent(id, s.rules[id], s.runtimes[id])
  }

  function SizedRuntime(s: State, id: string, account: Account): Runtime
    requires Known(s, id)
  {
    s.runtimes[id].(protectedSize := Booked(s.rules[id], BooksOf(s, id), account).size)
  }

  /** The state once the rule is sized. */
  function SizedState(s: State, id: string, account: Account): State
    requires Known(s, id)
  {
    var books := Booked(s.rules[id], BooksOf(s, id), account);
    s.(runtimes := s.runtimes[id := SizedRuntime(s, id, account)], seenFills := books.seen, filledSize := books.filled)
  }

  /** The state once the mark was observed. */
  function MarkedState(s: State, id: string, w: WindowSize, account: Account, tick: PriceTick): State
    requires Known(s, id)
  {
    var sized := SizedState(s, id, account);
    NoteMark(sized.(runtimes := s.runtimes[id := Observed(SizedRuntime(s, id, account), w, tick).0]), id, tick)
  }

  /** The log that the policy finds: a live exit is saved before it is handed
      over. */
  function SavedAhead(config: Config, account: Account, s: State, log: Log, id: string, inputs: RuleInputs): Log
    requires Known(s, id)
  {
    var mark := UsableMark(s.rules[id], inputs.mark);
    if && mark.Some? && s.rules[id].executionMode == AutoSubmit
       && Observed(SizedRuntime(s, id, account), config.window, mark.value).1.Some?
    then Then(log, StateSaved(MarkedState(s, id, config.window, account, mark.value))) else log
  }

  /** One pass of the loop over rules. Besides its own record it reads the kill
      switch and the shared fill maps, and writes those maps and its own marks. */
  function ProcessRule(py: Python, config: Config, account: Account, s: State, log: Log, id: string, inputs: RuleInputs)
    : (State, Log)
    requires Known(s, id)
  {
    var rule := s.rules[id];
    if rule.status == Disabled then (s, log)
    else
      var books := Booked(rule, BooksOf(s, id), account);
      var (runtime, after) :=
        RecordAfterMark(py, config, account, SizedRuntime(s, id, account),
                        SavedAhead(config, account, s, log, id, inputs), s.killSwitch, inputs);
      var t := s.(rules := s.rules[id := runtime.rule], runtimes := s.runtimes[id := runtime],
                  seenFills := books.seen, filledSize := books.filled);
      var mark := UsableMark(rule, inputs.mark);
      (if mark.Some? then NoteMark(t, id, mark.value) else t, after)
  }

  /** One pass as a value, so that the loop can be reasoned about on its own. */
  type Pass = (State, Log, string) -> (State, Log)

  function PassOf(py: Python, config: Config, account: Account, inputs: string -> RuleInputs): Pass {
    (s, log, id) => if Known(s, id) then ProcessRule(py, config, account, s, log, id, inputs(id)) else (s, log)
  }

  /** The loop over rules. */
  function Loop(pass: Pass, s: State, log: Log, ids: seq<string>): (State, Log) {
    if ids == [] then (s, log)
    else
      var (t, before) := Loop(pass, s, log, ids[..|ids| - 1]);
      pass(t, before, ids[|ids| - 1])
  }

  /** The state and log after one whole tick, which ends with a save. */
  function TickResult(py: Python, config: Config, s: State, log: Log, inputs: TickInputs): (State, Log) {
    match inputs.account
    case None => (s, log)
    case Some(account) =>
      var (t, after) := Loop(PassOf(py, config, account, inputs.rules), s, log, s.order);
      (t, Then(after, StateSaved(t)))
  }

  /** Only the record of `id` changed, and the state stayed coherent. */
  predicate TouchesOnly(s: State, t: State, id: string) {
    && Coherent(t)
    && t.order == s.order && t.killSwitch == s.killSwitch
    && t.rules.Keys == s.rules.Keys && t.runtimes.Keys == s.runtimes.Keys
    && (forall other :: other in s.rules && other != id ==>
          t.rules[other] == s.rules[other] && t.runtimes[other] == s.runtimes[other])
  }

  ghost predicate OneAtATime(pass: Pass) {
    forall s, log, id :: Coherent(s) && id in s.rules ==> TouchesOnly(s, pass(s, log, id).0, id)
  }

  lemma RewriteTouchesOnly(s: State, t: State, rule: Rule, runtime: Runtime)
    requires Coherent(s) && rule.id in s.rules && RecordCoherent(rule.id, rule, runtime)
    requires t.order == s.order && t.killSwitch == s.killSwitch
    requires t.rules == s.rules[rule.id := rule] && t.runtimes == s.runtimes[rule.id := runtime]
    ensures TouchesOnly(s, t, rule.id)
  {
    RewrittenRecords(s.rules, s.runtimes, rule, runtime);
  }

  /** What a pass over an enabled rule writes. */
  lemma ProcessRuleWrites(py: Python, config: Config, account: Account, s: State, log: Log, id: string,
                          inputs: RuleInputs)
    requires Known(s, id) && s.rules[id].status != Disabled
    ensures var (runtime, after) :=
        RecordAfterMark(py, config, account, SizedRuntime(s, id, account),
                        SavedAhead(config, account, s, log, id, inputs), s.killSwitch, inputs);
      var (t, tLog) := ProcessRule(py, config, account, s, log, id, inputs);
      && t.rules == s.rules[id := runtime.rule] && t.runtimes == s.runtimes[id := runtime]
      && t.order == s.order && t.killSwitch == s.killSwitch && tLog == after
      && t.seenFills == Booked(s.rules[id], BooksOf(s, id), account).seen
      && t.filledSize == Booked(s.rules[id], BooksOf(s, id), account).filled
  {
  }

  lemma ProcessRuleTouchesOnly(py: Python, config: Config, account: Account, s: State, log: Log, id: string,
                               inputs: RuleInputs)
    requires Coherent(s) && Known(s, id)
    ensures TouchesOnly(s, ProcessRule(py, config, account, s, log, id, inputs).0, id)
  {
    if s.rules[id].status != Disabled {
      ProcessRuleWrites(py, config, account, s, log, id, inputs);
      RecordKeepsRule(py, config, account, SizedRuntime(s, id, account),
                      SavedAhead(config, account, s, log, id, inputs), s.killSwitch, inputs);
      var t := ProcessRule(py, config, account, s, log, id, inputs).0;
      assert RecordCoherent(id, t.rules[id], t.runtimes[id]);
      RewriteTouchesOnly(s, t, t.rules[id], t.runtimes[id]);
    }
  }

  lemma PassesTouchOneRecord(py: Python, config: Config, account: Account, inputs: string -> RuleInputs)
    ensures OneAtATime(PassOf(py, config, account, inputs))
  {
    forall s, log, id | Coherent(s) && id in s.rules
      ensures TouchesOnly(s, PassOf(py, config, account, inputs)(s, log, id).0, id)
    {
      assert RecordCoherent(id, s.rules[id], s.runtimes[id]);
      ProcessRuleTouchesOnly(py, config, account, s, log, id, inputs(id));
    }
  }

  /** The loop keeps coherence and leaves unvisited records alone. */
  lemma {:induction false} LoopTouchesOnlyVisited(pass: Pass, s: State, log: Log, ids: seq<string>)
    requires OneAtATime(pass) && Coherent(s) && forall i :: 0 <= i < |ids| ==> ids[i] in s.rules
    ensures var t := Loop(pass, s, log, ids).0;
      && Coherent(t) && t.order == s.order && t.killSwitch == s.killSwitch
      && t.rules.Keys == s.rules.Keys && t.runtimes.Keys == s.runtimes.Keys
      && (forall id :: id in s.rules && id !in ids ==> t.rules[id] == s.rules[id] && t.runtimes[id] == s.runtimes[id])
  {
    if ids != [] {
      var n := |ids| - 1;
      LoopTouchesOnlyVisited(pass, s, log, ids[..n]);
      var (t, before) := Loop(pass, s, log, ids[..n]);
      assert TouchesOnly(t, pass(t, before, ids[n]).0, ids[n]);
      forall id | id in s.rules && id !in ids ensures id !in ids[..n] && id != ids[n] {
        assert ids[n] in ids;
      }
    }
  }

  lemma NotVisitedYet(s: State, i: nat)
    requires Coherent(s) && i < |s.order|
    ensures s.order[i] in s.rules && s.order[i] !in s.order[..i]
    ensures forall k :: 0 <= k < i ==> s.order[..i][k] in s.rules
  {
  }

  /** When the loop reaches rule `i` its record is as it was loaded. */
  lemma LoopReaches(pass: Pass, s: State, log: Log, i: nat)
    requires OneAtATime(pass) && Coherent(s) && i < |s.order|
    ensures var (t, before) := Loop(pass, s, log, s.order[..i]);
      && Known(t, s.order[i]) && t.order == s.order && t.killSwitch == s.killSwitch
      && s.order[i] in s.rules && t.rules[s.order[i]] == s.rules[s.order[i]]
      && pass(t, before, s.order[i]).0.killSwitch == s.killSwitch
  {
    var (t, before) := Loop(pass, s, log, s.order[..i]);
    var id := s.order[i];
    NotVisitedYet(s, i);
    LoopTouchesOnlyVisited(pass, s, log, s.order[..i]);
    assert RecordCoherent(id, t.rules[id], t.runtimes[id]);
    assert TouchesOnly(t, pass(t, before, id).0, id);
  }

  lemma LoopGoesOn(pass: Pass, s: State, log: Log, ids: seq<string>, i: nat)
    requires i < |ids|
    ensures var (t, before) := Loop(pass, s, log, ids[..i]);
      Loop(pass, s, log, ids[..i + 1]) == pass(t, before, ids[i])
  {
    assert ids[..i + 1][..i] == ids[..i];
  }

  /** A whole tick keeps coherence, the set and order of rules, and the kill
      switch. */
  lemma TickKeepsCoherence(py: Python, config: Config, s: State, log: Log, inputs: TickInputs)
    requires Coherent(s)
    ensures var t := TickResult(py, config, s, log, inputs).0;
      Coherent(t) && t.order == s.order && t.killSwitch == s.killSwitch
  {
    if inputs.account.Some? {
      var pass := PassOf(py, config, inputs.account.value, inputs.rules);
      PassesTouchOneRecord(py, config, inputs.account.value, inputs.rules);
      LoopTouchesOnlyVisited(pass, s, log, s.order);
    }
  }
}
