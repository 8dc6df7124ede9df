/** The gate between a triggered exit and the exchange: readiness.py and
    submission.py. */
module Submission {
  import opened Prelude
  import opened Models
  import opened Trailing
  import opened Json
  import opened DaemonState
  import opened Response

  /** ReadinessContext */
  datatype Readiness = Readiness(
    account: string,
    marketExists: bool,
    observedLiveMark: bool,
    killSwitchAvailable: bool,
    killSwitchActive: bool,
    dryRunEvents: int,
    confirmationPhrase: string
  )

  const MAINNET_CONFIRMATION_PHRASE: string := "ENABLE MAINNET AUTO SUBMIT"

  /** How a daemon process was started. */
  datatype Config = Config(window: WindowSize, canaryMode: bool, hasExchange: bool, hasChecker: bool, maxMarkAge: int)

  /** What the world answers when one triggered exit is handled: the readiness
      context of the factory, whether the key store holds a key, the clock,
      and the exchange. */
  datatype World = World(context: Option<Readiness>, hasKey: bool, now: int, reply: Reply)

  /** The attempt could not be logged, the call raised, or a dict came back. */
  datatype Reply = AttemptNotLogged | Raised | Responded(response: seq<Field>)

  datatype Outcome = DryRunRecorded | LiveBlocked | LiveFailed | LiveSubmitted

  /** The texts of blocked reasons, one constructor each. */
  datatype Reason =
    | MissingKey | MissingMarket(coin: string) | NoLiveMark | NoKillSwitch | KillSwitchActive
    | NoDryRunEvidence | WrongPhrase | NoGateway | NoChecker | NoContext | StaleMark
    | CanaryRequired | NeedsManualReview | NotLiveEnabled

  datatype Event =
    | RuleCreated(id: string)
    | RuleDisabled(id: string)
    | RulePromoted(id: string)
    | RuleReset(id: string)
    | KillSwitchSet(active: bool)
    | DryRunExit(exit: TriggeredExit)
    | SubmissionBlocked(exit: TriggeredExit, reasons: seq<Reason>)
    | ExchangeCalled(exit: TriggeredExit, rule: Rule, account: Account, config: Config, context: Readiness, now: int)
    | SubmissionFailed(id: string)
    | SubmissionSucceeded(id: string)
    | StateSaved(state: State)

  /** Everything that reached the disk or the exchange, newest last: audit
      events, calls and saves of the state file, in their order. */
  datatype Log = Start | Then(past: Log, last: Event)

  /** Exchange calls made for a rule. */
  function Calls(log: Log, id: string): nat {
    match log
    case Start => 0
    case Then(past, last) => Calls(past, id) + if last.ExchangeCalled? && last.exit.ruleId == id then 1 else 0
  }

  /** Dry-run exits logged for a rule. */
  function DryRuns(log: Log, id: string): nat {
    match log
    case Start => 0
    case Then(past, last) => DryRuns(past, id) + if last.DryRunExit? && last.exit.ruleId == id then 1 else 0
  }

  // ---------------------------------------------------------------------
  // Readiness
  // ---------------------------------------------------------------------

  function Noted(reasons: seq<Reason>, condition: bool, reason: Reason): seq<Reason> {
    if condition then reasons + [reason] else reasons
  }

  function ReadinessReasons(rule: Rule, context: Readiness, hasKey: bool): seq<Reason> {
    var r := Noted([], !hasKey, MissingKey);
    var r := Noted(r, !context.marketExists, MissingMarket(rule.coin));
    var r := Noted(r, !context.observedLiveMark, NoLiveMark);
    var r := Noted(r, !context.killSwitchAvailable, NoKillSwitch);
    var r := Noted(r, context.killSwitchActive, KillSwitchActive);
    var r := Noted(r, context.dryRunEvents <= 0, NoDryRunEvidence);
    Noted(r, context.confirmationPhrase != MAINNET_CONFIRMATION_PHRASE, WrongPhrase)
  }

  predicate Ready(context: Readiness, hasKey: bool) {
    && hasKey
    && context.marketExists
    && context.observedLiveMark
    && context.killSwitchAvailable
    && !context.killSwitchActive
    && context.dryRunEvents > 0
    && context.confirmationPhrase == MAINNET_CONFIRMATION_PHRASE
  }

  lemma ReadyIffNoReasons(rule: Rule, context: Readiness, hasKey: bool)
    ensures ReadinessReasons(rule, context, hasKey) == [] <==> Ready(context, hasKey)
  {
  }

  method CheckMainnetAutoSubmit(rule: Rule, context: Readiness, hasKey: bool)
    returns (passed: bool, reasons: seq<Reason>)
    ensures reasons == ReadinessReasons(rule, context, hasKey)
    ensures passed <==> Ready(context, hasKey)
    ensures passed <==> reasons == []
  {
    reasons := [];
    if !hasKey {
      reasons := reasons + [MissingKey];
    }
    ghost var r1 := Noted([], !hasKey, MissingKey);
    assert reasons == r1;
    if !context.marketExists {
      reasons := reasons + [MissingMarket(rule.coin)];
    }
    ghost var r2 := Noted(r1, !context.marketExists, MissingMarket(rule.coin));
    assert reasons == r2;
    if !context.observedLiveMark {
      reasons := reasons + [NoLiveMark];
    }
    ghost var r3 := Noted(r2, !context.observedLiveMark, NoLiveMark);
    assert reasons == r3;
    if !context.killSwitchAvailable {
      reasons := reasons + [NoKillSwitch];
    }
    ghost var r4 := Noted(r3, !context.killSwitchAvailable, NoKillSwitch);
    assert reasons == r4;
    if context.killSwitchActive {
      reasons := reasons + [KillSwitchActive];
    }
    ghost var r5 := Noted(r4, context.killSwitchActive, KillSwitchActive);
    assert reasons == r5;
    if context.dryRunEvents <= 0 {
      reasons := reasons + [NoDryRunEvidence];
    }
    ghost var r6 := Noted(r5, context.dryRunEvents <= 0, NoDryRunEvidence);
    assert reasons == r6;
    if context.confirmationPhrase != MAINNET_CONFIRMATION_PHRASE {
      reasons := reasons + [WrongPhrase];
    }
    assert reasons == ReadinessReasons(rule, context, hasKey);
    ReadyIffNoReasons(rule, context, hasKey);
    passed := |reasons| == 0;
  }

  // ---------------------------------------------------------------------
  // The submission policy
  // ---------------------------------------------------------------------

  predicate MarkIsStale(rule: Rule, exit: TriggeredExit, config: Config, now: int) {
    rule.executionMode == AutoSubmit && now - exit.observedAt.instant > config.maxMarkAge
  }

  /** Appending what is not there yet. */
  function AppendNew(reasons: seq<Reason>, more: seq<Reason>): seq<Reason> {
    if more == [] then reasons
    else
      var before, last := AppendNew(reasons, more[..|more| - 1]), more[|more| - 1];
      if last in before then before else before + [last]
  }

  function LiveStatusReasons(rule: Rule, config: Config): seq<Reason> {
    if rule.liveStatus == CanaryPending && !config.canaryMode then
      [CanaryRequired]
    else if rule.liveStatus == ManualReview then [NeedsManualReview]
    else if rule.liveStatus == NotLive then [NotLiveEnabled]
    else []
  }

  function SetupReasons(config: Config, context: Option<Readiness>): seq<Reason> {
    var r := Noted([], !config.hasExchange, NoGateway);
    var r := Noted(r, !config.hasChecker, NoChecker);
    match context
    case None => Noted(r, true, NoContext)
    case Some(c) => Noted(r, c.killSwitchActive, KillSwitchActive)
  }

  function BlockedReasons(exit: TriggeredExit, rule: Rule, config: Config, context: Option<Readiness>,
                          hasKey: bool, now: int): seq<Reason> {
    var setup := SetupReasons(config, context);
    var checked := if config.hasChecker && context.Some?
                   then AppendNew(setup, ReadinessReasons(rule, context.value, hasKey)) else setup;
    Noted(checked, MarkIsStale(rule, exit, config, now), StaleMark) + LiveStatusReasons(rule, config)
  }

  /** Everything that has to hold before the exchange may be called. */
  predicate MaySubmit(exit: TriggeredExit, rule: Rule, config: Config, context: Option<Readiness>,
                      hasKey: bool, now: int) {
    && config.hasExchange && config.hasChecker
    && context.Some? && Ready(context.value, hasKey)
    && !MarkIsStale(rule, exit, config, now)
    && (rule.liveStatus == CanaryPending ==> config.canaryMode)
    && rule.liveStatus != ManualReview && rule.liveStatus != NotLive
  }

  lemma {:induction false} AppendNewEmpty(reasons: seq<Reason>, more: seq<Reason>)
    ensures AppendNew(reasons, more) == [] <==> reasons == [] && more == []
    ensures |AppendNew(reasons, more)| >= |reasons|
  {
    if more != [] {
      AppendNewEmpty(reasons, more[..|more| - 1]);
      if AppendNew(reasons, more[..|more| - 1]) == [] {
        assert more[|more| - 1] !in AppendNew(reasons, more[..|more| - 1]);
      }
    }
  }

  lemma {:induction false} AppendNewIsUnion(reasons: seq<Reason>, more: seq<Reason>)
    ensures forall r :: r in AppendNew(reasons, more) <==> r in reasons || r in more
    ensures NoRepeats(reasons) ==> NoRepeats(AppendNew(reasons, more))
  {
    if more != [] {
      var n := |more| - 1;
      AppendNewIsUnion(reasons, more[..n]);
      assert more == more[..n] + [more[n]];
    }
  }

  predicate NoRepeats(reasons: seq<Reason>) {
    forall i, j :: 0 <= i < j < |reasons| ==> reasons[i] != reasons[j]
  }

  /** The condition that each reason complains about. */
  predicate Fails(reason: Reason, exit: TriggeredExit, rule: Rule, config: Config, context: Option<Readiness>,
                  hasKey: bool, now: int) {
    var checked := config.hasChecker && context.Some?;
    match reason
    case NoGateway => !config.hasExchange
    case NoChecker => !config.hasChecker
    case NoContext => context.None?
    case KillSwitchActive => context.Some? && context.value.killSwitchActive
    case MissingKey => checked && !hasKey
    case MissingMarket(coin) => checked && !context.value.marketExists && coin == rule.coin
    case NoLiveMark => checked && !context.value.observedLiveMark
    case NoKillSwitch => checked && !context.value.killSwitchAvailable
    case NoDryRunEvidence => checked && context.value.dryRunEvents <= 0
    case WrongPhrase => checked && context.value.confirmationPhrase != MAINNET_CONFIRMATION_PHRASE
    case StaleMark => rule.executionMode == AutoSubmit && now > exit.observedAt.instant + config.maxMarkAge
    case CanaryRequired => rule.liveStatus == CanaryPending && !config.canaryMode
    case NeedsManualReview => rule.liveStatus == ManualReview
    case NotLiveEnabled => rule.liveStatus == NotLive
  }

  lemma NotedMember(reasons: seq<Reason>, condition: bool, reason: Reason, r: Reason) returns (noted: seq<Reason>)
    ensures noted == Noted(reasons, condition, reason)
    ensures r in noted <==> r in reasons || (condition && r == reason)
  {
    noted := Noted(reasons, condition, reason);
  }

  lemma NotedMembers(reasons: seq<Reason>, condition: bool, reason: Reason)
    ensures forall r :: r in Noted(reasons, condition, reason) <==> r in reasons || (condition && r == reason)
    ensures NoRepeats(reasons) && reason !in reasons ==> NoRepeats(Noted(reasons, condition, reason))
  {
  }

  predicate IsReadinessReason(reason: Reason) {
    || reason.MissingKey? || reason.MissingMarket? || reason.NoLiveMark? || reason.NoKillSwitch?
    || reason.KillSwitchActive? || reason.NoDryRunEvidence? || reason.WrongPhrase?
  }

  lemma ReadinessMember(exit: TriggeredExit, rule: Rule, config: Config, context: Readiness, hasKey: bool, now: int,
                        reason: Reason)
    requires config.hasChecker
    ensures reason in ReadinessReasons(rule, context, hasKey)
       <==> IsReadinessReason(reason) && Fails(reason, exit, rule, config, Some(context), hasKey, now)
  {
    var r1 := NotedMember([], !hasKey, MissingKey, reason);
    var r2 := NotedMember(r1, !context.marketExists, MissingMarket(rule.coin), reason);
    var r3 := NotedMember(r2, !context.observedLiveMark, NoLiveMark, reason);
    var r4 := NotedMember(r3, !context.killSwitchAvailable, NoKillSwitch, reason);
    var r5 := NotedMember(r4, context.killSwitchActive, KillSwitchActive, reason);
    var r6 := NotedMember(r5, context.dryRunEvents <= 0, NoDryRunEvidence, reason);
    var r7 := NotedMember(r6, context.confirmationPhrase != MAINNET_CONFIRMATION_PHRASE, WrongPhrase, reason);
    assert r7 == ReadinessReasons(rule, context, hasKey);
  }

  lemma ReadinessMembers(exit: TriggeredExit, rule: Rule, config: Config, context: Readiness, hasKey: bool, now: int)
    requires config.hasChecker
    ensures forall r :: (r in ReadinessReasons(rule, context, hasKey)
      <==> IsReadinessReason(r) && Fails(r, exit, rule, config, Some(context), hasKey, now))
  {
    forall r
      ensures r in ReadinessReasons(rule, context, hasKey)
         <==> IsReadinessReason(r) && Fails(r, exit, rule, config, Some(context), hasKey, now)
    {
      ReadinessMember(exit, rule, config, context, hasKey, now, r);
    }
  }

  predicate IsSetupReason(reason: Reason) {
    reason.NoGateway? || reason.NoChecker? || reason.NoContext? || reason.KillSwitchActive?
  }

  lemma SetupMembers(exit: TriggeredExit, rule: Rule, config: Config, context: Option<Readiness>, hasKey: bool,
                     now: int)
    ensures NoRepeats(SetupReasons(config, context))
    ensures forall r :: (r in SetupReasons(config, context)
      <==> IsSetupReason(r) && Fails(r, exit, rule, config, context, hasKey, now))
  {
    NotedMembers([], !config.hasExchange, NoGateway);
    var r1 := Noted([], !config.hasExchange, NoGateway);
    NotedMembers(r1, !config.hasChecker, NoChecker);
    var r2 := Noted(r1, !config.hasChecker, NoChecker);
    NotedMembers(r2, true, NoContext);
    NotedMembers(r2, context.Some? && context.value.killSwitchActive, KillSwitchActive);
  }

  lemma AppendedRepeatsNothing(a: seq<Reason>, b: seq<Reason>)
    requires NoRepeats(a) && NoRepeats(b) && forall r :: r in b ==> r !in a
    ensures NoRepeats(a + b)
  {
    var c := a + b;
    forall i, j | 0 <= i < j < |c| ensures c[i] != c[j] {
      if i < |a| <= j {
        assert c[i] == a[i] && c[j] == b[j - |a|] && a[i] in a && b[j - |a|] in b;
      } else if |a| <= i {
        assert c[i] == b[i - |a|] && c[j] == b[j - |a|];
      }
    }
  }

  /** The collected reasons are exactly the failing conditions, each once. */
  lemma ReasonsAreTheFailures(exit: TriggeredExit, rule: Rule, config: Config, context: Option<Readiness>,
                              hasKey: bool, now: int)
    ensures NoRepeats(BlockedReasons(exit, rule, config, context, hasKey, now))
    ensures forall r :: (r in BlockedReasons(exit, rule, config, context, hasKey, now)
      <==> Fails(r, exit, rule, config, context, hasKey, now))
  {
    var setup, live := SetupReasons(config, context), LiveStatusReasons(rule, config);
    var stale := MarkIsStale(rule, exit, config, now);
    var checked := setup;
    SetupMembers(exit, rule, config, context, hasKey, now);
    if config.hasChecker && context.Some? {
      checked := AppendNew(setup, ReadinessReasons(rule, context.value, hasKey));
      ReadinessMembers(exit, rule, config, context.value, hasKey, now);
      AppendNewIsUnion(setup, ReadinessReasons(rule, context.value, hasKey));
    }
    assert forall r :: r in checked <==>
      (IsSetupReason(r) || IsReadinessReason(r)) && Fails(r, exit, rule, config, context, hasKey, now);
    NotedMembers(checked, stale, StaleMark);
    AppendedRepeatsNothing(Noted(checked, stale, StaleMark), live);
    assert forall r :: r in live <==>
      (r.CanaryRequired? || r.NeedsManualReview? || r.NotLiveEnabled?)
      && Fails(r, exit, rule, config, context, hasKey, now);
  }

  /** A submission is let through exactly when every condition holds. */
  lemma BlockedIffNotAllowed(exit: TriggeredExit, rule: Rule, config: Config, context: Option<Readiness>,
                             hasKey: bool, now: int)
    ensures BlockedReasons(exit, rule, config, context, hasKey, now) == []
       <==> MaySubmit(exit, rule, config, context, hasKey, now)
  {
    if context.Some? {
      ReadyIffNoReasons(rule, context.value, hasKey);
      AppendNewEmpty(SetupReasons(config, context), ReadinessReasons(rule, context.value, hasKey));
    }
  }

  function OutcomeOf(py: Python, reply: Reply): Outcome {
    if reply.Responded? && ExchangeResponseError(py, reply.response).None? then LiveSubmitted else LiveFailed
  }

  /** The context a tick passes on: the factory's answer with the state's kill
      switch, or a blocked stand-in when there is none and the switch is on. */
  function ContextFor(answer: Option<Readiness>, killSwitch: bool, observed: bool): Option<Readiness> {
    match answer
    case Some(c) => Some(c.(killSwitchActive := killSwitch))
    case None => if killSwitch then Some(Readiness("", true, observed, true, true, 1, "")) else None
  }

  /** `handle`: the outcome, and the log it leaves. */
  function Handled(py: Python, log: Log, config: Config, account: Account, exit: TriggeredExit, rule: Rule,
                   context: Option<Readiness>, world: World): (Outcome, Log) {
    if exit.executionMode == DryRun then (DryRunRecorded, Then(log, DryRunExit(exit)))
    else
      var reasons := BlockedReasons(exit, rule, config, context, world.hasKey, world.now);
      if reasons != [] || context.None? then (LiveBlocked, Then(log, SubmissionBlocked(exit, reasons)))
      else
        var called := if world.reply.AttemptNotLogged? then log
                      else Then(log, ExchangeCalled(exit, rule, account, config, context.value, world.now));
        var outcome := OutcomeOf(py, world.reply);
        (outcome, Then(called, if outcome == LiveSubmitted then SubmissionSucceeded(exit.ruleId)
                               else SubmissionFailed(exit.ruleId)))
  }

  class Journal {
    var log: Log

    constructor ()
      ensures log == Start
    {
      log := Start;
    }

    method Append(event: Event)
      modifies this
      ensures log == Then(old(log), event)
    {
      log := Then(log, event);
    }
  }

  class SubmissionPolicy {
    const py: Python
    const config: Config
    const journal: Journal

    constructor (py: Python, config: Config, journal: Journal)
      ensures this.py == py && this.config == config && this.journal == journal
    {
      this.py := py;
      this.config := config;
      this.journal := journal;
    }

    method CollectBlockedReasons(exit: TriggeredExit, rule: Rule, context: Option<Readiness>, hasKey: bool, now: int)
      returns (reasons: seq<Reason>)
      ensures reasons == BlockedReasons(exit, rule, config, context, hasKey, now)
      ensures reasons == [] <==> MaySubmit(exit, rule, config, context, hasKey, now)
    {
      reasons := CollectSetupReasons(context);
      if config.hasChecker && context.Some? {
        var _, found := CheckMainnetAutoSubmit(rule, context.value, hasKey);
        reasons := AppendMissing(reasons, found);
      }
      if MarkIsStale(rule, exit, config, now) {
        reasons := reasons + [StaleMark];
      }
      reasons := reasons + LiveStatusReasons(rule, config);
      BlockedIffNotAllowed(exit, rule, config, context, hasKey, now);
    }

    method AppendMissing(known: seq<Reason>, found: seq<Reason>) returns (reasons: seq<Reason>)
      ensures reasons == AppendNew(known, found)
    {
      reasons := known;
      for i := 0 to |found|
        invariant reasons == AppendNew(known, found[..i])
      {
        assert found[..i + 1][..i] == found[..i];
        if found[i] !in reasons {
          reasons := reasons + [found[i]];
        }
      }
      assert found[..|found|] == found;
    }

    method CollectSetupReasons(context: Option<Readiness>) returns (reasons: seq<Reason>)
      ensures reasons == SetupReasons(config, context)
    {
      reasons := [];
      if !config.hasExchange {
        reasons := reasons + [NoGateway];
      }
      if !config.hasChecker {
        reasons := reasons + [NoChecker];
      }
      if context.None? {
        reasons := reasons + [NoContext];
      } else if context.value.killSwitchActive {
        reasons := reasons + [KillSwitchActive];
      }
    }

    method Handle(account: Account, exit: TriggeredExit, rule: Rule, context: Option<Readiness>, world: World)
      returns (outcome: Outcome)
      modifies journal
      ensures (outcome, journal.log) == Handled(py, old(journal.log), config, account, exit, rule, context, world)
    {
      if exit.executionMode == DryRun {
        journal.Append(DryRunExit(exit));
        return DryRunRecorded;
      }
      var reasons := CollectBlockedReasons(exit, rule, context, world.hasKey, world.now);
      if |reasons| != 0 {
        journal.Append(SubmissionBlocked(exit, reasons));
        return LiveBlocked;
      }
      if world.reply.AttemptNotLogged? {
        journal.Append(SubmissionFailed(exit.ruleId));
        return LiveFailed;
      }
      journal.Append(ExchangeCalled(exit, rule, account, config, context.value, world.now));
      if world.reply.Raised? {
        journal.Append(SubmissionFailed(exit.ruleId));
        return LiveFailed;
      }
      var error := ExchangeResponseError(py, world.reply.response);
      if error.Some? {
        journal.Append(SubmissionFailed(exit.ruleId));
        return LiveFailed;
      }
      journal.Append(SubmissionSucceeded(exit.ruleId));
      return LiveSubmitted;
    }
  }

  /** `handle` calls the exchange only for a live exit with every condition
      met, and reports a live success only for a clean answer. */
  lemma HandleIsGuarded(py: Python, log: Log, config: Config, account: Account, exit: TriggeredExit, rule: Rule,
                        context: Option<Readiness>, world: World)
    ensures var (outcome, after) := Handled(py, log, config, account, exit, rule, context, world);
      && (outcome == DryRunRecorded <==> exit.executionMode == DryRun)
      && (outcome == LiveSubmitted <==>
            && exit.executionMode == AutoSubmit
            && MaySubmit(exit, rule, config, context, world.hasKey, world.now)
            && world.reply.Responded?
            && SaysOk(py, world.reply.response)
            && !SomeEntryReports(py, Nodes(JObject(world.reply.response))))
      && (outcome == LiveBlocked <==>
            exit.executionMode == AutoSubmit && !MaySubmit(exit, rule, config, context, world.hasKey, world.now))
    ensures forall id :: (Calls(Handled(py, log, config, account, exit, rule, context, world).1, id) ==
      Calls(log, id) + if id == exit.ruleId && exit.executionMode == AutoSubmit && !world.reply.AttemptNotLogged?
                          && MaySubmit(exit, rule, config, context, world.hasKey, world.now) then 1 else 0)
  {
    BlockedIffNotAllowed(exit, rule, config, context, world.hasKey, world.now);
    if world.reply.Responded? {
      AcceptedIffClean(py, world.reply.response);
    }
  }

  // ---------------------------------------------------------------------
  // What the factory's own answer decides
  // ---------------------------------------------------------------------

  /** The factory answered, and its own answer passes every readiness check that
      does not concern the switch. */
  predicate FactoryReady(answer: Option<Readiness>, hasKey: bool) {
    && hasKey && answer.Some?
    && answer.value.marketExists && answer.value.observedLiveMark && answer.value.killSwitchAvailable
    && answer.value.dryRunEvents > 0
    && answer.value.confirmationPhrase == "ENABLE MAINNET AUTO SUBMIT"
  }

  /** What lets a live exit through, in terms of the world's answers and of the
      state's own switch. */
  predicate Submits(exit: TriggeredExit, rule: Rule, config: Config, world: World, killSwitch: bool) {
    && config.hasExchange && config.hasChecker
    && FactoryReady(world.context, world.hasKey) && !killSwitch
    && (rule.executionMode == AutoSubmit ==> world.now <= exit.observedAt.instant + config.maxMarkAge)
    && rule.liveStatus != NotLive && rule.liveStatus != ManualReview
    && (rule.liveStatus == CanaryPending ==> config.canaryMode)
  }

  /** Passing the context on adds nothing to the factory's answer but the state's
      switch, whatever the factory itself said about the switch. */
  lemma AnswerDecides(exit: TriggeredExit, rule: Rule, config: Config, world: World, killSwitch: bool, observed: bool)
    ensures MaySubmit(exit, rule, config, ContextFor(world.context, killSwitch, observed), world.hasKey, world.now)
       <==> Submits(exit, rule, config, world, killSwitch)
  {
  }

  /** A live exit is blocked, and no call made, exactly when the world's own
      answers or the state's switch do not let it through. */
  lemma HandledOnAnswer(py: Python, log: Log, config: Config, account: Account, exit: TriggeredExit, rule: Rule,
                        world: World, killSwitch: bool, observed: bool)
    ensures var context := ContextFor(world.context, killSwitch, observed);
      var (outcome, after) := Handled(py, log, config, account, exit, rule, context, world);
      var live := exit.executionMode == AutoSubmit;
      && (outcome == LiveBlocked <==> live && !Submits(exit, rule, config, world, killSwitch))
      && forall id :: (Calls(after, id) == Calls(log, id) +
           if && id == exit.ruleId && live && Submits(exit, rule, config, world, killSwitch)
              && !world.reply.AttemptNotLogged? then 1 else 0)
  {
    var context := ContextFor(world.context, killSwitch, observed);
    AnswerDecides(exit, rule, config, world, killSwitch, observed);
    HandleIsGuarded(py, log, config, account, exit, rule, context, world);
  }

  /** The condition that each reason complains about, in terms of the factory's
      answer. Without an answer an active switch still gives reasons of its
      own, those of an empty context. */
  predicate FailsOnAnswer(reason: Reason, exit: TriggeredExit, rule: Rule, config: Config, world: World,
                          killSwitch: bool, observed: bool) {
    var answer := world.context;
    var checked := config.hasChecker && (answer.Some? || killSwitch);
    match reason
    case NoGateway => !config.hasExchange
    case NoChecker => !config.hasChecker
    case NoContext => answer.None? && !killSwitch
    case KillSwitchActive => killSwitch
    case MissingKey => checked && !world.hasKey
    case MissingMarket(coin) => checked && answer.Some? && !answer.value.marketExists && coin == rule.coin
    case NoLiveMark => checked && !(if answer.Some? then answer.value.observedLiveMark else observed)
    case NoKillSwitch => checked && answer.Some? && !answer.value.killSwitchAvailable
    case NoDryRunEvidence => checked && answer.Some? && answer.value.dryRunEvents <= 0
    case WrongPhrase =>
      checked && (answer.Some? ==> answer.value.confirmationPhrase != "ENABLE MAINNET AUTO SUBMIT")
    case StaleMark => rule.executionMode == AutoSubmit && world.now > exit.observedAt.instant + config.maxMarkAge
    case CanaryRequired => rule.liveStatus == CanaryPending && !config.canaryMode
    case NeedsManualReview => rule.liveStatus == ManualReview
    case NotLiveEnabled => rule.liveStatus == NotLive
  }

  lemma ReasonsOnAnswer(exit: TriggeredExit, rule: Rule, config: Config, world: World, killSwitch: bool,
                        observed: bool)
    ensures var context := ContextFor(world.context, killSwitch, observed);
      forall r :: (r in BlockedReasons(exit, rule, config, context, world.hasKey, world.now)
        <==> FailsOnAnswer(r, exit, rule, config, world, killSwitch, observed))
  {
    var context := ContextFor(world.context, killSwitch, observed);
    ReasonsAreTheFailures(exit, rule, config, context, world.hasKey, world.now);
    forall r
      ensures Fails(r, exit, rule, config, context, world.hasKey, world.now)
         <==> FailsOnAnswer(r, exit, rule, config, world, killSwitch, observed)
    {
    }
  }
}
