/** The records of models.py and of the two gateway snapshots. */
module Models {
  import opened Prelude

  datatype PositionSide = Long | Short

  function SideName(side: PositionSide): string {
    match side case Long => "long" case Short => "short"
  }

  datatype TrailMode = Percent | Absolute | MovingAverage

  datatype ExitOrderType = Market | Limit

  datatype ExecutionMode = DryRun | AutoSubmit

  datatype PriceSource = MarkPrice | MidPrice

  datatype RuleStatus = Active | Disabled

  datatype LiveStatus = NotLive | CanaryPending | CanarySucceeded | NormalLive | ManualReview

  datatype Rule = Rule(
    id: string,
    coin: string,
    side: PositionSide,
    size: real,
    trailMode: TrailMode,
    trailValue: real,
    exitOrderType: ExitOrderType,
    executionMode: ExecutionMode,
    status: RuleStatus,
    liveStatus: LiveStatus,
    attachedOrderId: Option<string>
  )

  /** A clock reading together with the ISO text stored for it. */
  datatype Timestamp = Timestamp(instant: int, text: string)

  datatype PriceTick = PriceTick(coin: string, mark: real, observedAt: Timestamp, source: PriceSource)

  datatype CloseSide = Sell | Buy

  datatype TriggeredExit = TriggeredExit(
    ruleId: string,
    coin: string,
    side: CloseSide,
    size: real,
    mark: real,
    stop: real,
    executionMode: ExecutionMode,
    exitOrderType: ExitOrderType,
    observedAt: Timestamp
  )

  datatype Position = Position(coin: string, side: PositionSide, size: real)

  /** `sizeText` is the text the source prints for `size`. */
  datatype Fill = Fill(
    coin: string,
    side: PositionSide,
    orderId: string,
    size: real,
    sizeText: string,
    fillId: Option<string>
  )

  datatype Account = Account(positions: seq<Position>, fills: seq<Fill>)

  /** The live status that construction forces on a rule. */
  function Normalised(rule: Rule): Rule {
    if rule.executionMode == DryRun then rule.(liveStatus := NotLive)
    else if rule.liveStatus == NotLive then rule.(liveStatus := CanaryPending)
    else rule
  }

  /** Construction of a rule: a missing id is generated, the live status is
      forced, and the numbers are validated. */
  function MakeRule(raw: Rule, generatedId: string): Result<Rule> {
    var rule := Normalised(if raw.id == "" then raw.(id := generatedId) else raw);
    if rule.size <= 0.0 then Failure("size must be positive")
    else if rule.trailValue <= 0.0 then Failure("trail_value must be positive")
    else if rule.trailMode == Percent && rule.trailValue >= 100.0 then
      Failure("percent trail_value must be less than 100")
    else Success(rule)
  }

  predicate ValidNumbers(rule: Rule) {
    && rule.size > 0.0
    && rule.trailValue > 0.0
    && (rule.trailMode == Percent ==> rule.trailValue < 100.0)
  }

  /** What every constructed rule satisfies. */
  predicate WellFormed(rule: Rule) {
    && rule.id != ""
    && ValidNumbers(rule)
    && (rule.executionMode == DryRun <==> rule.liveStatus == NotLive)
  }

  /** Construction succeeds exactly on valid numbers. What it builds is well
      formed and differs from the request only in a missing id and in the live
      status: dry-run rules have none, live ones without one await their canary.
      Building it again changes nothing. */
  lemma ConstructionIsAProjection(raw: Rule, generatedId: string, otherId: string)
    requires generatedId != ""
    ensures MakeRule(raw, generatedId).Success? <==> ValidNumbers(raw)
    ensures MakeRule(raw, generatedId).Success? ==>
      var rule := MakeRule(raw, generatedId).value;
      && WellFormed(rule)
      && rule == raw.(id := if raw.id == "" then generatedId else raw.id, liveStatus := rule.liveStatus)
      && rule.liveStatus == (match raw.executionMode
                             case DryRun => NotLive
                             case AutoSubmit => if raw.liveStatus == NotLive then CanaryPending else raw.liveStatus)
      && MakeRule(rule, otherId) == Success(rule)
    ensures WellFormed(raw) ==> MakeRule(raw, generatedId) == Success(raw)
  {
  }

  /** `dataclasses.replace` on the live status runs construction again. */
  function WithLiveStatus(rule: Rule, liveStatus: LiveStatus): Rule {
    Normalised(rule.(liveStatus := liveStatus))
  }

  predicate Attached(rule: Rule) {
    rule.attachedOrderId.Some? && rule.attachedOrderId.value != ""
  }
}
