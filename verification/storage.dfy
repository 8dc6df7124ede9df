/** The state codec of storage.py, over JSON trees. */
module Storage {
  import opened Prelude
  import opened Models
  import opened Trailing
  import opened Json
  import opened DaemonState

  // ---------------------------------------------------------------------
  // Enumerations
  // ---------------------------------------------------------------------

  function ModeName(mode: TrailMode): string {
    match mode case Percent => "percent" case Absolute => "absolute" case MovingAverage => "moving_average"
  }

  function OrderTypeName(orderType: ExitOrderType): string {
    match orderType case Market => "market" case Limit => "limit"
  }

  function ExecutionName(mode: ExecutionMode): string {
    match mode case DryRun => "dry_run" case AutoSubmit => "auto_submit"
  }

  function StatusName(status: RuleStatus): string {
    match status case Active => "active" case Disabled => "disabled"
  }

  function LiveName(status: LiveStatus): string {
    match status
    case NotLive => "dry_run"
    case CanaryPending => "canary_pending"
    case CanarySucceeded => "canary_succeeded"
    case NormalLive => "normal_live"
    case ManualReview => "manual_review"
  }

  function SideNamed(name: string): Result<PositionSide> {
    if name == "long" then Success(Long) else if name == "short" then Success(Short)
    else Failure("not a side: " + name)
  }

  function ModeNamed(name: string): Result<TrailMode> {
    if name == "percent" then Success(Percent) else if name == "absolute" then Success(Absolute)
    else if name == "moving_average" then Success(MovingAverage) else Failure("not a trail mode: " + name)
  }

  function OrderTypeNamed(name: string): Result<ExitOrderType> {
    if name == "market" then Success(Market) else if name == "limit" then Success(Limit)
    else Failure("not an order type: " + name)
  }

  function ExecutionNamed(name: string): Result<ExecutionMode> {
    if name == "dry_run" then Success(DryRun) else if name == "auto_submit" then Success(AutoSubmit)
    else Failure("not an execution mode: " + name)
  }

  function StatusNamed(name: string): Result<RuleStatus> {
    if name == "active" then Success(Active) else if name == "disabled" then Success(Disabled)
    else Failure("not a rule status: " + name)
  }

  function LiveNamed(name: string): Result<LiveStatus> {
    if name == "dry_run" then Success(NotLive)
    else if name == "canary_pending" then Success(CanaryPending)
    else if name == "canary_succeeded" then Success(CanarySucceeded)
    else if name == "normal_live" then Success(NormalLive)
    else if name == "manual_review" then Success(ManualReview)
    else Failure("not a live status: " + name)
  }

  // ---------------------------------------------------------------------
  // Small pieces
  // ---------------------------------------------------------------------

  function Number(py: Python, value: real): Json {
    JString(py.show(value))
  }

  function OptionalNumber(py: Python, value: Option<real>): Json {
    match value case Some(d) => Number(py, d) case None => JNull
  }

  /** `Decimal(str(value))` */
  function ParseNumber(py: Python, j: Json): Result<real> {
    match py.parse(Str(py, j))
    case Some(d) => Success(d)
    case None => Failure("not a decimal: " + Str(py, j))
  }

  function ParseOptionalNumber(py: Python, j: Json): Result<Option<real>> {
    if j.JNull? then Success(None)
    else
      var d :- ParseNumber(py, j);
      Success(Some(d))
  }

  /** A comprehension over parsed items, which fails with its first failure. */
  function Traverse<T>(items: seq<Json>, read: Json -> Result<T>): Result<seq<T>> {
    if items == [] then Success([])
    else
      var before :- Traverse(items[..|items| - 1], read);
      var last :- read(items[|items| - 1]);
      Success(before + [last])
  }

  function NumberReader(py: Python): Json -> Result<real> {
    raw => ParseNumber(py, raw)
  }

  /** What a `for` loop over a parsed value visits. */
  function Items(j: Json): Result<seq<Json>> {
    match j
    case JArray(items) => Success(items)
    case JObject(fields) => Success(seq(|fields|, i requires 0 <= i < |fields| => JString(fields[i].key)))
    case JString(text) => Success(seq(|text|, i requires 0 <= i < |text| => JString([text[i]])))
    case _ => Failure("not iterable")
  }

  /** `raw[key]` */
  function Require(raw: Json, key: string): Result<Json> {
    if !raw.JObject? then Failure("not a dict")
    else
      match Get(raw.fields, key)
      case Some(value) => Success(value)
      case None => Failure("missing key: " + key)
  }

  function OptionalText(j: Json): Result<Option<string>> {
    match j
    case JNull => Success(None)
    case JString(text) => Success(Some(text))
    case _ => Failure("not a text")
  }

  /** Later entries of a dict win. */
  function ToMap(fields: seq<Field>): map<string, Json> {
    if fields == [] then map[] else map[fields[0].key := fields[0].value] + ToMap(fields[1..])
  }

  /** `dict(value)` of a dict or of an empty iterable */
  function DictOf(j: Json): Result<map<string, Json>> {
    match j
    case JObject(fields) => Success(ToMap(fields))
    case JArray(items) => if items == [] then Success(map[]) else Failure("not a dict")
    case JString(text) => if text == "" then Success(map[]) else Failure("not a dict")
    case _ => Failure("not a dict")
  }

  function ParseNumberMap(py: Python, fields: seq<Field>): Result<map<string, real>> {
    if fields == [] then Success(map[])
    else
      var first :- ParseNumber(py, fields[0].value);
      var rest :- ParseNumberMap(py, fields[1..]);
      Success(map[fields[0].key := first] + rest)
  }

  function TextMap(py: Python, fields: seq<Field>): map<string, string> {
    if fields == [] then map[]
    else map[fields[0].key := Str(py, fields[0].value)] + TextMap(py, fields[1..])
  }

  function TextSet(items: seq<Json>): Result<set<string>> {
    if items == [] then Success({})
    else if !items[0].JString? then Failure("not a text")
    else
      var rest :- TextSet(items[1..]);
      Success({items[0].text} + rest)
  }

  /** The entries of a map, in the order the file lists them. */
  ghost function FieldsOf(m: map<string, Json>): seq<Field>
    decreases |m|
  {
    if m == map[] then []
    else
      var key :| key in m;
      assert (m - {key}).Keys == m.Keys - {key};
      [Field(key, m[key])] + FieldsOf(m - {key})
  }

  ghost function ItemsOf(ids: set<string>): seq<Json>
    decreases |ids|
  {
    if ids == {} then []
    else
      var id :| id in ids;
      [JString(id)] + ItemsOf(ids - {id})
  }

  // ---------------------------------------------------------------------
  // Encoding
  // ---------------------------------------------------------------------

  function EncodeRule(py: Python, rule: Rule): Json {
    JObject([
      Field("id", JString(rule.id)),
      Field("coin", JString(rule.coin)),
      Field("side", JString(SideName(rule.side))),
      Field("size", Number(py, rule.size)),
      Field("trail_mode", JString(ModeName(rule.trailMode))),
      Field("trail_value", Number(py, rule.trailValue)),
      Field("exit_order_type", JString(OrderTypeName(rule.exitOrderType))),
      Field("execution_mode", JString(ExecutionName(rule.executionMode))),
      Field("status", JString(StatusName(rule.status))),
      Field("live_status", JString(LiveName(rule.liveStatus))),
      Field("attached_order_id",
            match rule.attachedOrderId case Some(id) => JString(id) case None => JNull)])
  }

  function EncodeRuntime(py: Python, id: string, runtime: Runtime): Json {
    JObject([
      Field("rule_id", JString(id)),
      Field("protected_size", Number(py, runtime.protectedSize)),
      Field("favorable_price", OptionalNumber(py, runtime.trail.favorable)),
      Field("stop_price", OptionalNumber(py, runtime.trail.stop)),
      Field("moving_window", JArray(EncodeWindow(py, runtime.trail.window))),
      Field("triggered", JBool(runtime.triggered))])
  }

  function EncodeWindow(py: Python, window: seq<real>): seq<Json> {
    seq(|window|, i requires 0 <= i < |window| => Number(py, window[i]))
  }

  function RuleItems(py: Python, s: State): seq<Json>
    requires Coherent(s)
  {
    seq(|s.order|, i requires 0 <= i < |s.order| => EncodeRule(py, s.rules[s.order[i]]))
  }

  function RuntimeItems(py: Python, s: State): seq<Json>
    requires Coherent(s)
  {
    seq(|s.order|, i requires 0 <= i < |s.order| => EncodeRuntime(py, s.order[i], s.runtimes[s.order[i]]))
  }

  function EncodedFilled(py: Python, filled: map<string, real>): map<string, Json> {
    map key | key in filled :: Number(py, filled[key])
  }

  function EncodedObservedAt(observedAt: map<string, string>): map<string, Json> {
    map key | key in observedAt :: JString(observedAt[key])
  }

  function EncodeReasons(reasons: seq<string>): seq<Json> {
    seq(|reasons|, i requires 0 <= i < |reasons| => JString(reasons[i]))
  }

  function EncodeHealth(health: Health): Json {
    JObject([
      Field("mode", JString(health.mode)),
      Field("last_tick_started_at", health.tickStartedAt),
      Field("last_tick_completed_at", health.tickCompletedAt),
      Field("last_successful_account_snapshot_at", health.accountSnapshotAt),
      Field("last_successful_market_snapshot_at", health.marketSnapshotAt),
      Field("consecutive_failures", JNumber(health.failures as real)),
      Field("active_error", health.activeError),
      Field("active_rules_count", JNumber(health.activeRules as real)),
      Field("last_blocked_reasons", JArray(EncodeReasons(health.blockedReasons)))])
  }

  ghost function EncodeState(py: Python, s: State): Json
    requires Coherent(s)
  {
    JObject([
      Field("schema_version", JNumber(2.0)),
      Field("kill_switch_active", JBool(s.killSwitch)),
      Field("health", EncodeHealth(s.health)),
      Field("last_fill_seen_by_order", JObject(FieldsOf(s.seenFills))),
      Field("filled_size_by_order", JObject(FieldsOf(EncodedFilled(py, s.filledSize)))),
      Field("live_mark_observed_rule_ids", JArray(ItemsOf(s.observedIds))),
      Field("live_mark_observed_at_by_rule", JObject(FieldsOf(EncodedObservedAt(s.observedAt)))),
      Field("rules", JArray(RuleItems(py, s))),
      Field("rule_states", JArray(RuntimeItems(py, s)))])
  }

  // ---------------------------------------------------------------------
  // Decoding
  // ---------------------------------------------------------------------

  function RawRule(py: Python, raw: Json): Result<Rule> {
    var id :- Require(raw, "id");
    var coin :- Require(raw, "coin");
    var sideName :- Require(raw, "side");
    var side :- SideNamed(Str(py, sideName));
    var sizeText :- Require(raw, "size");
    var size :- ParseNumber(py, sizeText);
    var modeName :- Require(raw, "trail_mode");
    var mode :- ModeNamed(Str(py, modeName));
    var valueText :- Require(raw, "trail_value");
    var value :- ParseNumber(py, valueText);
    var orderType :- OrderTypeNamed(Str(py, GetOr(raw.fields, "exit_order_type", JString("market"))));
    var execution :- ExecutionNamed(Str(py, GetOr(raw.fields, "execution_mode", JString("dry_run"))));
    var status :- StatusNamed(Str(py, GetOr(raw.fields, "status", JString("active"))));
    var live :- LiveNamed(Str(py, GetOr(raw.fields, "live_status", JString("dry_run"))));
    var attached :- OptionalText(GetOr(raw.fields, "attached_order_id", JNull));
    Success(Rule(Str(py, id), Str(py, coin), side, size, mode, value, orderType, execution, status, live, attached))
  }

  function DecodeRule(py: Python, raw: Json): Result<Rule> {
    var rule :- RawRule(py, raw);
    MakeRule(rule, "rule_" + py.newId(raw))
  }

  function DecodeRuntime(py: Python, raw: Json, rules: map<string, Rule>): Result<(string, Runtime)> {
    var idText :- Require(raw, "rule_id");
    var id := Str(py, idText);
    if id !in rules then Failure("unknown rule: " + id)
    else
      var protectedSize :- ParseNumber(py, GetOr(raw.fields, "protected_size", JString("0")));
      var favorable :- ParseOptionalNumber(py, GetOr(raw.fields, "favorable_price", JNull));
      var stop :- ParseOptionalNumber(py, GetOr(raw.fields, "stop_price", JNull));
      var windowItems :- Items(GetOr(raw.fields, "moving_window", JArray([])));
      var window :- Traverse(windowItems, NumberReader(py));
      Success((id, Runtime(rules[id], protectedSize, Trail(favorable, stop, window),
                           Truthy(GetOr(raw.fields, "triggered", JBool(false))))))
  }

  function RuleReader(py: Python): Json -> Result<Rule> {
    raw => DecodeRule(py, raw)
  }

  function RuntimeReader(py: Python, rules: map<string, Rule>): Json -> Result<(string, Runtime)> {
    raw => DecodeRuntime(py, raw, rules)
  }

  /** The rule dictionary: a repeated id keeps its first place and its last
      record. */
  function TableOf(rules: seq<Rule>): State {
    if rules == [] then EMPTY_STATE else PutRule(TableOf(rules[..|rules| - 1]), rules[|rules| - 1])
  }

  function RuntimesOf(entries: seq<(string, Runtime)>): map<string, Runtime> {
    if entries == [] then map[]
    else RuntimesOf(entries[..|entries| - 1])[entries[|entries| - 1].0 := entries[|entries| - 1].1]
  }

  function SupportedSchema(version: Json): bool {
    version == JNumber(1.0) || version == JNumber(2.0) || version == JBool(true)
  }

  /** Rules that no `rule_states` entry names start fresh. */
  function Completed(runtimes: map<string, Runtime>, rules: map<string, Rule>): map<string, Runtime> {
    map id | id in rules :: if id in runtimes then runtimes[id] else FreshRuntime(rules[id])
  }

  function DecodeTable(py: Python, raw: Json): Result<State> {
    var value :- Require(raw, "rules");
    var items :- Items(value);
    var rules :- Traverse(items, RuleReader(py));
    Success(TableOf(rules))
  }

  function DecodeRuntimes(py: Python, fields: seq<Field>, rules: map<string, Rule>): Result<map<string, Runtime>> {
    var items :- Items(GetOr(fields, "rule_states", JArray([])));
    var entries :- Traverse(items, RuntimeReader(py, rules));
    Success(Completed(RuntimesOf(entries), rules))
  }

  function DecodeSeen(fields: seq<Field>): Result<map<string, Json>> {
    DictOf(GetOr(fields, "last_fill_seen_by_order", JObject([])))
  }

  function DecodeFilled(py: Python, fields: seq<Field>): Result<map<string, real>> {
    var value := GetOr(fields, "filled_size_by_order", JObject([]));
    if value.JObject? then ParseNumberMap(py, value.fields) else Failure("not a dict")
  }

  function DecodeObserved(fields: seq<Field>): Result<set<string>> {
    var items :- Items(GetOr(fields, "live_mark_observed_rule_ids", JArray([])));
    TextSet(items)
  }

  function DecodeObservedAt(py: Python, fields: seq<Field>): Result<map<string, string>> {
    var value := GetOr(fields, "live_mark_observed_at_by_rule", JObject([]));
    if value.JObject? then Success(TextMap(py, value.fields)) else Failure("not a dict")
  }

  /** `int(value)`, which truncates toward zero */
  function ParseInt(py: Python, j: Json): Result<int> {
    match j
    case JNumber(x) => Success(if x >= 0.0 then x.Floor else -(-x).Floor)
    case JBool(flag) => Success(if flag then 1 else 0)
    case _ => match py.toInt(j) case Some(n) => Success(n) case None => Failure("not an integer")
  }

  function DecodeReasons(py: Python, items: seq<Json>): seq<string> {
    seq(|items|, i requires 0 <= i < |items| => Str(py, items[i]))
  }

  function DecodeHealth(py: Python, raw: Json): Result<Health> {
    if !raw.JObject? then Success(NEW_HEALTH)
    else
      var failures :- ParseInt(py, GetOr(raw.fields, "consecutive_failures", JNumber(0.0)));
      var activeRules :- ParseInt(py, GetOr(raw.fields, "active_rules_count", JNumber(0.0)));
      var reasons :- Items(GetOr(raw.fields, "last_blocked_reasons", JArray([])));
      Success(Health(
        Str(py, GetOr(raw.fields, "mode", JString("idle"))),
        GetOr(raw.fields, "last_tick_started_at", JNull),
        GetOr(raw.fields, "last_tick_completed_at", JNull),
        GetOr(raw.fields, "last_successful_account_snapshot_at", JNull),
        GetOr(raw.fields, "last_successful_market_snapshot_at", JNull),
        failures,
        GetOr(raw.fields, "active_error", JNull),
        activeRules,
        DecodeReasons(py, reasons)))
  }

  function DecodeState(py: Python, raw: Json): Result<State> {
    if !raw.JObject? then Failure("not a dict")
    else if !SupportedSchema(GetOr(raw.fields, "schema_version", JNull)) then Failure("unsupported schema_version")
    else
      var table :- DecodeTable(py, raw);
      var seen :- DecodeSeen(raw.fields);
      var filled :- DecodeFilled(py, raw.fields);
      var observed :- DecodeObserved(raw.fields);
      var observedAt :- DecodeObservedAt(py, raw.fields);
      var health :- DecodeHealth(py, GetOr(raw.fields, "health", JObject([])));
      var runtimes :- DecodeRuntimes(py, raw.fields, table.rules);
      Success(State(table.order, table.rules, runtimes,
                    Truthy(GetOr(raw.fields, "kill_switch_active", JBool(false))),
                    seen, filled, observed, observedAt, health))
  }

  // ---------------------------------------------------------------------
  // Every accepted document is coherent
  // ---------------------------------------------------------------------

  predicate TableCoherent(s: State) {
    && Distinct(s.order)
    && (forall id :: id in s.order ==> id in s.rules)
    && (forall id :: id in s.rules ==> id in s.order)
    && (forall id :: id in s.rules ==> s.rules[id].id == id && WellFormed(s.rules[id]))
  }

  lemma PutRuleKeepsTable(s: State, rule: Rule)
    requires TableCoherent(s) && WellFormed(rule)
    ensures TableCoherent(PutRule(s, rule))
  {
    if rule.id !in s.rules {
      assert rule.id !in s.order;
      DistinctSnoc(s.order, rule.id);
    }
  }

  lemma {:induction false} TraverseReads<T>(items: seq<Json>, read: Json -> Result<T>)
    ensures Traverse(items, read).Success? <==> forall i :: 0 <= i < |items| ==> read(items[i]).Success?
    ensures Traverse(items, read).Success? ==>
      && |Traverse(items, read).value| == |items|
      && forall i :: 0 <= i < |items| ==> read(items[i]) == Success(Traverse(items, read).value[i])
  {
    if items != [] {
      var n := |items| - 1;
      TraverseReads(items[..n], read);
      assert forall i :: 0 <= i < n ==> items[..n][i] == items[i];
      assert forall i :: 0 <= i < |items| ==> i < n || items[i] == items[n];
    }
  }

  lemma {:induction false} TraverseGives<T>(items: seq<Json>, read: Json -> Result<T>, values: seq<T>)
    requires |items| == |values|
    requires forall i :: 0 <= i < |items| ==> read(items[i]) == Success(values[i])
    ensures Traverse(items, read) == Success(values)
  {
    if items != [] {
      var n := |items| - 1;
      TraverseGives(items[..n], read, values[..n]);
      assert values == values[..n] + [values[n]];
    }
  }

  lemma {:induction false} TableIsCoherent(rules: seq<Rule>)
    requires forall i :: 0 <= i < |rules| ==> WellFormed(rules[i])
    ensures TableCoherent(TableOf(rules))
  {
    if rules != [] {
      TableIsCoherent(rules[..|rules| - 1]);
      PutRuleKeepsTable(TableOf(rules[..|rules| - 1]), rules[|rules| - 1]);
    }
  }

  lemma {:induction false} RuntimesUseTheRules(entries: seq<(string, Runtime)>, rules: map<string, Rule>)
    requires forall i :: 0 <= i < |entries| ==>
      entries[i].0 in rules && entries[i].1.rule == rules[entries[i].0]
    ensures forall id :: id in RuntimesOf(entries) ==> id in rules && RuntimesOf(entries)[id].rule == rules[id]
  {
    if entries != [] {
      RuntimesUseTheRules(entries[..|entries| - 1], rules);
    }
  }

  lemma DecodedRuleIsWellFormed(py: Python, raw: Json)
    ensures DecodeRule(py, raw).Success? ==> WellFormed(DecodeRule(py, raw).value)
  {
    if RawRule(py, raw).Success? {
      ConstructionIsAProjection(RawRule(py, raw).value, "rule_" + py.newId(raw), "");
    }
  }

  lemma DecodedRuntimeUsesItsRule(py: Python, raw: Json, rules: map<string, Rule>)
    ensures DecodeRuntime(py, raw, rules).Success? ==>
      var entry := DecodeRuntime(py, raw, rules).value;
      entry.0 in rules && entry.1.rule == rules[entry.0]
  {
  }

  lemma DecodedRulesAreCoherent(py: Python, items: seq<Json>)
    ensures Traverse(items, RuleReader(py)).Success? ==>
      TableCoherent(TableOf(Traverse(items, RuleReader(py)).value))
  {
    if Traverse(items, RuleReader(py)).Success? {
      TraverseReads(items, RuleReader(py));
      var rules := Traverse(items, RuleReader(py)).value;
      forall i | 0 <= i < |rules| ensures WellFormed(rules[i]) {
        assert RuleReader(py)(items[i]) == Success(rules[i]);
        DecodedRuleIsWellFormed(py, items[i]);
      }
      TableIsCoherent(rules);
    }
  }

  lemma DecodedRuntimesUseTheRules(py: Python, items: seq<Json>, rules: map<string, Rule>)
    requires Traverse(items, RuntimeReader(py, rules)).Success?
    ensures var runtimes := RuntimesOf(Traverse(items, RuntimeReader(py, rules)).value);
      forall id :: id in runtimes ==> id in rules && runtimes[id].rule == rules[id]
  {
    TraverseReads(items, RuntimeReader(py, rules));
    var entries := Traverse(items, RuntimeReader(py, rules)).value;
    forall i | 0 <= i < |entries|
      ensures entries[i].0 in rules && entries[i].1.rule == rules[entries[i].0]
    {
      assert RuntimeReader(py, rules)(items[i]) == Success(entries[i]);
      DecodedRuntimeUsesItsRule(py, items[i], rules);
    }
    RuntimesUseTheRules(entries, rules);
  }

  /** Every document the decoder accepts - schema 1, missing fields, repeated
      ids - yields a coherent state. */
  lemma DecodedStateIsCoherent(py: Python, raw: Json)
    requires DecodeState(py, raw).Success?
    ensures Coherent(DecodeState(py, raw).value)
  {
    var s := DecodeState(py, raw).value;
    DecodedRulesAreCoherent(py, Items(Require(raw, "rules").value).value);
    DecodedRuntimesUseTheRules(py, Items(GetOr(raw.fields, "rule_states", JArray([]))).value, s.rules);
    assert s.runtimes.Keys == s.rules.Keys;
    assert forall id :: id in s.rules ==> RecordCoherent(id, s.rules[id], s.runtimes[id]);
  }

  // ---------------------------------------------------------------------
  // Round trip
  // ---------------------------------------------------------------------

  /** `Decimal(str(d)) == d` for this number. */
  predicate Readable(py: Python, d: real) {
    py.parse(py.show(d)) == Some(d)
  }

  predicate ReadableRule(py: Python, rule: Rule) {
    Readable(py, rule.size) && Readable(py, rule.trailValue)
  }

  predicate ReadableRuntime(py: Python, runtime: Runtime) {
    && Readable(py, runtime.protectedSize)
    && (runtime.trail.favorable.Some? ==> Readable(py, runtime.trail.favorable.value))
    && (runtime.trail.stop.Some? ==> Readable(py, runtime.trail.stop.value))
    && forall i :: 0 <= i < |runtime.trail.window| ==> Readable(py, runtime.trail.window[i])
  }

  /** Every decimal of the state is read back as it was printed. */
  predicate ReadableState(py: Python, s: State) {
    && (forall id :: id in s.rules ==> ReadableRule(py, s.rules[id]))
    && (forall id :: id in s.runtimes ==> ReadableRuntime(py, s.runtimes[id]))
    && (forall key :: key in s.filledSize ==> Readable(py, s.filledSize[key]))
  }

  /** Entry `i` is what a lookup of its key finds, if no earlier key equals it. */
  lemma {:induction false} GetAt(fields: seq<Field>, i: nat)
    requires i < |fields|
    requires forall j :: 0 <= j < i ==> fields[j].key != fields[i].key
    ensures Get(fields, fields[i].key) == Some(fields[i].value)
  {
    if i > 0 {
      assert fields[1..][i - 1] == fields[i];
      GetAt(fields[1..], i - 1);
    }
  }

  predicate KeysDiffer(fields: seq<Field>) {
    forall i, j :: 0 <= i < j < |fields| ==> fields[i].key != fields[j].key
  }

  lemma Lookups(fields: seq<Field>)
    requires KeysDiffer(fields)
    ensures forall i :: 0 <= i < |fields| ==> Get(fields, fields[i].key) == Some(fields[i].value)
  {
    forall i | 0 <= i < |fields|
      ensures Get(fields, fields[i].key) == Some(fields[i].value)
    {
      GetAt(fields, i);
    }
  }

  /** What a rule's dict must hold for the rule to be read back. */
  predicate HoldsRule(py: Python, f: seq<Field>, rule: Rule) {
    && Get(f, "id") == Some(JString(rule.id))
    && Get(f, "coin") == Some(JString(rule.coin))
    && Get(f, "side") == Some(JString(SideName(rule.side)))
    && Get(f, "size") == Some(Number(py, rule.size))
    && Get(f, "trail_mode") == Some(JString(ModeName(rule.trailMode)))
    && Get(f, "trail_value") == Some(Number(py, rule.trailValue))
    && Get(f, "exit_order_type") == Some(JString(OrderTypeName(rule.exitOrderType)))
    && Get(f, "execution_mode") == Some(JString(ExecutionName(rule.executionMode)))
    && Get(f, "status") == Some(JString(StatusName(rule.status)))
    && Get(f, "live_status") == Some(JString(LiveName(rule.liveStatus)))
    && Get(f, "attached_order_id")
       == Some(match rule.attachedOrderId case Some(id) => JString(id) case None => JNull)
  }

  lemma RuleKeysDiffer(py: Python, rule: Rule)
    ensures KeysDiffer(EncodeRule(py, rule).fields)
  {
  }

  lemma EncodedRuleHolds(py: Python, rule: Rule)
    ensures HoldsRule(py, EncodeRule(py, rule).fields, rule)
  {
    var f := EncodeRule(py, rule).fields;
    RuleKeysDiffer(py, rule);
    Lookups(f);
    assert f[0].key == "id" && f[1].key == "coin" && f[2].key == "side";
    assert f[3].key == "size" && f[4].key == "trail_mode" && f[5].key == "trail_value";
    assert f[6].key == "exit_order_type" && f[7].key == "execution_mode";
    assert f[8].key == "status" && f[9].key == "live_status" && f[10].key == "attached_order_id";
  }

  lemma NamesRoundTrip()
    ensures forall x :: SideNamed(SideName(x)) == Success(x)
    ensures forall x :: ModeNamed(ModeName(x)) == Success(x)
    ensures forall x :: OrderTypeNamed(OrderTypeName(x)) == Success(x)
    ensures forall x :: ExecutionNamed(ExecutionName(x)) == Success(x)
    ensures forall x :: StatusNamed(StatusName(x)) == Success(x)
    ensures forall x :: LiveNamed(LiveName(x)) == Success(x)
  {
  }

  lemma HeldRuleDecodes(py: Python, f: seq<Field>, rule: Rule)
    requires HoldsRule(py, f, rule) && ReadableRule(py, rule)
    ensures RawRule(py, JObject(f)) == Success(rule)
  {
    NamesRoundTrip();
  }

  lemma RuleRoundTrip(py: Python, rule: Rule)
    requires WellFormed(rule) && ReadableRule(py, rule)
    ensures DecodeRule(py, EncodeRule(py, rule)) == Success(rule)
  {
    var raw := EncodeRule(py, rule);
    EncodedRuleHolds(py, rule);
    HeldRuleDecodes(py, raw.fields, rule);
    assert raw == JObject(raw.fields);
  }

  lemma WindowRoundTrip(py: Python, window: seq<real>)
    requires forall i :: 0 <= i < |window| ==> Readable(py, window[i])
    ensures Traverse(EncodeWindow(py, window), NumberReader(py)) == Success(window)
  {
    TraverseGives(EncodeWindow(py, window), NumberReader(py), window);
  }

  lemma RuntimeRoundTrip(py: Python, id: string, runtime: Runtime, rules: map<string, Rule>)
    requires id in rules && runtime.rule == rules[id] && ReadableRuntime(py, runtime)
    ensures DecodeRuntime(py, EncodeRuntime(py, id, runtime), rules) == Success((id, runtime))
  {
    var raw := EncodeRuntime(py, id, runtime);
    forall i | 0 <= i < |raw.fields|
      ensures Get(raw.fields, raw.fields[i].key) == Some(raw.fields[i].value)
    {
      GetAt(raw.fields, i);
    }
    assert raw.fields[0].key == "rule_id" && raw.fields[1].key == "protected_size";
    assert raw.fields[2].key == "favorable_price" && raw.fields[3].key == "stop_price";
    assert raw.fields[4].key == "moving_window" && raw.fields[5].key == "triggered";
    WindowRoundTrip(py, runtime.trail.window);
  }

  ghost function RulesInOrder(s: State): seq<Rule>
    requires Coherent(s)
  {
    seq(|s.order|, i requires 0 <= i < |s.order| => s.rules[s.order[i]])
  }

  ghost function RuntimesInOrder(s: State): seq<(string, Runtime)>
    requires Coherent(s)
  {
    seq(|s.order|, i requires 0 <= i < |s.order| => (s.order[i], s.runtimes[s.order[i]]))
  }

  predicate IdsDiffer(rules: seq<Rule>) {
    forall i, j :: 0 <= i < j < |rules| ==> rules[i].id != rules[j].id
  }

  lemma {:induction false} TableKeepsOrder(rules: seq<Rule>)
    requires IdsDiffer(rules)
    ensures var t := TableOf(rules);
      && t == EMPTY_STATE.(order := t.order, rules := t.rules)
      && |t.order| == |rules| && (forall i :: 0 <= i < |rules| ==> t.order[i] == rules[i].id)
      && (forall id :: id in t.rules ==> id in t.order)
  {
    if rules != [] {
      var n := |rules| - 1;
      TableKeepsOrder(rules[..n]);
      assert rules[n].id !in TableOf(rules[..n]).order;
    }
  }

  lemma {:induction false} TableKeepsRules(rules: seq<Rule>)
    requires IdsDiffer(rules)
    ensures forall i :: 0 <= i < |rules| ==>
      rules[i].id in TableOf(rules).rules && TableOf(rules).rules[rules[i].id] == rules[i]
  {
    if rules != [] {
      var n := |rules| - 1;
      TableKeepsRules(rules[..n]);
      assert forall i :: 0 <= i < n ==> rules[..n][i] == rules[i];
    }
  }

  lemma {:induction false} RuntimesRebuild(entries: seq<(string, Runtime)>, runtimes: map<string, Runtime>)
    requires forall i :: 0 <= i < |entries| ==>
      entries[i].0 in runtimes && entries[i].1 == runtimes[entries[i].0]
    ensures forall i :: 0 <= i < |entries| ==> entries[i].0 in RuntimesOf(entries)
    ensures forall id :: id in RuntimesOf(entries) ==> id in runtimes && RuntimesOf(entries)[id] == runtimes[id]
  {
    if entries != [] {
      var n := |entries| - 1;
      RuntimesRebuild(entries[..n], runtimes);
      assert forall i :: 0 <= i < n ==> entries[..n][i] == entries[i];
    }
  }

  lemma {:induction false} MapRoundTrip(m: map<string, Json>)
    ensures ToMap(FieldsOf(m)) == m
    decreases |m|
  {
    if m != map[] {
      var fields := FieldsOf(m);
      var key := fields[0].key;
      assert fields[1..] == FieldsOf(m - {key});
      assert (m - {key}).Keys == m.Keys - {key};
      MapRoundTrip(m - {key});
    }
  }

  /** Numbers of a dict, read one by one. */
  lemma {:induction false} NumberMapReads(py: Python, fields: seq<Field>, m: map<string, real>)
    requires forall i :: 0 <= i < |fields| ==>
      fields[i].key in m && ParseNumber(py, fields[i].value) == Success(m[fields[i].key])
    ensures ParseNumberMap(py, fields).Success?
    ensures var r := ParseNumberMap(py, fields).value;
      && r.Keys == ToMap(fields).Keys
      && forall key :: key in r ==> key in m && r[key] == m[key]
  {
    if fields != [] {
      assert forall i :: 0 <= i < |fields| - 1 ==> fields[1..][i] == fields[i + 1];
      NumberMapReads(py, fields[1..], m);
    }
  }

  /** The fields of a map are exactly its entries. */
  lemma {:induction false} FieldsAreEntries(m: map<string, Json>)
    ensures forall i :: 0 <= i < |FieldsOf(m)| ==>
      FieldsOf(m)[i].key in m && FieldsOf(m)[i].value == m[FieldsOf(m)[i].key]
    decreases |m|
  {
    if m != map[] {
      var fields := FieldsOf(m);
      var key := fields[0].key;
      assert fields[1..] == FieldsOf(m - {key});
      assert (m - {key}).Keys == m.Keys - {key};
      FieldsAreEntries(m - {key});
      assert forall i :: 0 < i < |fields| ==> fields[i] == fields[1..][i - 1];
    }
  }

  lemma {:induction false} TextMapIsMap(py: Python, fields: seq<Field>)
    ensures TextMap(py, fields).Keys == ToMap(fields).Keys
    ensures forall key :: key in ToMap(fields) ==> TextMap(py, fields)[key] == Str(py, ToMap(fields)[key])
  {
    if fields != [] {
      TextMapIsMap(py, fields[1..]);
    }
  }

  lemma {:induction false} SetRoundTrip(ids: set<string>)
    ensures TextSet(ItemsOf(ids)) == Success(ids)
    decreases |ids|
  {
    if ids != {} {
      var items := ItemsOf(ids);
      var id := items[0].text;
      assert id in ids && items == [JString(id)] + ItemsOf(ids - {id});
      assert items[1..] == ItemsOf(ids - {id});
      SetRoundTrip(ids - {id});
      assert {id} + (ids - {id}) == ids;
    }
  }

  lemma FilledRoundTrip(py: Python, filled: map<string, real>)
    requires forall key :: key in filled ==> Readable(py, filled[key])
    ensures ParseNumberMap(py, FieldsOf(EncodedFilled(py, filled))) == Success(filled)
  {
    var m := EncodedFilled(py, filled);
    MapRoundTrip(m);
    FieldsAreEntries(m);
    NumberMapReads(py, FieldsOf(m), filled);
    assert ParseNumberMap(py, FieldsOf(m)).value == filled;
  }

  lemma ObservedAtRoundTrip(py: Python, observedAt: map<string, string>)
    ensures TextMap(py, FieldsOf(EncodedObservedAt(observedAt))) == observedAt
  {
    var m := EncodedObservedAt(observedAt);
    MapRoundTrip(m);
    TextMapIsMap(py, FieldsOf(m));
  }

  lemma HealthFieldsHold(health: Health)
    ensures KeysDiffer(EncodeHealth(health).fields)
  {
  }

  lemma HealthRoundTrip(py: Python, health: Health)
    ensures DecodeHealth(py, EncodeHealth(health)) == Success(health)
  {
    var f := EncodeHealth(health).fields;
    HealthFieldsHold(health);
    Lookups(f);
    assert f[0].key == "mode" && f[1].key == "last_tick_started_at" && f[2].key == "last_tick_completed_at";
    assert f[3].key == "last_successful_account_snapshot_at";
    assert f[4].key == "last_successful_market_snapshot_at" && f[5].key == "consecutive_failures";
    assert f[6].key == "active_error" && f[7].key == "active_rules_count" && f[8].key == "last_blocked_reasons";
    assert DecodeReasons(py, EncodeReasons(health.blockedReasons)) == health.blockedReasons;
    IntRoundTrip(py, health.failures);
    IntRoundTrip(py, health.activeRules);
  }

  lemma IntRoundTrip(py: Python, n: int)
    ensures ParseInt(py, JNumber(n as real)) == Success(n)
  {
    assert (n as real).Floor == n && -(n as real) == (-n) as real && ((-n) as real).Floor == -n;
  }

  /** What a state's dict must hold for the state to be read back. */
  ghost predicate HoldsState(py: Python, f: seq<Field>, s: State)
    requires Coherent(s)
  {
    && Get(f, "schema_version") == Some(JNumber(2.0))
    && Get(f, "kill_switch_active") == Some(JBool(s.killSwitch))
    && Get(f, "health") == Some(EncodeHealth(s.health))
    && Get(f, "last_fill_seen_by_order") == Some(JObject(FieldsOf(s.seenFills)))
    && Get(f, "filled_size_by_order") == Some(JObject(FieldsOf(EncodedFilled(py, s.filledSize))))
    && Get(f, "live_mark_observed_rule_ids") == Some(JArray(ItemsOf(s.observedIds)))
    && Get(f, "live_mark_observed_at_by_rule") == Some(JObject(FieldsOf(EncodedObservedAt(s.observedAt))))
    && Get(f, "rules") == Some(JArray(RuleItems(py, s)))
    && Get(f, "rule_states") == Some(JArray(RuntimeItems(py, s)))
  }

  lemma StateKeysDiffer(py: Python, s: State)
    requires Coherent(s)
    ensures KeysDiffer(EncodeState(py, s).fields)
  {
  }

  lemma EncodedStateHolds(py: Python, s: State)
    requires Coherent(s)
    ensures HoldsState(py, EncodeState(py, s).fields, s)
  {
    var f := EncodeState(py, s).fields;
    StateKeysDiffer(py, s);
    Lookups(f);
    assert f[0].key == "schema_version" && f[1].key == "kill_switch_active";
    assert f[2].key == "health" && f[3].key == "last_fill_seen_by_order" && f[4].key == "filled_size_by_order";
    assert f[5].key == "live_mark_observed_rule_ids" && f[6].key == "live_mark_observed_at_by_rule";
    assert f[7].key == "rules" && f[8].key == "rule_states";
  }

  lemma AllRulesRoundTrip(py: Python, s: State)
    requires Coherent(s) && ReadableState(py, s)
    ensures Traverse(RuleItems(py, s), RuleReader(py)) == Success(RulesInOrder(s))
  {
    forall i | 0 <= i < |s.order|
      ensures RuleReader(py)(RuleItems(py, s)[i]) == Success(RulesInOrder(s)[i])
    {
      var id := s.order[i];
      assert RecordCoherent(id, s.rules[id], s.runtimes[id]);
      RuleRoundTrip(py, s.rules[id]);
    }
    TraverseGives(RuleItems(py, s), RuleReader(py), RulesInOrder(s));
  }

  lemma AllRuntimesRoundTrip(py: Python, s: State)
    requires Coherent(s) && ReadableState(py, s)
    ensures Traverse(RuntimeItems(py, s), RuntimeReader(py, s.rules)) == Success(RuntimesInOrder(s))
  {
    forall i | 0 <= i < |s.order|
      ensures RuntimeReader(py, s.rules)(RuntimeItems(py, s)[i]) == Success(RuntimesInOrder(s)[i])
    {
      var id := s.order[i];
      assert RecordCoherent(id, s.rules[id], s.runtimes[id]);
      RuntimeRoundTrip(py, id, s.runtimes[id], s.rules);
    }
    TraverseGives(RuntimeItems(py, s), RuntimeReader(py, s.rules), RuntimesInOrder(s));
  }

  lemma RulesRebuild(s: State)
    requires Coherent(s)
    ensures TableOf(RulesInOrder(s)) == EMPTY_STATE.(order := s.order, rules := s.rules)
  {
    var rules := RulesInOrder(s);
    var table := TableOf(rules);
    forall i | 0 <= i < |s.order| ensures rules[i].id == s.order[i] {
      assert RecordCoherent(s.order[i], rules[i], s.runtimes[s.order[i]]);
    }
    assert IdsDiffer(rules);
    TableKeepsOrder(rules);
    TableKeepsRules(rules);
    assert table.order == s.order;
    forall id | id in s.rules ensures id in table.rules && table.rules[id] == s.rules[id] {
      var i :| 0 <= i < |s.order| && s.order[i] == id;
      assert rules[i].id == id;
    }
    assert table.rules == s.rules;
  }

  lemma RuntimesInOrderRebuild(s: State)
    requires Coherent(s)
    ensures Completed(RuntimesOf(RuntimesInOrder(s)), s.rules) == s.runtimes
  {
    var entries := RuntimesInOrder(s);
    RuntimesRebuild(entries, s.runtimes);
    forall id | id in s.rules ensures id in RuntimesOf(entries) {
      var i :| 0 <= i < |s.order| && s.order[i] == id;
      assert entries[i].0 == id;
    }
  }

  lemma HeldTableDecodes(py: Python, f: seq<Field>, s: State)
    requires Coherent(s) && ReadableState(py, s) && HoldsState(py, f, s)
    ensures DecodeTable(py, JObject(f)) == Success(EMPTY_STATE.(order := s.order, rules := s.rules))
  {
    AllRulesRoundTrip(py, s);
    RulesRebuild(s);
  }

  lemma HeldRuntimesDecode(py: Python, f: seq<Field>, s: State)
    requires Coherent(s) && ReadableState(py, s) && HoldsState(py, f, s)
    ensures DecodeRuntimes(py, f, s.rules) == Success(s.runtimes)
  {
    AllRuntimesRoundTrip(py, s);
    RuntimesInOrderRebuild(s);
  }

  lemma HeldFillsDecode(py: Python, f: seq<Field>, s: State)
    requires Coherent(s) && ReadableState(py, s) && HoldsState(py, f, s)
    ensures DecodeSeen(f) == Success(s.seenFills)
    ensures DecodeFilled(py, f) == Success(s.filledSize)
  {
    MapRoundTrip(s.seenFills);
    FilledRoundTrip(py, s.filledSize);
  }

  lemma HeldMarksDecode(py: Python, f: seq<Field>, s: State)
    requires Coherent(s) && HoldsState(py, f, s)
    ensures DecodeObserved(f) == Success(s.observedIds)
    ensures DecodeObservedAt(py, f) == Success(s.observedAt)
  {
    SetRoundTrip(s.observedIds);
    ObservedAtRoundTrip(py, s.observedAt);
  }

  lemma HeldStateDecodes(py: Python, f: seq<Field>, s: State)
    requires Coherent(s) && ReadableState(py, s) && HoldsState(py, f, s)
    ensures DecodeState(py, JObject(f)) == Success(s)
  {
    HeldTableDecodes(py, f, s);
    HeldRuntimesDecode(py, f, s);
    HeldFillsDecode(py, f, s);
    HeldMarksDecode(py, f, s);
    HealthRoundTrip(py, s.health);
  }

  /** Saving a coherent state and loading it gives the same state back. */
  lemma StateRoundTrip(py: Python, s: State)
    requires Coherent(s) && ReadableState(py, s)
    ensures DecodeState(py, EncodeState(py, s)) == Success(s)
  {
    var raw := EncodeState(py, s);
    EncodedStateHolds(py, s);
    HeldStateDecodes(py, raw.fields, s);
    assert raw == JObject(raw.fields);
  }

  /** Whatever document was accepted, saving what it meant and loading that
      again means the same: decoding normalises once. */
  lemma DecodingIsAFixpoint(py: Python, raw: Json)
    requires DecodeState(py, raw).Success? && ReadableState(py, DecodeState(py, raw).value)
    ensures Coherent(DecodeState(py, raw).value)
    ensures DecodeState(py, EncodeState(py, DecodeState(py, raw).value)) == DecodeState(py, raw)
  {
    DecodedStateIsCoherent(py, raw);
    StateRoundTrip(py, DecodeState(py, raw).value);
  }

  // ---------------------------------------------------------------------
  // The loading loops
  // ---------------------------------------------------------------------

  lemma TraverseGoesOn<T>(items: seq<Json>, i: nat, read: Json -> Result<T>)
    requires i < |items| && Traverse(items[..i], read).Success? && read(items[i]).Success?
    ensures Traverse(items[..i + 1], read) == Success(Traverse(items[..i], read).value + [read(items[i]).value])
  {
    assert items[..i + 1][..i] == items[..i];
  }

  lemma TraverseFails<T>(items: seq<Json>, i: nat, read: Json -> Result<T>)
    requires i < |items| && read(items[i]).Failure?
    ensures Traverse(items, read).Failure?
  {
    TraverseReads(items, read);
  }

  lemma RuntimesGoOn(entries: seq<(string, Runtime)>, entry: (string, Runtime))
    ensures RuntimesOf(entries + [entry]) == RuntimesOf(entries)[entry.0 := entry.1]
  {
    assert (entries + [entry])[..|entries|] == entries;
  }

  /** The two loops of `_decode_state` that fill the runtime dictionary. */
  method FillRuntimes(py: Python, table: State, items: seq<Json>) returns (r: Result<map<string, Runtime>>)
    requires TableCoherent(table)
    ensures r.Success? <==> Traverse(items, RuntimeReader(py, table.rules)).Success?
    ensures r.Success? ==>
      r.value == Completed(RuntimesOf(Traverse(items, RuntimeReader(py, table.rules)).value), table.rules)
  {
    var decoded := CollectRuntimes(py, table.rules, items);
    if decoded.Failure? {
      return Failure(decoded.error);
    }
    DecodedRuntimesUseTheRules(py, items, table.rules);
    var runtimes := FillMissing(table, decoded.value);
    return Success(runtimes);
  }

  method CollectRuntimes(py: Python, rules: map<string, Rule>, items: seq<Json>)
    returns (r: Result<map<string, Runtime>>)
    ensures r.Success? <==> Traverse(items, RuntimeReader(py, rules)).Success?
    ensures r.Success? ==> r.value == RuntimesOf(Traverse(items, RuntimeReader(py, rules)).value)
  {
    ghost var read := RuntimeReader(py, rules);
    var runtimes: map<string, Runtime> := map[];
    for i := 0 to |items|
      invariant Traverse(items[..i], read).Success?
      invariant runtimes == RuntimesOf(Traverse(items[..i], read).value)
    {
      var entry := DecodeRuntime(py, items[i], rules);
      assert entry == read(items[i]);
      if entry.Failure? {
        TraverseFails(items, i, read);
        return Failure(entry.error);
      }
      TraverseGoesOn(items, i, read);
      RuntimesGoOn(Traverse(items[..i], read).value, entry.value);
      runtimes := runtimes[entry.value.0 := entry.value.1];
    }
    assert items[..|items|] == items;
    return Success(runtimes);
  }

  method FillMissing(table: State, decoded: map<string, Runtime>) returns (runtimes: map<string, Runtime>)
    requires TableCoherent(table) && forall id :: id in decoded ==> id in table.rules
    ensures runtimes == Completed(decoded, table.rules)
  {
    runtimes := decoded;
    for i := 0 to |table.order|
      invariant forall k :: 0 <= k < i ==> table.order[k] in runtimes
      invariant forall id :: id in decoded ==> id in runtimes
      invariant forall id :: id in runtimes ==>
        && id in table.rules
        && runtimes[id] == if id in decoded then decoded[id] else FreshRuntime(table.rules[id])
    {
      var rule := table.rules[table.order[i]];
      assert rule.id == table.order[i];
      if rule.id !in runtimes {
        runtimes := runtimes[rule.id := FreshRuntime(rule)];
      }
    }
  }
}
