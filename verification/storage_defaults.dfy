/** What the decoder makes of documents that lack fields, repeat ids, or come
    from another schema, over the literal names and values of the file format. */
module StorageDefaults {
  import opened Prelude
  import opened Models
  import opened Trailing
  import opened Json
  import opened DaemonState
  import opened Storage

  // ---------------------------------------------------------------------
  // Names
  // ---------------------------------------------------------------------

  /** The texts of the file format, and no others, name an enumeration's values. */
  lemma NamesOfTheFormat(name: string)
    ensures SideNamed(name).Success? <==> name == "long" || name == "short"
    ensures ModeNamed(name).Success? <==> name == "percent" || name == "absolute" || name == "moving_average"
    ensures OrderTypeNamed(name).Success? <==> name == "market" || name == "limit"
    ensures ExecutionNamed(name).Success? <==> name == "dry_run" || name == "auto_submit"
    ensures StatusNamed(name).Success? <==> name == "active" || name == "disabled"
    ensures LiveNamed(name).Success? <==>
      || name == "dry_run" || name == "canary_pending" || name == "canary_succeeded" || name == "normal_live"
      || name == "manual_review"
    ensures SideName(Long) == "long" && ModeName(Percent) == "percent" && ModeName(Absolute) == "absolute"
    ensures OrderTypeName(Market) == "market" && ExecutionName(DryRun) == "dry_run" && StatusName(Active) == "active"
    ensures LiveName(NotLive) == "dry_run" && LiveName(CanaryPending) == "canary_pending"
    ensures LiveName(CanarySucceeded) == "canary_succeeded" && LiveName(NormalLive) == "normal_live"
  {
    NamesRoundTrip();
  }

  // ---------------------------------------------------------------------
  // Rules
  // ---------------------------------------------------------------------

  /** A rule's dict with its six required fields only. */
  function LeastRule(id: Json, coin: Json, side: Json, size: Json, mode: Json, value: Json): seq<Field> {
    [Field("id", id), Field("coin", coin), Field("side", side), Field("size", size),
     Field("trail_mode", mode), Field("trail_value", value)]
  }

  lemma LeastRuleHolds(id: Json, coin: Json, side: Json, size: Json, mode: Json, value: Json)
    ensures var f := LeastRule(id, coin, side, size, mode, value);
      && Get(f, "id") == Some(id) && Get(f, "coin") == Some(coin) && Get(f, "side") == Some(side)
      && Get(f, "size") == Some(size) && Get(f, "trail_mode") == Some(mode) && Get(f, "trail_value") == Some(value)
  {
    var f := LeastRule(id, coin, side, size, mode, value);
    Lookups(f);
    assert f[0].key == "id" && f[1].key == "coin" && f[2].key == "side";
    assert f[3].key == "size" && f[4].key == "trail_mode" && f[5].key == "trail_value";
  }

  lemma {:induction false} GetNothing(f: seq<Field>, key: string)
    requires forall i :: 0 <= i < |f| ==> f[i].key != key
    ensures Get(f, key) == None
  {
    if f != [] {
      assert forall i :: 0 <= i < |f| - 1 ==> f[1..][i] == f[i + 1];
      GetNothing(f[1..], key);
    }
  }

  lemma LeastRuleLacks(f: seq<Field>, id: Json, coin: Json, side: Json, size: Json, mode: Json, value: Json)
    requires f == LeastRule(id, coin, side, size, mode, value)
    ensures Get(f, "exit_order_type") == None && Get(f, "execution_mode") == None && Get(f, "status") == None
    ensures Get(f, "live_status") == None && Get(f, "attached_order_id") == None
  {
    GetNothing(f, "exit_order_type");
    GetNothing(f, "execution_mode");
    GetNothing(f, "status");
    GetNothing(f, "live_status");
    GetNothing(f, "attached_order_id");
  }

  /** Without the other five a rule is an active dry-run market rule that
      follows no order. */
  lemma MissingRuleFields(py: Python, id: string, coin: string, side: PositionSide, size: Json, d: real,
                          mode: TrailMode, value: Json, v: real)
    requires py.parse(Str(py, size)) == Some(d) && py.parse(Str(py, value)) == Some(v)
    ensures var sideText := if side == Long then "long" else "short";
      var modeText := match mode
        case Percent => "percent"
        case Absolute => "absolute"
        case MovingAverage => "moving_average";
      var raw := JObject(LeastRule(JString(id), JString(coin), JString(sideText), size, JString(modeText), value));
      DecodeRule(py, raw)
      == MakeRule(Rule(id, coin, side, d, mode, v, Market, DryRun, Active, NotLive, None), "rule_" + py.newId(raw))
  {
    var sideText, modeText := SideName(side), ModeName(mode);
    var f := LeastRule(JString(id), JString(coin), JString(sideText), size, JString(modeText), value);
    LeastRuleHolds(JString(id), JString(coin), JString(sideText), size, JString(modeText), value);
    LeastRuleLacks(f, JString(id), JString(coin), JString(sideText), size, JString(modeText), value);
    NamesRoundTrip();
  }

  /** Each of the six is required. */
  lemma RequiredRuleFields(py: Python, f: seq<Field>)
    requires || Get(f, "id") == None || Get(f, "coin") == None || Get(f, "side") == None
             || Get(f, "size") == None || Get(f, "trail_mode") == None || Get(f, "trail_value") == None
    ensures DecodeRule(py, JObject(f)).Failure?
  {
  }

  // ---------------------------------------------------------------------
  // Runtimes
  // ---------------------------------------------------------------------

  /** A runtime's dict with nothing but a known rule's id is a fresh runtime, and
      one for an unknown rule is refused. */
  lemma MissingRuntimeFields(py: Python, id: string, rules: map<string, Rule>)
    requires py.parse("0") == Some(0.0)
    ensures var raw := JObject([Field("rule_id", JString(id))]);
      && (id in rules ==>
            DecodeRuntime(py, raw, rules) == Success((id, Runtime(rules[id], 0.0, Trail(None, None, []), false))))
      && (id !in rules ==> DecodeRuntime(py, raw, rules).Failure?)
  {
    var f := [Field("rule_id", JString(id))];
    assert f[0].key == "rule_id" && Get(f, "rule_id") == Some(JString(id));
    GetNothing(f, "protected_size");
    GetNothing(f, "favorable_price");
    GetNothing(f, "stop_price");
    GetNothing(f, "moving_window");
    GetNothing(f, "triggered");
    assert Traverse([], NumberReader(py)) == Success([]);
  }

  /** Where a runtime's parts stand in its dict. */
  lemma FieldsOfARuntime(py: Python, id: string, runtime: Runtime)
    ensures var f := EncodeRuntime(py, id, runtime).fields;
      && Get(f, "rule_id") == Some(JString(id))
      && Get(f, "protected_size") == Some(Number(py, runtime.protectedSize))
      && Get(f, "favorable_price") == Some(OptionalNumber(py, runtime.trail.favorable))
      && Get(f, "stop_price") == Some(OptionalNumber(py, runtime.trail.stop))
      && Get(f, "moving_window") == Some(JArray(EncodeWindow(py, runtime.trail.window)))
      && Get(f, "triggered") == Some(JBool(runtime.triggered))
  {
    var f := EncodeRuntime(py, id, runtime).fields;
    Lookups(f);
    assert f[0].key == "rule_id" && f[1].key == "protected_size" && f[2].key == "favorable_price";
    assert f[3].key == "stop_price" && f[4].key == "moving_window" && f[5].key == "triggered";
  }

  // ---------------------------------------------------------------------
  // Health
  // ---------------------------------------------------------------------

  /** Where a health record's parts stand in its dict. */
  lemma FieldsOfHealth(health: Health)
    ensures var f := EncodeHealth(health).fields;
      && Get(f, "mode") == Some(JString(health.mode))
      && Get(f, "last_tick_started_at") == Some(health.tickStartedAt)
      && Get(f, "last_tick_completed_at") == Some(health.tickCompletedAt)
      && Get(f, "last_successful_account_snapshot_at") == Some(health.accountSnapshotAt)
      && Get(f, "last_successful_market_snapshot_at") == Some(health.marketSnapshotAt)
      && Get(f, "consecutive_failures") == Some(JNumber(health.failures as real))
      && Get(f, "active_error") == Some(health.activeError)
      && Get(f, "active_rules_count") == Some(JNumber(health.activeRules as real))
      && Get(f, "last_blocked_reasons") == Some(JArray(EncodeReasons(health.blockedReasons)))
  {
    var f := EncodeHealth(health).fields;
    HealthFieldsHold(health);
    Lookups(f);
    assert f[0].key == "mode" && f[1].key == "last_tick_started_at" && f[2].key == "last_tick_completed_at";
    assert f[3].key == "last_successful_account_snapshot_at";
    assert f[4].key == "last_successful_market_snapshot_at" && f[5].key == "consecutive_failures";
    assert f[6].key == "active_error" && f[7].key == "active_rules_count" && f[8].key == "last_blocked_reasons";
  }

  /** A health record that is no dict, or an empty one, is a new one. */
  lemma MissingHealth(py: Python, raw: Json)
    requires !raw.JObject? || raw == JObject([])
    ensures DecodeHealth(py, raw) == Success(Health("idle", JNull, JNull, JNull, JNull, 0, JNull, 0, []))
  {
    if raw == JObject([]) {
      LeastHealth(py);
    }
  }

  /** Counters lose their fraction toward zero. */
  lemma CountersTruncate(py: Python, x: real)
    ensures var n := ParseInt(py, JNumber(x));
      && n.Success?
      && (x >= 0.0 ==> 0 <= n.value && n.value as real <= x < (n.value + 1) as real)
      && (x < 0.0 ==> n.value <= 0 && (n.value - 1) as real < x <= n.value as real)
  {
  }

  // ---------------------------------------------------------------------
  // States
  // ---------------------------------------------------------------------

  /** States are written as schema 2. */
  lemma WrittenSchema(py: Python, s: State)
    requires Coherent(s)
    ensures Get(EncodeState(py, s).fields, "schema_version") == Some(JNumber(2.0))
  {
    EncodedStateHolds(py, s);
  }

  /** Only schemas 1 and 2 are read (`true` is 1 to the source), and only with a
      list of rules. */
  lemma AcceptedSchemas(py: Python, f: seq<Field>)
    ensures DecodeState(py, JObject(f)).Success? ==>
      && Get(f, "rules").Some?
      && (|| Get(f, "schema_version") == Some(JNumber(1.0)) || Get(f, "schema_version") == Some(JNumber(2.0))
          || Get(f, "schema_version") == Some(JBool(true)))
  {
  }

  /** An empty document of either schema is an empty state with the switch off. */
  lemma LeastState(py: Python, version: Json)
    ensures var raw := JObject([Field("schema_version", version), Field("rules", JArray([]))]);
      DecodeState(py, raw) ==
        if version == JNumber(1.0) || version == JNumber(2.0) || version == JBool(true)
        then Success(State([], map[], map[], false, map[], map[], {}, map[],
                           Health("idle", JNull, JNull, JNull, JNull, 0, JNull, 0, [])))
        else Failure("unsupported schema_version")
  {
    var f := [Field("schema_version", version), Field("rules", JArray([]))];
    Lookups(f);
    assert f[0].key == "schema_version" && f[1].key == "rules";
    assert Get(f, "schema_version") == Some(version) && Get(f, "rules") == Some(JArray([]));
    LeastStateLacks(f, version);
    assert Traverse([], RuleReader(py)) == Success([]);
    LeastHealth(py);
    var none: map<string, Rule> := map[];
    assert Traverse([], RuntimeReader(py, none)) == Success([]);
    assert Completed(map[], none) == map[];
  }

  lemma LeastStateLacks(f: seq<Field>, version: Json)
    requires f == [Field("schema_version", version), Field("rules", JArray([]))]
    ensures Get(f, "kill_switch_active") == None && Get(f, "last_fill_seen_by_order") == None
    ensures Get(f, "filled_size_by_order") == None && Get(f, "live_mark_observed_rule_ids") == None
    ensures Get(f, "live_mark_observed_at_by_rule") == None && Get(f, "health") == None && Get(f, "rule_states") == None
  {
    GetNothing(f, "kill_switch_active");
    GetNothing(f, "last_fill_seen_by_order");
    GetNothing(f, "filled_size_by_order");
    GetNothing(f, "live_mark_observed_rule_ids");
    GetNothing(f, "live_mark_observed_at_by_rule");
    GetNothing(f, "health");
    GetNothing(f, "rule_states");
  }

  lemma LeastHealth(py: Python)
    ensures DecodeHealth(py, JObject([])) == Success(Health("idle", JNull, JNull, JNull, JNull, 0, JNull, 0, []))
  {
    assert DecodeReasons(py, []) == [];
  }

  lemma MissingMaps(py: Python, f: seq<Field>)
    ensures Get(f, "last_fill_seen_by_order") == None ==> DecodeSeen(f) == Success(map[])
    ensures Get(f, "filled_size_by_order") == None ==> DecodeFilled(py, f) == Success(map[])
    ensures Get(f, "live_mark_observed_rule_ids") == None ==> DecodeObserved(f) == Success({})
    ensures Get(f, "live_mark_observed_at_by_rule") == None ==> DecodeObservedAt(py, f) == Success(map[])
  {
  }

  /** In any accepted document a missing switch is off, a present one is on unless
      its value is null, false, zero or empty, and missing maps are empty. */
  lemma MissingStateFields(py: Python, f: seq<Field>)
    requires DecodeState(py, JObject(f)).Success?
    ensures var s := DecodeState(py, JObject(f)).value;
      && (s.killSwitch <==> Get(f, "kill_switch_active").Some? && !IsFalsy(Get(f, "kill_switch_active").value))
      && (Get(f, "last_fill_seen_by_order") == None ==> s.seenFills == map[])
      && (Get(f, "filled_size_by_order") == None ==> s.filledSize == map[])
      && (Get(f, "live_mark_observed_rule_ids") == None ==> s.observedIds == {})
      && (Get(f, "live_mark_observed_at_by_rule") == None ==> s.observedAt == map[])
  {
    DecodedParts(py, f);
    MissingMaps(py, f);
    SwitchIsRead(f);
  }

  /** The parts an accepted document is decoded from. */
  lemma DecodedParts(py: Python, f: seq<Field>)
    requires DecodeState(py, JObject(f)).Success?
    ensures var s := DecodeState(py, JObject(f)).value;
      && s.killSwitch == Truthy(GetOr(f, "kill_switch_active", JBool(false)))
      && DecodeSeen(f) == Success(s.seenFills) && DecodeFilled(py, f) == Success(s.filledSize)
      && DecodeObserved(f) == Success(s.observedIds) && DecodeObservedAt(py, f) == Success(s.observedAt)
      && DecodeRuntimes(py, f, s.rules) == Success(s.runtimes)
  {
  }

  lemma SwitchIsRead(f: seq<Field>)
    ensures Truthy(GetOr(f, "kill_switch_active", JBool(false)))
       <==> Get(f, "kill_switch_active").Some? && !IsFalsy(Get(f, "kill_switch_active").value)
  {
  }

  /** Without `rule_states` every rule starts fresh: nothing protected, no price
      seen, not triggered. */
  lemma MissingRuntimes(py: Python, f: seq<Field>)
    requires DecodeState(py, JObject(f)).Success? && Get(f, "rule_states") == None
    ensures var s := DecodeState(py, JObject(f)).value;
      && s.runtimes.Keys == s.rules.Keys
      && forall id :: id in s.rules ==> s.runtimes[id] == Runtime(s.rules[id], 0.0, Trail(None, None, []), false)
  {
    var rules := DecodeState(py, JObject(f)).value.rules;
    DecodedParts(py, f);
    assert Traverse([], RuntimeReader(py, rules)) == Success([]);
  }

  // ---------------------------------------------------------------------
  // Repeated ids
  // ---------------------------------------------------------------------

  /** Of rules with the same id the last record counts, at the first one's place. */
  lemma {:induction false} RepeatedRules(rules: seq<Rule>, i: nat)
    requires i < |rules| && forall j :: i < j < |rules| ==> rules[j].id != rules[i].id
    ensures rules[i].id in TableOf(rules).rules && TableOf(rules).rules[rules[i].id] == rules[i]
    ensures TableOf(rules[..i]).order <= TableOf(rules).order
    decreases |rules|
  {
    var n := |rules| - 1;
    if i < n {
      RepeatedRules(rules[..n], i);
      assert rules[..n][..i] == rules[..i];
    }
  }

  /** Of runtimes for the same rule the last one counts. */
  lemma {:induction false} RepeatedRuntimes(entries: seq<(string, Runtime)>, i: nat)
    requires i < |entries| && forall j :: i < j < |entries| ==> entries[j].0 != entries[i].0
    ensures entries[i].0 in RuntimesOf(entries) && RuntimesOf(entries)[entries[i].0] == entries[i].1
    decreases |entries|
  {
    var n := |entries| - 1;
    if i < n {
      RepeatedRuntimes(entries[..n], i);
    }
  }
}
