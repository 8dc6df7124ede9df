/** The daemon's whole persistent state, as storage.py holds it in memory. */
module DaemonState {
  import opened Models
  import opened Trailing
  import opened Json

  /** DaemonHealth: texts that the source does not convert are kept as read. */
  datatype Health = Health(
    mode: string,
    tickStartedAt: Json,
    tickCompletedAt: Json,
    accountSnapshotAt: Json,
    marketSnapshotAt: Json,
    failures: int,
    activeError: Json,
    activeRules: int,
    blockedReasons: seq<string>
  )

  const NEW_HEALTH := Health("idle", JNull, JNull, JNull, JNull, 0, JNull, 0, [])

  /** `order` is the insertion order of the rule dictionary, which is the order
      in which a tick processes the rules. */
  datatype State = State(
    order: seq<string>,
    rules: map<string, Rule>,
    runtimes: map<string, Runtime>,
    killSwitch: bool,
    seenFills: map<string, Json>,
    filledSize: map<string, real>,
    observedIds: set<string>,
    observedAt: map<string, string>,
    health: Health
  )

  const EMPTY_STATE := State([], map[], map[], false, map[], map[], {}, map[], NEW_HEALTH)

  predicate Distinct(ids: seq<string>) {
    forall i, j :: 0 <= i < j < |ids| ==> ids[i] != ids[j]
  }

  predicate RecordCoherent(id: string, rule: Rule, runtime: Runtime) {
    rule.id == id && WellFormed(rule) && runtime.rule == rule
  }

  /** `order` lists exactly `ids`, each once. */
  predicate Lists(order: seq<string>, ids: set<string>) {
    && Distinct(order)
    && (forall id :: id in order ==> id in ids)
    && (forall id :: id in ids ==> id in order)
  }

  predicate RecordsCoherent(rules: map<string, Rule>, runtimes: map<string, Runtime>) {
    && rules.Keys == runtimes.Keys
    && (forall id :: id in rules ==> RecordCoherent(id, rules[id], runtimes[id]))
  }

  /** The two dictionaries describe the same rules, in one processing order. */
  predicate Coherent(s: State) {
    Lists(s.order, s.rules.Keys) && RecordsCoherent(s.rules, s.runtimes)
  }

  /** Dictionary assignment to the rule dictionary. */
  function PutRule(s: State, rule: Rule): State {
    s.(order := if rule.id in s.rules then s.order else s.order + [rule.id],
       rules := s.rules[rule.id := rule])
  }

  /** `ensure_rule_state` */
  function EnsureRule(s: State, rule: Rule): State {
    var put := PutRule(s, rule);
    if rule.id in s.runtimes then put else put.(runtimes := put.runtimes[rule.id := FreshRuntime(rule)])
  }

  lemma DistinctSnoc(ids: seq<string>, id: string)
    requires Distinct(ids) && id !in ids
    ensures Distinct(ids + [id])
  {
  }

  /** Registering a known rule under its own record changes nothing. */
  lemma EnsureKnownRule(s: State, rule: Rule)
    requires rule.id in s.rules && s.rules[rule.id] == rule && rule.id in s.runtimes
    ensures EnsureRule(s, rule) == s
  {
    assert s.rules[rule.id := rule] == s.rules;
  }

  /** Registering a rule under a new id keeps coherence and every other record. */
  lemma EnsureNewRule(s: State, rule: Rule)
    requires Coherent(s) && WellFormed(rule) && rule.id !in s.rules
    ensures var t := EnsureRule(s, rule);
      && Coherent(t) && t.order == s.order + [rule.id]
      && t.rules == s.rules[rule.id := rule] && t.runtimes == s.runtimes[rule.id := FreshRuntime(rule)]
  {
    assert rule.id !in s.order;
    DistinctSnoc(s.order, rule.id);
    var t := EnsureRule(s, rule);
    assert t.rules.Keys == s.rules.Keys + {rule.id} == t.runtimes.Keys;
  }

  /** Registering a known rule with other contents is what breaks coherence. */
  lemma EnsureChangedRule(s: State, rule: Rule)
    requires Coherent(s) && rule.id in s.rules
    ensures Coherent(EnsureRule(s, rule)) <==> s.rules[rule.id] == rule
  {
    var t := EnsureRule(s, rule);
    assert RecordCoherent(rule.id, s.rules[rule.id], s.runtimes[rule.id]);
    if s.rules[rule.id] == rule {
      EnsureKnownRule(s, rule);
    } else {
      assert !RecordCoherent(rule.id, t.rules[rule.id], t.runtimes[rule.id]);
    }
  }

  /** Replacing the record of one rule. */
  function PutRecord(s: State, rule: Rule, runtime: Runtime): State {
    s.(rules := s.rules[rule.id := rule], runtimes := s.runtimes[rule.id := runtime])
  }

  lemma RewrittenRecords(rules: map<string, Rule>, runtimes: map<string, Runtime>, rule: Rule, runtime: Runtime)
    requires RecordsCoherent(rules, runtimes) && rule.id in rules && RecordCoherent(rule.id, rule, runtime)
    ensures var newRules, newRuntimes := rules[rule.id := rule], runtimes[rule.id := runtime];
      RecordsCoherent(newRules, newRuntimes) && newRules.Keys == rules.Keys && newRuntimes.Keys == runtimes.Keys
  {
    var newRules, newRuntimes := rules[rule.id := rule], runtimes[rule.id := runtime];
    forall id | id in newRules ensures RecordCoherent(id, newRules[id], newRuntimes[id]) {
      if id != rule.id {
        assert RecordCoherent(id, rules[id], runtimes[id]);
      }
    }
  }

  /** LocalDaemonState, whose dictionaries a tick updates in place. */
  class LocalDaemonState {
    var order: seq<string>
    var rules: map<string, Rule>
    var runtimes: map<string, Runtime>
    var killSwitch: bool
    var seenFills: map<string, Json>
    var filledSize: map<string, real>
    var observedIds: set<string>
    var observedAt: map<string, string>
    var health: Health

    ghost function Value(): State
      reads this
    {
      State(order, rules, runtimes, killSwitch, seenFills, filledSize, observedIds, observedAt, health)
    }

    constructor (s: State)
      ensures Value() == s
    {
      order, rules, runtimes, killSwitch := s.order, s.rules, s.runtimes, s.killSwitch;
      seenFills, filledSize := s.seenFills, s.filledSize;
      observedIds, observedAt, health := s.observedIds, s.observedAt, s.health;
    }

    method Read() returns (s: State)
      ensures s == Value()
    {
      s := State(order, rules, runtimes, killSwitch, seenFills, filledSize, observedIds, observedAt, health);
    }

    method EnsureRuleState(rule: Rule)
      modifies this
      ensures Value() == EnsureRule(old(Value()), rule)
    {
      if rule.id !in rules {
        order := order + [rule.id];
      }
      rules := rules[rule.id := rule];
      if rule.id !in runtimes {
        runtimes := runtimes[rule.id := FreshRuntime(rule)];
      }
    }
  }
}
