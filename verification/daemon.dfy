/** The imperative daemon: the state store and `run_once`, proved to compute
    `TickResult` when nobody else writes the state file meanwhile. */
module Daemon {
  import opened Prelude
  import opened Models
  import opened Trailing
  import opened DaemonState
  import opened Fills
  import opened Submission
  import opened Tick

  /** LocalStateStore, with the file seen as the state it decodes to. */
  class LocalStateStore {
    var saved: State
    const journal: Journal

    constructor (s: State, journal: Journal)
      ensures saved == s && this.journal == journal
    {
      saved := s;
      this.journal := journal;
    }

    method Load() returns (state: LocalDaemonState)
      ensures fresh(state) && state.Value() == saved
    {
      state := new LocalDaemonState(saved);
    }

    method Save(state: LocalDaemonState)
      modifies this`saved, journal
      ensures saved == state.Value() && journal.log == Then(old(journal.log), StateSaved(saved))
    {
      saved := state.Read();
      journal.Append(StateSaved(saved));
    }

    /** An active switch on disk survives the write; the state learns of it. */
    method SavePreservingActiveKillSwitch(state: LocalDaemonState)
      modifies this`saved, journal, state`killSwitch
      ensures journal.log == Then(old(journal.log), StateSaved(saved))
      ensures state.killSwitch == (old(state.killSwitch) || old(saved.killSwitch))
      ensures saved == state.Value() == old(state.Value()).(killSwitch := state.killSwitch)
    {
      var latest := Load();
      state.killSwitch := state.killSwitch || latest.killSwitch;
      Save(state);
    }
  }

  class DaemonService {
    const store: LocalStateStore
    const journal: Journal
    const engine: TrailingStopEngine
    const policy: SubmissionPolicy

    ghost predicate Valid() {
      && policy.journal == journal && store.journal == journal
      && engine.movingAverageWindow == policy.config.window
    }

    constructor (store: LocalStateStore, journal: Journal, engine: TrailingStopEngine, policy: SubmissionPolicy)
      requires policy.journal == journal && store.journal == journal
      requires engine.movingAverageWindow == policy.config.window
      ensures Valid()
      ensures this.store == store && this.journal == journal && this.policy == policy
    {
      this.store, this.journal, this.engine, this.policy := store, journal, engine, policy;
    }

    /** The rule is observed on a copy of its record, which is put back. */
    method ObserveRuntime(state: LocalDaemonState, id: string, tick: PriceTick) returns (exit: Option<TriggeredExit>)
      requires id in state.runtimes
      modifies state
      ensures var (runtime, fired) := Observed(old(state.runtimes[id]), engine.movingAverageWindow, tick);
        state.Value() == PutRuntime(NoteMark(old(state.Value()), id, tick), id, runtime) && exit == fired
    {
      state.observedIds := state.observedIds + {id};
      state.observedAt := state.observedAt[id := tick.observedAt.text];
      var runtime := new TrailingStopState(state.runtimes[id]);
      exit := engine.Observe(runtime, tick);
      var value := runtime.Read();
      state.runtimes := state.runtimes[id := value];
    }

    method RecordOutcome(state: LocalDaemonState, id: string, outcome: Outcome)
      requires id in state.runtimes && id in state.rules && state.runtimes[id].rule == state.rules[id]
      requires state.rules[id].id == id
      modifies state
      ensures var runtime := Settled(old(state.runtimes[id]), outcome);
        state.Value() == old(state.Value()).(rules := old(state.rules)[id := runtime.rule],
                                             runtimes := old(state.runtimes)[id := runtime])
    {
      assert state.rules == state.rules[id := state.rules[id]];
      assert state.runtimes == state.runtimes[id := state.runtimes[id]];
      var runtime := state.runtimes[id];
      if outcome == LiveBlocked {
        state.runtimes := state.runtimes[id := runtime.(triggered := false)];
      } else if outcome == LiveSubmitted {
        if runtime.rule.liveStatus == CanaryPending {
          var updated := WithLiveStatus(runtime.rule, CanarySucceeded);
          state.rules := state.rules[updated.id := updated];
          state.runtimes := state.runtimes[id := runtime.(rule := updated)];
        }
      } else if outcome == LiveFailed {
        if runtime.rule.executionMode == AutoSubmit {
          var updated := WithLiveStatus(runtime.rule, ManualReview);
          state.rules := state.rules[updated.id := updated];
          state.runtimes := state.runtimes[id := runtime.(rule := updated)];
        }
      }
    }

    /** Write-ahead save, hand-over to the policy, and recording its outcome. */
    method HandleExit(state: LocalDaemonState, account: Account, rule: Rule, exit: TriggeredExit, world: World)
      requires Valid()
      requires rule.id in state.rules && state.rules[rule.id] == rule
      requires rule.id in state.runtimes && state.runtimes[rule.id].rule == rule
      requires rule.id in state.observedIds
      requires store.saved.killSwitch == state.killSwitch
      modifies state, store`saved, journal
      ensures store.saved == if exit.executionMode == AutoSubmit then old(state.Value()) else old(store.saved)
      ensures var saved := if exit.executionMode == AutoSubmit
                           then Then(old(journal.log), StateSaved(old(state.Value()))) else old(journal.log);
        var context := ContextFor(world.context, old(state.killSwitch), true);
        var (outcome, log) := Handled(policy.py, saved, policy.config, account, exit, rule, context, world);
        var runtime := Settled(old(state.runtimes[rule.id]), outcome);
        && journal.log == log
        && state.Value() == old(state.Value()).(rules := old(state.rules)[rule.id := runtime.rule],
                                                runtimes := old(state.runtimes)[rule.id := runtime])
    {
      if exit.executionMode == AutoSubmit {
        store.SavePreservingActiveKillSwitch(state);
      }
      var context := ContextFor(world.context, state.killSwitch, rule.id in state.observedIds);
      var outcome := policy.Handle(account, exit, rule, context, world);
      RecordOutcome(state, rule.id, outcome);
    }

    /** The rule is registered again, which changes nothing, and sized. */
    method SizeRule(state: LocalDaemonState, account: Account, rule: Rule)
      requires Known(state.Value(), rule.id) && state.rules[rule.id] == rule
      modifies state
      ensures var books := Booked(rule, BooksOf(old(state.Value()), rule.id), account);
        var sized := SizedRuntime(old(state.Value()), rule.id, account);
        state.Value() == old(state.Value()).(runtimes := old(state.runtimes)[rule.id := sized],
                                             seenFills := books.seen, filledSize := books.filled)
    {
      EnsureKnownRule(state.Value(), rule);
      state.EnsureRuleState(rule);
      UpdateProtectedSize(state, rule.id, account.positions, account.fills);
    }

    /** One pass of the loop over rules. */
    method ProcessOne(state: LocalDaemonState, account: Account, rule: Rule, inputs: RuleInputs)
      requires Valid()
      requires Known(state.Value(), rule.id) && state.rules[rule.id] == rule
      requires store.saved.killSwitch == state.killSwitch
      modifies state, store`saved, journal
      ensures store.saved.killSwitch == state.killSwitch
      ensures (state.Value(), journal.log)
           == ProcessRule(policy.py, policy.config, account, old(state.Value()), old(journal.log), rule.id, inputs)
    {
      if rule.status == Disabled {
        return;
      }
      ghost var start := state.Value();
      assert start.rules[rule.id := rule] == start.rules;
      SizeRule(state, account, rule);
      if inputs.mark.None? {
        return;
      }
      var tick := inputs.mark.value;
      if tick.coin != rule.coin || tick.source != MarkPrice {
        return;
      }
      var exit := ObserveRuntime(state, rule.id, tick);
      ghost var observed := state.runtimes[rule.id];
      assert observed.rule == rule;
      assert state.runtimes == start.runtimes[rule.id := observed];
      if exit.Some? {
        HandleExit(state, account, rule, exit.value, inputs.world);
        assert state.runtimes == start.runtimes[rule.id := state.runtimes[rule.id]];
      }
    }

    method RunOnce(inputs: TickInputs)
      requires Valid() && Coherent(store.saved)
      modifies store`saved, journal
      ensures (store.saved, journal.log)
           == TickResult(policy.py, policy.config, old(store.saved), old(journal.log), inputs)
    {
      var state := store.Load();
      if inputs.account.None? {
        return;
      }
      var account := inputs.account.value;
      ghost var start := state.Value();
      ghost var pass := PassOf(policy.py, policy.config, account, inputs.rules);
      PassesTouchOneRecord(policy.py, policy.config, account, inputs.rules);
      var rules := state.rules;
      var ids := state.order;
      for i := 0 to |ids|
        invariant (state.Value(), journal.log) == Loop(pass, start, old(journal.log), ids[..i])
        invariant state.killSwitch == start.killSwitch == store.saved.killSwitch
      {
        LoopReaches(pass, start, old(journal.log), i);
        LoopGoesOn(pass, start, old(journal.log), ids, i);
        ProcessOne(state, account, rules[ids[i]], inputs.rules(ids[i]));
      }
      assert ids[..|ids|] == ids;
      store.SavePreservingActiveKillSwitch(state);
    }
  }
}
