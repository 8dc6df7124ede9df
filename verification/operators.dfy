/** The operator commands of cli.py and recovery.py as they update the file,
    each proved to be one command step of the protocol. */
module Operators {
  import opened Prelude
  import opened Models
  import opened Trailing
  import opened DaemonState
  import opened Fills
  import opened Submission
  import opened Tick
  import opened Protocol
  import opened ProtocolSafety
  import opened Daemon

  lemma RewritingWithItself(s: State, id: string)
    requires id in s.rules
    ensures s.rules[id := s.rules[id]] == s.rules
  {
  }

  /** A command that succeeded left a save of the file and its own event. */
  ghost predicate Recorded(before: Log, after: Log, saved: State, ok: bool, event: Event) {
    after == if ok then Then(Then(before, StateSaved(saved)), event) else before
  }

  /** `after` is `before` with a known rule's contents replaced, in the rule and
      in its runtime, and nothing else. */
  ghost predicate Replaced(before: State, after: State, rule: Rule) {
    && rule.id in before.runtimes
    && after == before.(rules := before.rules[rule.id := rule],
                        runtimes := before.runtimes[rule.id := before.runtimes[rule.id].(rule := rule)])
  }

  predicate IsSpace(c: char) {
    || c == ' ' || c == '\t' || c == '\n' || c == '\r' || c == '\U{0B}' || c == '\U{0C}'
    || '\U{1C}' <= c <= '\U{1F}'
  }

  /** Some character of the reason is not white space. */
  predicate SaysSomething(reason: string) {
    exists i :: 0 <= i < |reason| && !IsSpace(reason[i])
  }

  lemma BlankSaysNothing(reason: string)
    ensures Blank(reason) <==> !SaysSomething(reason)
  {
  }

  /** `after` is `before` with one rule re-armed against a position. */
  ghost predicate Reconciled(before: State, after: State, id: string, position: Position) {
    && id in before.runtimes
    && var was := before.runtimes[id];
      var rule := if was.rule.executionMode == DryRun then was.rule else was.rule.(liveStatus := CanaryPending);
      var size := if position.size <= rule.size then position.size else rule.size;
      after == before.(rules := before.rules[id := rule],
                       runtimes := before.runtimes[id := Runtime(rule, size, was.trail, false)])
  }

  /** Position `i` is the first open one for the rule's coin and side. */
  predicate FirstOpen(rule: Rule, positions: seq<Position>, i: int) {
    && 0 <= i < |positions| && IsFor(rule, positions[i]) && positions[i].size > 0.0
    && forall j :: 0 <= j < i ==> !(IsFor(rule, positions[j]) && positions[j].size > 0.0)
  }

  /** The position a reset reconciles with is the first open one that matches;
      there is none exactly when no open one does. */
  lemma {:induction false} OpenPositionIsFirst(rule: Rule, positions: seq<Position>)
    ensures var p := OpenPosition(rule, positions);
      && (p.Some? ==> exists i :: FirstOpen(rule, positions, i) && positions[i] == p.value)
      && (p.None? ==> forall i :: !FirstOpen(rule, positions, i))
      && (p.None? ==> forall q :: q in positions && IsFor(rule, q) ==> q.size <= 0.0)
  {
    if positions != [] {
      var rest := positions[1..];
      OpenPositionIsFirst(rule, rest);
      assert positions == [positions[0]] + rest;
      if IsFor(rule, positions[0]) && positions[0].size > 0.0 {
        assert FirstOpen(rule, positions, 0);
      } else if OpenPosition(rule, rest).Some? {
        var i :| FirstOpen(rule, rest, i) && rest[i] == OpenPosition(rule, rest).value;
        assert FirstOpen(rule, positions, i + 1);
      }
    }
  }

  /** A reset opens the latch, keeps the whole trail, returns a live rule to its
      canary, and protects the first open position that matches - all of it, or
      as much as the rule's size. */
  lemma ResetReconciles(disk: State, id: string, reason: string, positions: seq<Position>)
    requires Coherent(disk) && Command(disk, ResetRule(id, reason, positions)).Some?
    ensures var after := Command(disk, ResetRule(id, reason, positions)).value.0;
      && Known(disk, id) && Known(after, id)
      && var (was, now) := (disk.runtimes[id], after.runtimes[id]);
      && !now.triggered && now.trail == was.trail
      && 0.0 < now.protectedSize <= now.rule.size && Covered(now.rule, now.protectedSize, positions)
      && (exists i :: && FirstOpen(was.rule, positions, i)
                      && now.protectedSize == if positions[i].size <= was.rule.size then positions[i].size
                                              else was.rule.size)
      && now.rule.liveStatus == (if was.rule.executionMode == AutoSubmit then CanaryPending else NotLive)
      && now.rule == was.rule.(liveStatus := now.rule.liveStatus)
  {
    OpenPositionIsFirst(disk.rules[id], positions);
    assert RecordCoherent(id, disk.rules[id], disk.runtimes[id]);
    var i :| FirstOpen(disk.rules[id], positions, i)
      && positions[i] == OpenPosition(disk.rules[id], positions).value;
    assert positions[i] in positions;
  }

  /** A created rule starts with nothing protected, no price seen and an open
      latch, so a rule attached to an order starts as the accounting of whole
      runs wants it, as long as no mark is stored for its new id. */
  lemma CreatedRuleStartsFresh(disk: State, request: Rule, newId: string)
    requires Coherent(disk) && Command(disk, CreateRule(request, newId)).Some?
    ensures var after := Command(disk, CreateRule(request, newId)).value.0;
      && Known(after, newId) && newId !in disk.rules
      && after.runtimes[newId] == Runtime(after.rules[newId], 0.0, Trail(None, None, []), false)
      && (HighWater(disk.filledSize, after.rules[newId]) == 0.0 ==>
            SizedByMark(after.rules[newId], after.runtimes[newId].protectedSize,
                        HighWater(after.filledSize, after.rules[newId])))
  {
    RequestedRule(request, newId);
    EnsureNewRule(disk, Requested(request, newId).value);
  }

  class OperatorCommands {
    const store: LocalStateStore
    const journal: Journal

    ghost predicate Valid() {
      store.journal == journal
    }

    constructor (store: LocalStateStore, journal: Journal)
      requires store.journal == journal
      ensures Valid() && this.store == store && this.journal == journal
    {
      this.store, this.journal := store, journal;
    }

    method FindOpenPosition(rule: Rule, positions: seq<Position>) returns (position: Option<Position>)
      ensures position == OpenPosition(rule, positions)
    {
      for i := 0 to |positions|
        invariant OpenPosition(rule, positions) == OpenPosition(rule, positions[i..])
      {
        if positions[i].coin == rule.coin && positions[i].side == rule.side && positions[i].size > 0.0 {
          return Some(positions[i]);
        }
        assert positions[i..][1..] == positions[i + 1..];
      }
      return None;
    }

    /** The new id is generated, so it names no rule yet. */
    method CreateTrailingRule(request: Rule, newId: string) returns (ok: bool)
      requires Valid() && newId != "" && newId !in store.saved.rules
      modifies store`saved, journal
      ensures ok <==> ValidNumbers(request)
      ensures (store.saved, journal.log) == Commanded(old(store.saved), old(journal.log), CreateRule(request, newId))
      ensures Recorded(old(journal.log), journal.log, store.saved, ok, RuleCreated(newId))
      ensures ok && newId !in old(store.saved).runtimes ==>
        var live := if request.executionMode == DryRun then NotLive else CanaryPending;
        var rule := request.(id := newId, exitOrderType := Market, status := Active, liveStatus := live);
        store.saved == old(store.saved).(
          order := old(store.saved).order + [newId],
          rules := old(store.saved).rules[newId := rule],
          runtimes := old(store.saved).runtimes[newId := Runtime(rule, 0.0, Trail(None, None, []), false)])
    {
      var made := Requested(request, newId);
      if made.Failure? {
        return false;
      }
      var state := store.Load();
      state.EnsureRuleState(made.value);
      store.Save(state);
      journal.Append(RuleCreated(newId));
      return true;
    }

    /** The rule and its runtime are rewritten together. */
    method ReplaceRule(state: LocalDaemonState, updated: Rule)
      requires updated.id in state.runtimes
      modifies state
      ensures state.Value() == PutRecord(old(state.Value()), updated, old(state.runtimes)[updated.id].(rule := updated))
    {
      state.rules := state.rules[updated.id := updated];
      var runtime := state.runtimes[updated.id].(rule := updated);
      state.runtimes := state.runtimes[updated.id := runtime];
    }

    method DisableRule(id: string) returns (ok: bool)
      requires Valid() && Coherent(store.saved)
      modifies store`saved, journal
      ensures ok <==> id in old(store.saved).rules
      ensures (store.saved, journal.log) == Commanded(old(store.saved), old(journal.log), Step.DisableRule(id))
      ensures Recorded(old(journal.log), journal.log, store.saved, ok, RuleDisabled(id))
      ensures ok ==> Replaced(old(store.saved), store.saved, old(store.saved).rules[id].(status := Disabled))
    {
      var state := store.Load();
      if id !in state.rules {
        return false;
      }
      assert RecordCoherent(id, state.rules[id], state.runtimes[id]);
      ReplaceRule(state, state.rules[id].(status := Disabled));
      store.Save(state);
      journal.Append(RuleDisabled(id));
      return true;
    }

    method PromoteRuleLive(id: string) returns (ok: bool)
      requires Valid() && Coherent(store.saved)
      modifies store`saved, journal
      ensures ok <==> id in old(store.saved).rules && old(store.saved).rules[id].liveStatus == CanarySucceeded
      ensures (store.saved, journal.log) == Commanded(old(store.saved), old(journal.log), PromoteRule(id))
      ensures Recorded(old(journal.log), journal.log, store.saved, ok, RulePromoted(id))
      ensures ok ==> Replaced(old(store.saved), store.saved, old(store.saved).rules[id].(liveStatus := NormalLive))
    {
      var state := store.Load();
      if id !in state.rules {
        return false;
      }
      assert RecordCoherent(id, state.rules[id], state.runtimes[id]);
      if state.rules[id].liveStatus != CanarySucceeded {
        return false;
      }
      ReplaceRule(state, WithLiveStatus(state.rules[id], NormalLive));
      store.Save(state);
      journal.Append(RulePromoted(id));
      return true;
    }

    method KillSwitch(enable: bool, disable: bool) returns (ok: bool)
      requires Valid()
      modifies store`saved, journal
      ensures ok <==> enable != disable
      ensures (store.saved, journal.log)
           == if ok then Commanded(old(store.saved), old(journal.log), SetKillSwitch(enable))
              else (old(store.saved), old(journal.log))
      ensures Recorded(old(journal.log), journal.log, store.saved, ok, KillSwitchSet(enable))
      ensures ok ==> store.saved == old(store.saved).(killSwitch := enable)
    {
      if enable == disable {
        return false;
      }
      var state := store.Load();
      state.killSwitch := enable;
      store.Save(state);
      journal.Append(KillSwitchSet(enable));
      return true;
    }

    /** The runtime that a reset leaves, and the rule it stands for. */
    method Rearm(runtime: TrailingStopState, position: Position)
      modifies runtime
      ensures runtime.Value() == ResetRecord(old(runtime.Value()), position)
    {
      runtime.triggered := false;
      runtime.protectedSize := Min(runtime.rule.size, position.size);
      if runtime.rule.executionMode == AutoSubmit {
        runtime.rule := WithLiveStatus(runtime.rule, CanaryPending);
      }
    }

    method RearmRule(state: LocalDaemonState, id: string, position: Position)
      requires Known(state.Value(), id)
      modifies state
      ensures var runtime := ResetRecord(old(state.runtimes)[id], position);
        state.Value() == PutRecord(old(state.Value()), runtime.rule, runtime)
    {
      var runtime := new TrailingStopState(state.runtimes[id]);
      Rearm(runtime, position);
      var value := runtime.Read();
      RewritingWithItself(state.Value(), id);
      if value.rule.executionMode == AutoSubmit {
        state.rules := state.rules[id := value.rule];
      }
      state.runtimes := state.runtimes[id := value];
    }

    method ResetTriggeredRule(id: string, reason: string, positions: seq<Position>) returns (ok: bool)
      requires Valid() && Coherent(store.saved)
      modifies store`saved, journal
      ensures ok <==>
        && SaysSomething(reason) && id in old(store.saved).rules
        && OpenPosition(old(store.saved).rules[id], positions).Some?
      ensures (store.saved, journal.log)
           == Commanded(old(store.saved), old(journal.log), ResetRule(id, reason, positions))
      ensures Recorded(old(journal.log), journal.log, store.saved, ok, RuleReset(id))
      ensures ok ==>
        Reconciled(old(store.saved), store.saved, id, OpenPosition(old(store.saved).rules[id], positions).value)
    {
      var state := store.Load();
      BlankSaysNothing(reason);
      if Blank(reason) || id !in state.rules {
        return false;
      }
      assert RecordCoherent(id, state.rules[id], state.runtimes[id]);
      var position := FindOpenPosition(state.rules[id], positions);
      if position.None? {
        return false;
      }
      RearmRule(state, id, position.value);
      store.SavePreservingActiveKillSwitch(state);
      journal.Append(RuleReset(id));
      return true;
    }
  }
}
