/** Close sizes over every run: never negative, never above the rule's own. */
module ProtocolSizes {
  import opened Prelude
  import opened Models
  import opened Trailing
  import opened Json
  import opened DaemonState
  import opened Fills
  import opened Submission
  import opened Tick
  import opened Protocol
  import opened ProtocolSafety

  /** No protected size is negative. */
  predicate NoneNegative(runtimes: map<string, Runtime>) {
    forall id :: id in runtimes ==> runtimes[id].protectedSize >= 0.0
  }

  predicate PositionsNonNegative(account: Account) {
    forall p :: p in account.positions ==> p.size >= 0.0
  }

  /** What the exchange gateway promises of its snapshots. */
  predicate SnapshotsNonNegative(steps: seq<Step>) {
    forall i :: 0 <= i < |steps| && steps[i].LoadState? ==> PositionsNonNegative(steps[i].account)
  }

  predicate SizesOk(m: Machine) {
    && NoneNegative(m.disk.runtimes)
    && (m.memory.Some? ==>
          NoneNegative(m.memory.value.state.runtimes) && PositionsNonNegative(m.memory.value.account))
  }

  lemma RewritingKeepsSizes(runtimes: map<string, Runtime>, id: string, runtime: Runtime)
    requires NoneNegative(runtimes) && runtime.protectedSize >= 0.0
    ensures NoneNegative(runtimes[id := runtime])
  {
  }

  lemma CommandKeepsSizes(disk: State, step: Step)
    requires NoneNegative(disk.runtimes) && IsOperator(step) && Command(disk, step).Some?
    ensures NoneNegative(Command(disk, step).value.0.runtimes)
  {
    match step
    case CreateRule(request, newId) =>
    case DisableRule(id) => RewritingKeepsSizes(disk.runtimes, id, DisabledRecord(disk.runtimes[id]));
    case PromoteRule(id) => RewritingKeepsSizes(disk.runtimes, id, PromotedRecord(disk.runtimes[id]));
    case ResetRule(id, reason, positions) =>
      var position := OpenPosition(disk.rules[id], positions).value;
      OpenPositionIsOpen(disk.rules[id], positions);
      RewritingKeepsSizes(disk.runtimes, id, ResetRecord(disk.runtimes[id], position));
    case SetKillSwitch(active) =>
  }

  lemma {:induction false} OpenPositionIsOpen(rule: Rule, positions: seq<Position>)
    ensures OpenPosition(rule, positions).Some? ==> OpenPosition(rule, positions).value.size > 0.0
  {
    if positions != [] {
      OpenPositionIsOpen(rule, positions[1..]);
    }
  }

  lemma SizingKeepsSizes(s: State, id: string, account: Account)
    requires NoneNegative(s.runtimes) && PositionsNonNegative(account)
    requires Known(s, id) && s.runtimes[id].protectedSize <= s.rules[id].size
    ensures NoneNegative(UpdateProtected(s, id, account).runtimes)
  {
    var books := Booked(s.rules[id], BooksOf(s, id), account);
    AccountingStaysInRange(s.rules[id], BooksOf(s, id), account);
    RewritingKeepsSizes(s.runtimes, id, s.runtimes[id].(protectedSize := books.size));
  }

  lemma TakeRuleKeepsSizes(m: Machine)
    requires Inv(m) && m.memory.Some? && SizesOk(m)
    ensures NoneNegative(AfterTakeRule(m.memory.value).state.runtimes)
  {
    var memory := m.memory.value;
    if memory.pc == AtRules && memory.todo != [] && Known(memory.state, memory.todo[0]) {
      var id, s := memory.todo[0], memory.state;
      assert RecordOk(s.rules[id], s.runtimes[id], m.log, false);
      EnsureKnownRule(s, s.rules[id]);
      SizingKeepsSizes(s, id, memory.account);
    }
  }

  lemma TakeMarkKeepsSizes(memory: Memory, log: Log, mark: Option<PriceTick>)
    requires NoneNegative(memory.state.runtimes)
    ensures NoneNegative(AfterTakeMark(memory, log, mark).0.state.runtimes)
  {
    if memory.pc.AtMark? && Known(memory.state, memory.pc.id) {
      var id := memory.pc.id;
      var usable := UsableMark(memory.state.rules[id], mark);
      if usable.Some? {
        var runtime := Observed(memory.state.runtimes[id], memory.config.window, usable.value).0;
        RewritingKeepsSizes(memory.state.runtimes, id, runtime);
      }
    }
  }

  lemma SettlingKeepsSizes(s: State, id: string, outcome: Outcome)
    requires NoneNegative(s.runtimes) && Known(s, id)
    ensures NoneNegative(SettleRule(s, id, outcome).runtimes)
  {
    SettledKeepsRule(s.runtimes[id], outcome);
    RewritingKeepsSizes(s.runtimes, id, Settled(s.runtimes[id], outcome));
  }

  lemma SubmitKeepsSizes(py: Python, memory: Memory, log: Log, world: World)
    requires NoneNegative(memory.state.runtimes)
    ensures NoneNegative(AfterSubmit(py, memory, log, world).0.state.runtimes)
  {
    if memory.pc.AtSubmit? && Known(memory.state, memory.pc.exit.ruleId) {
      SettlingKeepsSizes(memory.state, memory.pc.exit.ruleId, LiveBlocked);
      SettlingKeepsSizes(memory.state, memory.pc.exit.ruleId, LiveFailed);
    }
  }

  lemma ReplyKeepsSizes(py: Python, memory: Memory, log: Log)
    requires NoneNegative(memory.state.runtimes)
    ensures NoneNegative(AfterReply(py, memory, log).0.state.runtimes)
  {
    if memory.pc.AtReply? && Known(memory.state, memory.pc.exit.ruleId) {
      SettlingKeepsSizes(memory.state, memory.pc.exit.ruleId, OutcomeOf(py, memory.pc.reply));
    }
  }

  lemma WorkKeepsSizes(py: Python, m: Machine, step: Step)
    requires Inv(m) && SizesOk(m) && m.memory.Some? && IsWork(step)
    ensures NoneNegative(Worked(py, m.memory.value, m.log, step).0.state.runtimes)
  {
    match step
    case TakeRule => TakeRuleKeepsSizes(m);
    case TakeMark(mark) => TakeMarkKeepsSizes(m.memory.value, m.log, mark);
    case Submit(world) => SubmitKeepsSizes(py, m.memory.value, m.log, world);
    case RecordReply => ReplyKeepsSizes(py, m.memory.value, m.log);
  }

  /** Work never changes the snapshot it works on. */
  lemma WorkKeepsAccount(py: Python, memory: Memory, log: Log, step: Step)
    requires IsWork(step)
    ensures Worked(py, memory, log, step).0.account == memory.account
  {
  }

  lemma StepKeepsSizes(py: Python, m: Machine, step: Step)
    requires Inv(m) && SizesOk(m) && (step.LoadState? ==> PositionsNonNegative(step.account))
    ensures SizesOk(Next(py, m, step))
  {
    if IsOperator(step) {
      if Command(m.disk, step).Some? {
        CommandKeepsSizes(m.disk, step);
      }
    } else if m.memory.Some? && IsWork(step) {
      WorkKeepsSizes(py, m, step);
      WorkKeepsAccount(py, m.memory.value, m.log, step);
    }
  }

  lemma {:induction false} RunKeepsSizes(py: Python, m: Machine, steps: seq<Step>)
    requires Inv(m) && SizesOk(m) && SnapshotsNonNegative(steps)
    ensures Inv(Run(py, m, steps)) && SizesOk(Run(py, m, steps))
    decreases |steps|
  {
    if steps != [] {
      StepKeepsInv(py, m, steps[0]);
      StepKeepsSizes(py, m, steps[0]);
      assert forall i :: 0 <= i < |steps| - 1 ==> steps[1..][i] == steps[i + 1];
      RunKeepsSizes(py, Next(py, m, steps[0]), steps[1..]);
    }
  }

  predicate InRange(s: State, id: string) {
    id in s.rules && id in s.runtimes && 0.0 <= s.runtimes[id].protectedSize <= s.rules[id].size
  }

  /** In every reachable state, with crashes and commands anywhere, the protected
      size of every rule in the file and in a running tick is between zero and
      the size the trader chose. */
  lemma SizesStayInRange(py: Python, steps: seq<Step>)
    requires SnapshotsNonNegative(steps)
    ensures var m := Run(py, INITIAL, steps);
      && (forall id :: id in m.disk.rules ==> InRange(m.disk, id))
      && (m.memory.Some? ==> forall id :: id in m.memory.value.state.rules ==> InRange(m.memory.value.state, id))
  {
    RunKeepsSizes(py, INITIAL, steps);
    var m := Run(py, INITIAL, steps);
    forall id | id in m.disk.rules ensures InRange(m.disk, id) {
      assert RecordOk(m.disk.rules[id], m.disk.runtimes[id], m.log, false);
    }
    if m.memory.Some? {
      var s, pending := m.memory.value.state, Pending(m.memory.value.pc);
      forall id | id in s.rules ensures InRange(s, id) {
        assert RecordOk(s.rules[id], s.runtimes[id], m.log, pending == Some(id));
      }
    }
  }
}
