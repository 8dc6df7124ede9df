/** Whole-run theorems about the price engine: what it fires on, for every
    sequence of ticks, every mode and both sides. */
module TrailingRuns {
  import opened Prelude
  import opened Models
  import opened Trailing

  function MarksOf(ticks: seq<PriceTick>): (marks: seq<real>)
    ensures |marks| == |ticks|
    ensures forall i :: 0 <= i < |ticks| ==> marks[i] == ticks[i].mark
  {
    seq(|ticks|, i requires 0 <= i < |ticks| => ticks[i].mark)
  }

  /** The trail after feeding all marks, ignoring the latch. */
  function Feed(rule: Rule, w: WindowSize, trail: Trail, marks: seq<real>): Trail {
    if marks == [] then trail
    else Advance(rule, w, Feed(rule, w, trail, marks[..|marks| - 1]), marks[|marks| - 1])
  }

  /** The runtime after observing all ticks. */
  function ObserveAll(runtime: Runtime, w: WindowSize, ticks: seq<PriceTick>): Runtime {
    if ticks == [] then runtime
    else Observed(ObserveAll(runtime, w, ticks[..|ticks| - 1]), w, ticks[|ticks| - 1]).0
  }

  /** The exit that the observation of tick `k` returns. */
  function ExitAt(runtime: Runtime, w: WindowSize, ticks: seq<PriceTick>, k: nat): Option<TriggeredExit>
    requires k < |ticks|
  {
    Observed(ObserveAll(runtime, w, ticks[..k]), w, ticks[k]).1
  }

  /** Reference definition of the signal of mark `j`: the mark itself, or the
      mean of the last `w` marks up to it. */
  function SignalAt(rule: Rule, w: WindowSize, marks: seq<real>, j: nat): real
    requires j < |marks|
  {
    if rule.trailMode == MovingAverage then Mean(LastN(marks[..j + 1], w)) else marks[j]
  }

  /** Mark `i` lies at or beyond the stop that signal `j` alone would set. */
  predicate PairPasses(rule: Rule, w: WindowSize, marks: seq<real>, j: nat, i: nat)
    requires j <= i < |marks|
  {
    Crossed(rule.side, marks[i], StopPrice(rule, SignalAt(rule, w, marks, j)))
  }

  predicate Passes(rule: Rule, w: WindowSize, marks: seq<real>, i: nat)
    requires i < |marks|
  {
    exists j :: 0 <= j <= i && PairPasses(rule, w, marks, j, i)
  }

  predicate PassedBefore(rule: Rule, w: WindowSize, marks: seq<real>, k: nat)
    requires k <= |marks|
  {
    exists i :: 0 <= i < k && Passes(rule, w, marks, i)
  }

  predicate FirstPass(rule: Rule, w: WindowSize, marks: seq<real>, k: nat)
    requires k < |marks|
  {
    Passes(rule, w, marks, k) && !PassedBefore(rule, w, marks, k)
  }

  /** A rule that has seen no price yet and protects something. */
  predicate Fresh(runtime: Runtime) {
    && WellFormed(runtime.rule)
    && runtime.trail == FRESH_TRAIL
    && !runtime.triggered
    && runtime.protectedSize > 0.0
  }

  predicate SameCoin(runtime: Runtime, ticks: seq<PriceTick>) {
    forall i :: 0 <= i < |ticks| ==> ticks[i].coin == runtime.rule.coin
  }

  predicate Positive(marks: seq<real>) {
    forall i :: 0 <= i < |marks| ==> marks[i] > 0.0
  }

  // ---------------------------------------------------------------------
  // The stop and the extremum
  // ---------------------------------------------------------------------

  /** A stop moves with the favourable price, in every mode. */
  lemma StopMonotone(rule: Rule, a: real, b: real)
    requires ValidNumbers(rule)
    requires a <= b
    ensures StopPrice(rule, a) <= StopPrice(rule, b)
  {
    if rule.trailMode == Percent {
      if rule.side == Long {
        FractionOfDifference(a, b, rule.trailValue / 100.0);
      } else {
        ScaleMonotone(a, b, rule.trailValue / 100.0);
      }
    }
  }

  lemma LastNSnoc<T>(a: seq<T>, x: T, n: nat)
    requires n > 0
    ensures LastN(LastN(a, n) + [x], n) == LastN(a + [x], n)
  {
  }

  lemma SignalAtPrefix(rule: Rule, w: WindowSize, marks: seq<real>, n: nat, j: nat)
    requires j < n <= |marks|
    ensures SignalAt(rule, w, marks[..n], j) == SignalAt(rule, w, marks, j)
  {
    assert marks[..n][..j + 1] == marks[..j + 1];
  }

  lemma LastOfPrefix(marks: seq<real>, w: WindowSize)
    requires marks != []
    ensures var n := |marks| - 1;
      LastN(LastN(marks[..n], w) + [marks[n]], w) == LastN(marks, w)
  {
    var n := |marks| - 1;
    assert marks == marks[..n] + [marks[n]];
    LastNSnoc(marks[..n], marks[n], w);
  }

  lemma {:induction false} WindowIsLastMarks(rule: Rule, w: WindowSize, marks: seq<real>)
    ensures Feed(rule, w, FRESH_TRAIL, marks).window == if rule.trailMode == MovingAverage then LastN(marks, w) else []
  {
    if marks != [] {
      WindowIsLastMarks(rule, w, marks[..|marks| - 1]);
      LastOfPrefix(marks, w);
    }
  }

  lemma LastSignal(rule: Rule, w: WindowSize, marks: seq<real>)
    requires marks != []
    ensures var before := Feed(rule, w, FRESH_TRAIL, marks[..|marks| - 1]).window;
      Signal(rule, w, before, marks[|marks| - 1]) == SignalAt(rule, w, marks, |marks| - 1)
  {
    WindowIsLastMarks(rule, w, marks[..|marks| - 1]);
    LastOfPrefix(marks, w);
    assert marks[..|marks|] == marks;
  }

  /** After any marks from a fresh state the window holds exactly the last
      `w` of them, and the last signal is the reference one. */
  lemma WindowHoldsLastMarks(rule: Rule, w: WindowSize, marks: seq<real>)
    ensures var window := Feed(rule, w, FRESH_TRAIL, marks).window;
      if rule.trailMode == MovingAverage then HoldsLast(window, marks, w) else window == []
    ensures marks != [] ==>
      var before := Feed(rule, w, FRESH_TRAIL, marks[..|marks| - 1]).window;
      Signal(rule, w, before, marks[|marks| - 1]) == SignalAt(rule, w, marks, |marks| - 1)
  {
    WindowIsLastMarks(rule, w, marks);
    LastNHoldsLast(marks, w);
    if marks != [] {
      LastSignal(rule, w, marks);
    }
  }

  predicate IsExtremum(rule: Rule, w: WindowSize, marks: seq<real>, favorable: real) {
    && (exists j :: 0 <= j < |marks| && SignalAt(rule, w, marks, j) == favorable)
    && (forall j :: 0 <= j < |marks| ==> AtLeastAsGood(rule.side, favorable, SignalAt(rule, w, marks, j)))
  }

  lemma ExtremumSnoc(rule: Rule, w: WindowSize, marks: seq<real>, before: real, after: real)
    requires |marks| > 1 && IsExtremum(rule, w, marks[..|marks| - 1], before)
    requires after == Favorable(rule.side, Some(before), SignalAt(rule, w, marks, |marks| - 1))
    ensures IsExtremum(rule, w, marks, after)
  {
    var n := |marks| - 1;
    forall j | 0 <= j < n
      ensures SignalAt(rule, w, marks[..n], j) == SignalAt(rule, w, marks, j)
    {
      SignalAtPrefix(rule, w, marks, n, j);
    }
    var j0 :| 0 <= j0 < n && SignalAt(rule, w, marks[..n], j0) == before;
    assert SignalAt(rule, w, marks, if after == before then j0 else n) == after;
  }

  /** The favourable price is the best of all signals so far, and the stop is
      the one it sets. */
  lemma {:induction false} FavorableIsExtremum(rule: Rule, w: WindowSize, marks: seq<real>)
    requires marks != []
    ensures var trail := Feed(rule, w, FRESH_TRAIL, marks);
      && trail.favorable.Some?
      && trail.stop == Some(StopPrice(rule, trail.favorable.value))
      && StopIsAway(rule, trail.favorable.value, trail.stop.value)
      && IsExtremum(rule, w, marks, trail.favorable.value)
  {
    var n := |marks| - 1;
    var before := Feed(rule, w, FRESH_TRAIL, marks[..n]);
    LastSignal(rule, w, marks);
    StopPriceIsAway(rule, Feed(rule, w, FRESH_TRAIL, marks).favorable.value);
    if n == 0 {
      assert SignalAt(rule, w, marks, 0) == Feed(rule, w, FRESH_TRAIL, marks).favorable.value;
    } else {
      FavorableIsExtremum(rule, w, marks[..n]);
      ExtremumSnoc(rule, w, marks, before.favorable.value, Feed(rule, w, FRESH_TRAIL, marks).favorable.value);
    }
  }

  /** A trail whose stop is the one its favourable price sets. */
  predicate Consistent(rule: Rule, trail: Trail) {
    match trail.favorable
    case None => trail.stop == None
    case Some(f) => trail.stop == Some(StopPrice(rule, f))
  }

  /** From any consistent trail, in every mode: once set, the favourable price
      and the stop only move in the favour of the position. */
  lemma {:induction false} StopRatchets(rule: Rule, w: WindowSize, trail: Trail, marks: seq<real>)
    requires ValidNumbers(rule) && Consistent(rule, trail)
    ensures Consistent(rule, Feed(rule, w, trail, marks))
    ensures marks != [] ==> Feed(rule, w, trail, marks).favorable.Some?
    ensures trail.favorable.Some? ==>
      && Feed(rule, w, trail, marks).favorable.Some?
      && AtLeastAsGood(rule.side, Feed(rule, w, trail, marks).favorable.value, trail.favorable.value)
      && AtLeastAsGood(rule.side, Feed(rule, w, trail, marks).stop.value, trail.stop.value)
  {
    if marks != [] {
      StopRatchets(rule, w, trail, marks[..|marks| - 1]);
      var after := Feed(rule, w, trail, marks);
      if trail.favorable.Some? {
        if rule.side == Long {
          StopMonotone(rule, trail.favorable.value, after.favorable.value);
        } else {
          StopMonotone(rule, after.favorable.value, trail.favorable.value);
        }
      }
    }
  }

  // ---------------------------------------------------------------------
  // First passage
  // ---------------------------------------------------------------------

  /** The stop of the running extremum is crossed exactly when the stop of
      some earlier signal is. */
  lemma CrossedIffPasses(rule: Rule, w: WindowSize, marks: seq<real>, i: nat)
    requires ValidNumbers(rule) && i < |marks|
    ensures Feed(rule, w, FRESH_TRAIL, marks[..i + 1]).stop.Some?
    ensures Crossed(rule.side, marks[i], Feed(rule, w, FRESH_TRAIL, marks[..i + 1]).stop.value)
        <==> Passes(rule, w, marks, i)
  {
    var upTo := marks[..i + 1];
    var f := Feed(rule, w, FRESH_TRAIL, upTo).favorable.value;
    FavorableIsExtremum(rule, w, upTo);
    forall j | 0 <= j <= i
      ensures SignalAt(rule, w, upTo, j) == SignalAt(rule, w, marks, j)
      ensures PairPasses(rule, w, marks, j, i) ==> Crossed(rule.side, marks[i], StopPrice(rule, f))
    {
      SignalAtPrefix(rule, w, marks, i + 1, j);
      var s := SignalAt(rule, w, marks, j);
      if rule.side == Long { StopMonotone(rule, s, f); } else { StopMonotone(rule, f, s); }
    }
    var j0 :| 0 <= j0 < |upTo| && SignalAt(rule, w, upTo, j0) == f;
    assert PairPasses(rule, w, marks, j0, i) <==> Crossed(rule.side, marks[i], StopPrice(rule, f));
  }

  lemma PassesPrefix(rule: Rule, w: WindowSize, marks: seq<real>, n: nat)
    requires n <= |marks|
    ensures forall i :: 0 <= i < n ==> (Passes(rule, w, marks[..n], i) <==> Passes(rule, w, marks, i))
  {
    forall i, j | 0 <= j <= i < n
      ensures PairPasses(rule, w, marks[..n], j, i) <==> PairPasses(rule, w, marks, j, i)
    {
      SignalAtPrefix(rule, w, marks, n, j);
    }
  }

  /** One more observation, of a runtime that has only fed so far. */
  lemma ObserveStep(runtime: Runtime, w: WindowSize, ticks: seq<PriceTick>)
    requires Fresh(runtime) && SameCoin(runtime, ticks) && ticks != []
    ensures var n := |ticks| - 1;
      var marks := MarksOf(ticks);
      var before := runtime.(trail := Feed(runtime.rule, w, FRESH_TRAIL, marks[..n]));
      var after := runtime.(trail := Feed(runtime.rule, w, FRESH_TRAIL, marks));
      Observed(before, w, ticks[n]).0 == after.(triggered := Passes(runtime.rule, w, marks, n))
  {
    var n := |ticks| - 1;
    var marks := MarksOf(ticks);
    assert marks[..n + 1] == marks;
    CrossedIffPasses(runtime.rule, w, marks, n);
  }

  predicate AnyPasses(rule: Rule, w: WindowSize, marks: seq<real>) {
    exists i :: 0 <= i < |marks| && Passes(rule, w, marks, i)
  }

  lemma AnyPassesSnoc(rule: Rule, w: WindowSize, marks: seq<real>)
    requires marks != []
    ensures AnyPasses(rule, w, marks)
       <==> AnyPasses(rule, w, marks[..|marks| - 1]) || Passes(rule, w, marks, |marks| - 1)
  {
    PassesPrefix(rule, w, marks, |marks| - 1);
  }

  /** Until something passes, observing is feeding; afterwards the latch holds. */
  lemma {:induction false} ObservingIsFeeding(runtime: Runtime, w: WindowSize, ticks: seq<PriceTick>)
    requires Fresh(runtime) && SameCoin(runtime, ticks)
    ensures ObserveAll(runtime, w, ticks).triggered <==> AnyPasses(runtime.rule, w, MarksOf(ticks))
    ensures !ObserveAll(runtime, w, ticks).triggered ==>
      ObserveAll(runtime, w, ticks) == runtime.(trail := Feed(runtime.rule, w, FRESH_TRAIL, MarksOf(ticks)))
  {
    if ticks != [] {
      var n := |ticks| - 1;
      ObservingIsFeeding(runtime, w, ticks[..n]);
      assert MarksOf(ticks[..n]) == MarksOf(ticks)[..n];
      AnyPassesSnoc(runtime.rule, w, MarksOf(ticks));
      ObserveStep(runtime, w, ticks);
    }
  }

  lemma AnyPassesOfPrefix(rule: Rule, w: WindowSize, marks: seq<real>, k: nat)
    requires k <= |marks|
    ensures AnyPasses(rule, w, marks[..k]) <==> PassedBefore(rule, w, marks, k)
  {
    PassesPrefix(rule, w, marks, k);
  }

  /** The runtime that tick `k` of a run finds. */
  lemma BeforeTick(runtime: Runtime, w: WindowSize, ticks: seq<PriceTick>, k: nat)
    requires Fresh(runtime) && SameCoin(runtime, ticks) && k < |ticks|
    ensures var marks, before := MarksOf(ticks), ObserveAll(runtime, w, ticks[..k]);
      && (before.triggered <==> PassedBefore(runtime.rule, w, marks, k))
      && (!before.triggered ==> before == runtime.(trail := Feed(runtime.rule, w, FRESH_TRAIL, marks[..k])))
  {
    ObservingIsFeeding(runtime, w, ticks[..k]);
    assert MarksOf(ticks[..k]) == MarksOf(ticks)[..k];
    AnyPassesOfPrefix(runtime.rule, w, MarksOf(ticks), k);
  }

  lemma ObservedAfterFeeding(runtime: Runtime, w: WindowSize, marks: seq<real>, tick: PriceTick, k: nat)
    requires ValidNumbers(runtime.rule) && k < |marks| && tick.mark == marks[k]
    requires runtime.trail == Feed(runtime.rule, w, FRESH_TRAIL, marks[..k]) && Listens(runtime, tick)
    ensures Observed(runtime, w, tick).1.Some? <==> Passes(runtime.rule, w, marks, k)
  {
    assert marks[..k + 1][..k] == marks[..k];
    CrossedIffPasses(runtime.rule, w, marks, k);
  }

  /** Whenever the engine fires, in every mode: exactly at the first tick whose
      mark lies at or beyond the stop set by some signal up to it. */
  lemma FirstPassage(runtime: Runtime, w: WindowSize, ticks: seq<PriceTick>, k: nat)
    requires Fresh(runtime) && SameCoin(runtime, ticks) && k < |ticks|
    ensures ExitAt(runtime, w, ticks, k).Some? <==> FirstPass(runtime.rule, w, MarksOf(ticks), k)
  {
    var before := ObserveAll(runtime, w, ticks[..k]);
    BeforeTick(runtime, w, ticks, k);
    if !before.triggered {
      ObservedAfterFeeding(before, w, MarksOf(ticks), ticks[k], k);
    }
  }

  /** Independent reading of the trail distance for the two price modes. */
  predicate BeyondTrail(rule: Rule, reference: real, mark: real) {
    match (rule.trailMode, rule.side)
    case (Percent, Long) => mark <= reference * (1.0 - rule.trailValue / 100.0)
    case (Percent, Short) => mark >= reference * (1.0 + rule.trailValue / 100.0)
    case (_, Long) => mark <= reference - rule.trailValue
    case (_, Short) => mark >= reference + rule.trailValue
  }

  /** Mark `i` lies a trail distance beyond some signal up to it. */
  predicate BeyondSomeSignal(rule: Rule, w: WindowSize, marks: seq<real>, i: nat)
    requires i < |marks|
  {
    exists j :: 0 <= j <= i && BeyondTrail(rule, SignalAt(rule, w, marks, j), marks[i])
  }

  lemma CrossedIffBeyond(rule: Rule, reference: real, mark: real)
    ensures Crossed(rule.side, mark, StopPrice(rule, reference)) <==> BeyondTrail(rule, reference, mark)
  {
    StopPriceIsAway(rule, reference);
  }

  lemma PassesIffBeyondSomeSignal(rule: Rule, w: WindowSize, marks: seq<real>, i: nat)
    requires i < |marks|
    ensures Passes(rule, w, marks, i) <==> BeyondSomeSignal(rule, w, marks, i)
  {
    forall j | 0 <= j <= i
      ensures PairPasses(rule, w, marks, j, i) <==> BeyondTrail(rule, SignalAt(rule, w, marks, j), marks[i])
    {
      CrossedIffBeyond(rule, SignalAt(rule, w, marks, j), marks[i]);
    }
  }

  /** In every mode the engine fires exactly at the first tick whose mark lies a
      whole trail distance beyond some signal up to it: a mark in the two price
      modes, the mean of the last marks in MOVING_AVERAGE. */
  lemma FirstPassageOfSignals(runtime: Runtime, w: WindowSize, ticks: seq<PriceTick>, k: nat)
    requires Fresh(runtime) && SameCoin(runtime, ticks) && k < |ticks|
    ensures ExitAt(runtime, w, ticks, k).Some? <==>
      && BeyondSomeSignal(runtime.rule, w, MarksOf(ticks), k)
      && forall i :: 0 <= i < k ==> !BeyondSomeSignal(runtime.rule, w, MarksOf(ticks), i)
  {
    var marks := MarksOf(ticks);
    FirstPassage(runtime, w, ticks, k);
    forall i | 0 <= i <= k
      ensures Passes(runtime.rule, w, marks, i) <==> BeyondSomeSignal(runtime.rule, w, marks, i)
    {
      PassesIffBeyondSomeSignal(runtime.rule, w, marks, i);
    }
  }

  /** The engine listens exactly to marks of the rule's own coin, while the latch
      is open and something is protected: only those set a first stop. */
  lemma ListensExactlyWhen(runtime: Runtime, w: WindowSize, tick: PriceTick)
    requires runtime.trail == FRESH_TRAIL
    ensures var (after, exit) := Observed(runtime, w, tick);
      && (after.trail.stop.Some? <==>
            tick.coin == runtime.rule.coin && !runtime.triggered && runtime.protectedSize > 0.0)
      && (after.trail.stop.None? ==> after == runtime && exit.None?)
  {
  }

  predicate BeyondSome(rule: Rule, marks: seq<real>, i: nat)
    requires i < |marks|
  {
    exists j :: 0 <= j < i && BeyondTrail(rule, marks[j], marks[i])
  }

  lemma PassesIffBeyondSome(rule: Rule, w: WindowSize, marks: seq<real>, i: nat)
    requires ValidNumbers(rule) && rule.trailMode != MovingAverage && i < |marks|
    requires rule.trailMode == Percent ==> marks[i] > 0.0
    ensures Passes(rule, w, marks, i) <==> BeyondSome(rule, marks, i)
  {
    forall j | 0 <= j <= i
      ensures PairPasses(rule, w, marks, j, i) <==> BeyondTrail(rule, marks[j], marks[i])
    {
      CrossedIffBeyond(rule, marks[j], marks[i]);
    }
    if rule.trailMode == Percent {
      assert marks[i] * (rule.trailValue / 100.0) > 0.0;
    }
    assert !PairPasses(rule, w, marks, i, i);
  }

  /** ABSOLUTE and PERCENT fire exactly at the first accepted tick that lies a
      whole trail distance beyond some earlier mark. */
  lemma FirstPassageOfMarks(runtime: Runtime, w: WindowSize, ticks: seq<PriceTick>, k: nat)
    requires Fresh(runtime) && SameCoin(runtime, ticks) && k < |ticks|
    requires runtime.rule.trailMode != MovingAverage
    requires runtime.rule.trailMode == Percent ==> Positive(MarksOf(ticks))
    ensures ExitAt(runtime, w, ticks, k).Some? <==>
      && BeyondSome(runtime.rule, MarksOf(ticks), k)
      && forall i :: 0 <= i < k ==> !BeyondSome(runtime.rule, MarksOf(ticks), i)
  {
    var marks := MarksOf(ticks);
    FirstPassage(runtime, w, ticks, k);
    forall i | 0 <= i <= k
      ensures Passes(runtime.rule, w, marks, i) <==> BeyondSome(runtime.rule, marks, i)
    {
      PassesIffBeyondSome(runtime.rule, w, marks, i);
    }
  }

  /** The exit carries the rule's identity and the protected size, its stop is
      crossed by its mark, and no other tick of the run fires. */
  lemma {:induction false} FiresOnce(runtime: Runtime, w: WindowSize, ticks: seq<PriceTick>, k: nat, l: nat)
    requires Fresh(runtime) && SameCoin(runtime, ticks) && k < |ticks| && l < |ticks|
    requires ExitAt(runtime, w, ticks, k).Some? && ExitAt(runtime, w, ticks, l).Some?
    ensures k == l
    ensures var exit := ExitAt(runtime, w, ticks, k).value;
      && exit.ruleId == runtime.rule.id && exit.coin == runtime.rule.coin
      && exit.size == runtime.protectedSize
      && exit.executionMode == runtime.rule.executionMode && exit.exitOrderType == runtime.rule.exitOrderType
      && exit.mark == ticks[k].mark && exit.observedAt == ticks[k].observedAt
      && Crossed(runtime.rule.side, exit.mark, exit.stop)
      && (exit.side == Sell <==> runtime.rule.side == Long)
  {
    FirstPassage(runtime, w, ticks, k);
    FirstPassage(runtime, w, ticks, l);
    ObservingIsFeeding(runtime, w, ticks[..k]);
    assert MarksOf(ticks[..k]) == MarksOf(ticks)[..k];
  }

  // ---------------------------------------------------------------------
  // Dominance between modes and between trail values
  // ---------------------------------------------------------------------

  /** Rule `b` has fired at or before tick `k` of a run. */
  predicate HasFiredBy(runtime: Runtime, w: WindowSize, ticks: seq<PriceTick>, k: nat)
    requires k < |ticks|
  {
    exists i :: 0 <= i <= k && ExitAt(runtime, w, ticks, i).Some?
  }

  /** If something passes by tick k, a first thing does. */
  lemma {:induction false} SomePassGivesFirst(rule: Rule, w: WindowSize, marks: seq<real>, k: nat) returns (first: nat)
    requires k < |marks| && Passes(rule, w, marks, k)
    ensures first <= k && FirstPass(rule, w, marks, first)
  {
    if exists i :: 0 <= i < k && Passes(rule, w, marks, i) {
      var i :| 0 <= i < k && Passes(rule, w, marks, i);
      first := SomePassGivesFirst(rule, w, marks, i);
    } else {
      first := k;
    }
  }

  lemma PassMeansFired(runtime: Runtime, w: WindowSize, ticks: seq<PriceTick>, k: nat)
    requires Fresh(runtime) && SameCoin(runtime, ticks) && k < |ticks|
    requires Passes(runtime.rule, w, MarksOf(ticks), k)
    ensures HasFiredBy(runtime, w, ticks, k)
  {
    var first := SomePassGivesFirst(runtime.rule, w, MarksOf(ticks), k);
    FirstPassage(runtime, w, ticks, first);
  }

  lemma {:induction false} BestOf(side: PositionSide, s: seq<real>) returns (best: nat)
    requires s != []
    ensures best < |s| && forall i :: 0 <= i < |s| ==> AtLeastAsGood(side, s[best], s[i])
  {
    best := 0;
    if |s| > 1 {
      var n := |s| - 1;
      best := BestOf(side, s[..n]);
      assert forall i :: 0 <= i < n ==> s[..n][i] == s[i];
      if AtLeastAsGood(side, s[n], s[best]) {
        best := n;
      }
    }
  }

  /** Some mark up to `j` is at least as favourable as the window mean at `j`. */
  lemma MeanNeverLeads(rule: Rule, w: WindowSize, marks: seq<real>, j: nat) returns (lead: nat)
    requires rule.trailMode == MovingAverage && j < |marks|
    ensures lead <= j && AtLeastAsGood(rule.side, marks[lead], SignalAt(rule, w, marks, j))
  {
    var upTo := marks[..j + 1];
    var recent := LastN(upTo, w);
    var best := BestOf(rule.side, recent);
    var worst := BestOf(if rule.side == Long then Short else Long, recent);
    if rule.side == Long {
      MeanBounded(recent, recent[worst], recent[best]);
    } else {
      MeanBounded(recent, recent[best], recent[worst]);
    }
    lead := best + |upTo| - |recent|;
  }

  /** The same rule in another mode. */
  function InMode(runtime: Runtime, mode: TrailMode): Runtime {
    runtime.(rule := runtime.rule.(trailMode := mode))
  }

  /** On the same ticks, with the same trail value and any window, an ABSOLUTE
      rule has fired whenever the MOVING_AVERAGE rule fires. */
  lemma AbsoluteDominatesMovingAverage(runtime: Runtime, w: WindowSize, ticks: seq<PriceTick>, k: nat)
    requires Fresh(runtime) && SameCoin(runtime, ticks) && k < |ticks|
    requires runtime.rule.trailMode == MovingAverage
    requires ExitAt(runtime, w, ticks, k).Some?
    ensures HasFiredBy(InMode(runtime, Absolute), w, ticks, k)
  {
    var marks := MarksOf(ticks);
    var absolute := InMode(runtime, Absolute);
    FirstPassage(runtime, w, ticks, k);
    var j :| 0 <= j <= k && PairPasses(runtime.rule, w, marks, j, k);
    var lead := MeanNeverLeads(runtime.rule, w, marks, j);
    assert PairPasses(absolute.rule, w, marks, lead, k);
    PassMeansFired(absolute, w, ticks, k);
  }

  lemma TighterStop(rule: Rule, tighter: real, signal: real)
    requires 0.0 < tighter <= rule.trailValue
    requires rule.trailMode == Percent ==> signal > 0.0
    ensures AtLeastAsGood(rule.side, StopPrice(rule.(trailValue := tighter), signal), StopPrice(rule, signal))
  {
    ScaleMonotone(tighter / 100.0, rule.trailValue / 100.0, if signal > 0.0 then signal else 0.0);
  }

  /** A tighter trail value fires at or before a wider one. */
  lemma TighterFiresNoLater(runtime: Runtime, tighter: real, w: WindowSize, ticks: seq<PriceTick>, k: nat)
    requires Fresh(runtime) && SameCoin(runtime, ticks) && k < |ticks|
    requires 0.0 < tighter <= runtime.rule.trailValue
    requires runtime.rule.trailMode == Percent ==> Positive(MarksOf(ticks))
    requires ExitAt(runtime, w, ticks, k).Some?
    ensures HasFiredBy(runtime.(rule := runtime.rule.(trailValue := tighter)), w, ticks, k)
  {
    var marks := MarksOf(ticks);
    var tight := runtime.(rule := runtime.rule.(trailValue := tighter));
    FirstPassage(runtime, w, ticks, k);
    var j :| 0 <= j <= k && PairPasses(runtime.rule, w, marks, j, k);
    TighterStop(runtime.rule, tighter, SignalAt(runtime.rule, w, marks, j));
    assert PairPasses(tight.rule, w, marks, j, k);
    PassMeansFired(tight, w, ticks, k);
  }

  // ---------------------------------------------------------------------
  // Symmetries
  // ---------------------------------------------------------------------

  predicate AffineMarks(a: seq<PriceTick>, b: seq<PriceTick>, scale: real, shift: real) {
    |a| == |b| && forall i :: 0 <= i < |a| ==> b[i].mark == scale * a[i].mark + shift
  }

  lemma SignalAffine(a: Rule, b: Rule, w: WindowSize, marks: seq<real>, image: seq<real>,
                     scale: real, shift: real, j: nat)
    requires a.trailMode == b.trailMode
    requires |marks| == |image| && j < |marks|
    requires forall i :: 0 <= i < |marks| ==> image[i] == scale * marks[i] + shift
    ensures SignalAt(b, w, image, j) == scale * SignalAt(a, w, marks, j) + shift
  {
    if a.trailMode == MovingAverage {
      MeanAffine(LastN(marks[..j + 1], w), LastN(image[..j + 1], w), scale, shift);
    }
  }

  /** What relates two rules whose runs are images of each other. */
  predicate Mirrors(a: Rule, b: Rule, scale: real, shift: real) {
    || (a.trailMode != Percent && b == a && scale == 1.0)
    || (a.trailMode != Percent && scale == -1.0 && shift == 0.0
        && b == a.(side := if a.side == Long then Short else Long))
    || (a.trailMode == Percent && b == a && scale > 0.0 && shift == 0.0)
  }

  lemma PercentStopScales(rule: Rule, signal: real, scale: real)
    requires rule.trailMode == Percent
    ensures StopPrice(rule, scale * signal) == scale * StopPrice(rule, signal)
  {
    var f := rule.trailValue / 100.0;
    var d := signal * f;
    assert (scale * signal) * f == scale * d;
    assert scale * (signal - d) == scale * signal - scale * d;
    assert scale * (signal + d) == scale * signal + scale * d;
  }

  lemma CrossedScaled(rule: Rule, signal: real, mark: real, scale: real)
    requires rule.trailMode == Percent && scale > 0.0
    ensures Crossed(rule.side, mark, StopPrice(rule, signal))
       <==> Crossed(rule.side, scale * mark, StopPrice(rule, scale * signal))
  {
    var stop := StopPrice(rule, signal);
    assert StopPrice(rule, scale * signal) == scale * stop by {
      PercentStopScales(rule, signal, scale);
    }
    ScaleStrict(mark, stop, scale);
    ScaleStrict(stop, mark, scale);
  }

  lemma CrossedShifted(rule: Rule, signal: real, mark: real, shift: real)
    requires rule.trailMode != Percent
    ensures Crossed(rule.side, mark, StopPrice(rule, signal))
       <==> Crossed(rule.side, mark + shift, StopPrice(rule, signal + shift))
  {
  }

  lemma CrossedNegated(rule: Rule, mirrored: Rule, signal: real, mark: real)
    requires rule.trailMode != Percent
    requires mirrored == rule.(side := if rule.side == Long then Short else Long)
    ensures Crossed(rule.side, mark, StopPrice(rule, signal))
       <==> Crossed(mirrored.side, -mark, StopPrice(mirrored, -signal))
  {
  }

  lemma CrossedAffine(a: Rule, b: Rule, signal: real, mark: real, scale: real, shift: real,
                      imageSignal: real, imageMark: real)
    requires Mirrors(a, b, scale, shift)
    requires imageSignal == scale * signal + shift && imageMark == scale * mark + shift
    ensures Crossed(a.side, mark, StopPrice(a, signal))
       <==> Crossed(b.side, imageMark, StopPrice(b, imageSignal))
  {
    if a.trailMode == Percent {
      CrossedScaled(a, signal, mark, scale);
    } else if b == a && scale == 1.0 {
      CrossedShifted(a, signal, mark, shift);
    } else {
      CrossedNegated(a, b, signal, mark);
    }
  }

  lemma PairPassesAffine(a: Rule, b: Rule, w: WindowSize, marks: seq<real>, image: seq<real>,
                         scale: real, shift: real, j: nat, i: nat)
    requires Mirrors(a, b, scale, shift)
    requires |marks| == |image| && j <= i < |marks|
    requires image[i] == scale * marks[i] + shift
    requires SignalAt(b, w, image, j) == scale * SignalAt(a, w, marks, j) + shift
    ensures PairPasses(a, w, marks, j, i) <==> PairPasses(b, w, image, j, i)
  {
    CrossedAffine(a, b, SignalAt(a, w, marks, j), marks[i], scale, shift, SignalAt(b, w, image, j), image[i]);
  }

  lemma PassesAffine(a: Rule, b: Rule, w: WindowSize, marks: seq<real>, image: seq<real>,
                     scale: real, shift: real, i: nat)
    requires Mirrors(a, b, scale, shift)
    requires |marks| == |image| && i < |marks|
    requires forall i :: 0 <= i < |marks| ==> image[i] == scale * marks[i] + shift
    ensures Passes(a, w, marks, i) <==> Passes(b, w, image, i)
  {
    forall j | 0 <= j <= i
      ensures PairPasses(a, w, marks, j, i) <==> PairPasses(b, w, image, j, i)
    {
      SignalAffine(a, b, w, marks, image, scale, shift, j);
      PairPassesAffine(a, b, w, marks, image, scale, shift, j, i);
    }
  }

  /** Shifting all prices (ABSOLUTE, MOVING_AVERAGE), negating them and
      swapping the side (same modes), or scaling them up (PERCENT) changes
      nothing about which tick fires. */
  lemma RunSymmetry(runtime: Runtime, image: Runtime, w: WindowSize,
                    ticks: seq<PriceTick>, imageTicks: seq<PriceTick>, scale: real, shift: real, k: nat)
    requires Fresh(runtime) && SameCoin(runtime, ticks) && SameCoin(image, imageTicks)
    requires Fresh(image) && Mirrors(runtime.rule, image.rule, scale, shift)
    requires AffineMarks(ticks, imageTicks, scale, shift) && k < |ticks|
    ensures ExitAt(runtime, w, ticks, k).Some? <==> ExitAt(image, w, imageTicks, k).Some?
  {
    var m, n := MarksOf(ticks), MarksOf(imageTicks);
    FirstPassage(runtime, w, ticks, k);
    FirstPassage(image, w, imageTicks, k);
    forall i | 0 <= i <= k
      ensures Passes(runtime.rule, w, m, i) <==> Passes(image.rule, w, n, i)
    {
      PassesAffine(runtime.rule, image.rule, w, m, n, scale, shift, i);
    }
  }

  // ---------------------------------------------------------------------
  // Gap bound and blocked exits
  // ---------------------------------------------------------------------

  predicate StepsWithin(marks: seq<real>, d: real) {
    forall i :: 0 < i < |marks| ==> -d <= marks[i] - marks[i - 1] <= d
  }

  /** A mark that crosses the stop it leaves behind was not a new extremum:
      it crossed the stop that was already there. */
  lemma FiringMarkKeepsStop(rule: Rule, w: WindowSize, trail: Trail, mark: real)
    requires ValidNumbers(rule) && Consistent(rule, trail) && trail.favorable.Some?
    requires rule.trailMode != MovingAverage
    requires rule.trailMode == Percent ==> mark > 0.0
    requires Crossed(rule.side, mark, Advance(rule, w, trail, mark).stop.value)
    ensures Advance(rule, w, trail, mark).stop == trail.stop
  {
    if rule.trailMode == Percent {
      ScaleStrict(0.0, mark, rule.trailValue / 100.0);
    }
  }

  /** When consecutive marks differ by at most `d`, an ABSOLUTE or PERCENT exit
      overshoots its stop by less than `d`. */
  lemma ExitGapBound(runtime: Runtime, w: WindowSize, ticks: seq<PriceTick>, k: nat, d: real)
    requires Fresh(runtime) && SameCoin(runtime, ticks) && k < |ticks|
    requires runtime.rule.trailMode != MovingAverage
    requires runtime.rule.trailMode == Percent ==> Positive(MarksOf(ticks))
    requires StepsWithin(MarksOf(ticks), d)
    requires ExitAt(runtime, w, ticks, k).Some?
    ensures var exit := ExitAt(runtime, w, ticks, k).value;
      if runtime.rule.side == Long then exit.stop - d < exit.mark <= exit.stop
      else exit.stop <= exit.mark < exit.stop + d
  {
    var rule, marks := runtime.rule, MarksOf(ticks);
    FirstPassageOfMarks(runtime, w, ticks, k);
    FirstPassage(runtime, w, ticks, k);
    ObservingIsFeeding(runtime, w, ticks[..k]);
    assert MarksOf(ticks[..k]) == marks[..k];
    PassesPrefix(rule, w, marks, k);
    // The stop is still the one that the previous mark did not cross.
    var before := Feed(rule, w, FRESH_TRAIL, marks[..k]);
    FavorableIsExtremum(rule, w, marks[..k]);
    CrossedIffPasses(rule, w, marks, k - 1);
    FiringMarkKeepsStop(rule, w, before, marks[k]);
  }

  lemma FeedSnoc(rule: Rule, w: WindowSize, trail: Trail, marks: seq<real>, mark: real)
    ensures Feed(rule, w, trail, marks + [mark]) == Advance(rule, w, Feed(rule, w, trail, marks), mark)
  {
    assert (marks + [mark])[..|marks|] == marks;
  }

  /** The same rule up to its status fields, which the engine never reads. */
  predicate SamePriceRule(a: Rule, b: Rule) {
    a.(status := b.status, liveStatus := b.liveStatus) == b
  }

  lemma EngineIgnoresStatus(a: Rule, b: Rule, w: WindowSize, trail: Trail, mark: real)
    requires SamePriceRule(a, b)
    ensures Advance(a, w, trail, mark) == Advance(b, w, trail, mark)
  {
    assert a.side == b.side && a.trailMode == b.trailMode && a.trailValue == b.trailValue;
    var favorable := Favorable(a.side, trail.favorable, Signal(a, w, trail.window, mark));
    assert Signal(a, w, trail.window, mark) == Signal(b, w, trail.window, mark);
    assert StopPrice(a, favorable) == StopPrice(b, favorable);
  }

  lemma StillCrossed(side: PositionSide, mark: real, stop: real, worse: real, ratcheted: real)
    requires Crossed(side, mark, stop)
    requires AtLeastAsGood(side, mark, worse) && AtLeastAsGood(side, ratcheted, stop)
    ensures Crossed(side, worse, ratcheted)
  {
  }

  /** An exit whose latch is opened again is not forgotten: the stop survives
      and only ratchets, so whatever marks were fed in between, the next mark
      at the same or a worse price fires, in all three modes. */
  lemma BlockedExitFiresAgain(runtime: Runtime, w: WindowSize, tick: PriceTick, between: seq<real>, later: Runtime,
                              next: PriceTick)
    requires WellFormed(runtime.rule)
    requires Observed(runtime, w, tick).1.Some?
    requires SamePriceRule(later.rule, runtime.rule)
    requires later.trail == Feed(runtime.rule, w, Observed(runtime, w, tick).0.trail, between)
    requires Listens(later, next)
    requires AtLeastAsGood(runtime.rule.side, tick.mark, next.mark)
    ensures Observed(later, w, next).1.Some?
  {
    var rule := runtime.rule;
    var fired := Observed(runtime, w, tick).0.trail;
    var after := Feed(rule, w, fired, between + [next.mark]);
    assert after == Advance(later.rule, w, later.trail, next.mark) by {
      FeedSnoc(rule, w, fired, between, next.mark);
      EngineIgnoresStatus(later.rule, rule, w, later.trail, next.mark);
    }
    StopRatchets(rule, w, fired, between + [next.mark]);
    StillCrossed(rule.side, tick.mark, fired.stop.value, next.mark, after.stop.value);
  }
}
