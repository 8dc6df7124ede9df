/** The price engine of trailing.py: a specification on values, and the
    stateful classes proved against it. */
module Trailing {
  import opened Prelude
  import opened Models

  /** The part of a rule's runtime that the price feed drives. */
  datatype Trail = Trail(favorable: Option<real>, stop: Option<real>, window: seq<real>)

  datatype Runtime = Runtime(rule: Rule, protectedSize: real, trail: Trail, triggered: bool)

  const FRESH_TRAIL := Trail(None, None, [])

  /** Number of marks a moving average looks back on. */
  type WindowSize = n: nat | n > 0 witness 20

  function FreshRuntime(rule: Rule): Runtime {
    Runtime(rule, 0.0, FRESH_TRAIL, false)
  }

  function Window(rule: Rule, w: WindowSize, window: seq<real>, mark: real): seq<real> {
    if rule.trailMode == MovingAverage then LastN(window + [mark], w) else window
  }

  function Signal(rule: Rule, w: WindowSize, window: seq<real>, mark: real): real {
    if rule.trailMode == MovingAverage then Mean(LastN(window + [mark], w)) else mark
  }

  /** `a` is at least as favourable as `b` for a position on `side`. */
  predicate AtLeastAsGood(side: PositionSide, a: real, b: real) {
    if side == Long then a >= b else a <= b
  }

  function Favorable(side: PositionSide, favorable: Option<real>, signal: real): real {
    if favorable.Some? && AtLeastAsGood(side, favorable.value, signal) then favorable.value else signal
  }

  function StopPrice(rule: Rule, favorable: real): real {
    var distance := if rule.trailMode == Percent then favorable * (rule.trailValue / 100.0) else rule.trailValue;
    if rule.side == Long then favorable - distance else favorable + distance
  }

  /** The stop lies one trail distance away from the favourable price: a fraction
      of that price in PERCENT mode, the trail value itself in both others. */
  predicate StopIsAway(rule: Rule, favorable: real, stop: real) {
    match (rule.trailMode, rule.side)
    case (Percent, Long) => stop == favorable * (1.0 - rule.trailValue / 100.0)
    case (Percent, Short) => stop == favorable * (1.0 + rule.trailValue / 100.0)
    case (Absolute, Long) => stop == favorable - rule.trailValue
    case (Absolute, Short) => stop == favorable + rule.trailValue
    case (MovingAverage, Long) => stop == favorable - rule.trailValue
    case (MovingAverage, Short) => stop == favorable + rule.trailValue
  }

  lemma StopPriceIsAway(rule: Rule, favorable: real)
    ensures StopIsAway(rule, favorable, StopPrice(rule, favorable))
  {
    var f := rule.trailValue / 100.0;
    assert favorable * (1.0 - f) == favorable - favorable * f;
    assert favorable * (1.0 + f) == favorable + favorable * f;
  }

  predicate Crossed(side: PositionSide, mark: real, stop: real) {
    if side == Long then mark <= stop else mark >= stop
  }

  /** One mark moves the window, the favourable price and the stop. */
  function Advance(rule: Rule, w: WindowSize, trail: Trail, mark: real): Trail {
    var favorable := Favorable(rule.side, trail.favorable, Signal(rule, w, trail.window, mark));
    Trail(Some(favorable), Some(StopPrice(rule, favorable)), Window(rule, w, trail.window, mark))
  }

  function ExitFor(runtime: Runtime, tick: PriceTick, stop: real): TriggeredExit {
    TriggeredExit(
      runtime.rule.id, runtime.rule.coin, if runtime.rule.side == Long then Sell else Buy,
      runtime.protectedSize, tick.mark, stop,
      runtime.rule.executionMode, runtime.rule.exitOrderType, tick.observedAt)
  }

  /** The rule is armed for this tick. */
  predicate Listens(runtime: Runtime, tick: PriceTick) {
    tick.coin == runtime.rule.coin && !runtime.triggered && runtime.protectedSize > 0.0
  }

  /** What one observation does to a runtime, and the exit it fires. */
  function Observed(runtime: Runtime, w: WindowSize, tick: PriceTick): (Runtime, Option<TriggeredExit>) {
    if !Listens(runtime, tick) then (runtime, None)
    else
      var trail := Advance(runtime.rule, w, runtime.trail, tick.mark);
      var moved := runtime.(trail := trail);
      if Crossed(runtime.rule.side, tick.mark, trail.stop.value) then
        (moved.(triggered := true), Some(ExitFor(moved, tick, trail.stop.value)))
      else (moved, None)
  }

  function Increased(runtime: Runtime, filled: real): Runtime {
    if filled <= 0.0 then runtime
    else runtime.(protectedSize := Min(runtime.rule.size, runtime.protectedSize + filled))
  }

  class TrailingStopState {
    var rule: Rule
    var protectedSize: real
    var favorablePrice: Option<real>
    var stopPrice: Option<real>
    var movingWindow: seq<real>
    var triggered: bool

    ghost function Value(): Runtime
      reads this
    {
      Runtime(rule, protectedSize, Trail(favorablePrice, stopPrice, movingWindow), triggered)
    }

    constructor (runtime: Runtime)
      ensures Value() == runtime
    {
      rule := runtime.rule;
      protectedSize := runtime.protectedSize;
      favorablePrice := runtime.trail.favorable;
      stopPrice := runtime.trail.stop;
      movingWindow := runtime.trail.window;
      triggered := runtime.triggered;
    }

    method Read() returns (runtime: Runtime)
      ensures runtime == Value()
    {
      runtime := Runtime(rule, protectedSize, Trail(favorablePrice, stopPrice, movingWindow), triggered);
    }

    method IncreaseProtectedSize(filled: real)
      modifies this`protectedSize
      ensures Value() == Increased(old(Value()), filled)
    {
      if filled <= 0.0 {
        return;
      }
      protectedSize := Min(rule.size, protectedSize + filled);
    }
  }

  class TrailingStopEngine {
    const movingAverageWindow: WindowSize

    constructor (w: WindowSize)
      ensures movingAverageWindow == w
    {
      movingAverageWindow := w;
    }

    method SignalPrice(state: TrailingStopState, mark: real) returns (signal: real)
      modifies state`movingWindow
      ensures signal == Signal(state.rule, movingAverageWindow, old(state.movingWindow), mark)
      ensures state.movingWindow == Window(state.rule, movingAverageWindow, old(state.movingWindow), mark)
    {
      if state.rule.trailMode != MovingAverage {
        return mark;
      }
      ghost var all, dropped := state.movingWindow + [mark], 0;
      state.movingWindow := state.movingWindow + [mark];
      while |state.movingWindow| > movingAverageWindow
        invariant 0 <= dropped < |all| && state.movingWindow == all[dropped..]
        invariant dropped > 0 ==> |state.movingWindow| >= movingAverageWindow
        decreases |state.movingWindow|
      {
        state.movingWindow := state.movingWindow[1..];
        dropped := dropped + 1;
      }
      assert state.movingWindow == LastN(all, movingAverageWindow);
      signal := Mean(state.movingWindow);
    }

    method UpdateTrail(state: TrailingStopState, signal: real)
      modifies state`favorablePrice, state`stopPrice
      ensures state.favorablePrice == Some(Favorable(state.rule.side, old(state.favorablePrice), signal))
      ensures state.stopPrice == Some(StopPrice(state.rule, state.favorablePrice.value))
      ensures StopIsAway(state.rule, state.favorablePrice.value, state.stopPrice.value)
    {
      if state.favorablePrice == None {
        state.favorablePrice := Some(signal);
      } else if state.rule.side == Long && signal > state.favorablePrice.value {
        state.favorablePrice := Some(signal);
      } else if state.rule.side == Short && signal < state.favorablePrice.value {
        state.favorablePrice := Some(signal);
      }
      state.stopPrice := Some(StopPrice(state.rule, state.favorablePrice.value));
      StopPriceIsAway(state.rule, state.favorablePrice.value);
    }

    method Observe(state: TrailingStopState, tick: PriceTick) returns (exit: Option<TriggeredExit>)
      modifies state
      ensures (state.Value(), exit) == Observed(old(state.Value()), movingAverageWindow, tick)
    {
      if tick.coin != state.rule.coin {
        return None;
      }
      if state.triggered || state.protectedSize <= 0.0 {
        return None;
      }
      var signal := SignalPrice(state, tick.mark);
      UpdateTrail(state, signal);
      if Crossed(state.rule.side, tick.mark, state.stopPrice.value) {
        state.triggered := true;
        var runtime := state.Read();
        return Some(ExitFor(runtime, tick, state.stopPrice.value));
      }
      return None;
    }
  }
}
