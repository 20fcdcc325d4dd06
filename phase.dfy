/** A phase of a shot profile: its target ramp, its restriction and its stop conditions. */
module Phases {
  import opened StopConditions

  /** Shape of a ramp: maps normalised progress in (0, 1) to the fraction of the ramp covered. */
  type Curve = real -> real

  /** Whether the phase commands a flow or a pressure. */
  datatype PhaseType = FlowPhase | PressurePhase

  /** A ramp from `start` to `end` over `time` ms; a `time` <= 0 takes the duration from
      the phase's stop time. */
  datatype Target = Target(start: real, end: real, curve: Curve, time: int)

  datatype Phase = Phase(kind: PhaseType, target: Target, restriction: real, stopConditions: PhaseStopConditions)

  /** The curve stays within the ramp's endpoints on the open unit interval. */
  ghost predicate BoundedCurve(curve: Curve) {
    forall p: real :: 0.0 < p < 1.0 ==> 0.0 <= curve(p) <= 1.0
  }

  /** Curve-shaped interpolation of `x` from [fromLow, fromHigh] onto [toLow, toHigh],
      clamped to `toHigh` at or after `fromHigh` and to `toLow` at or before `fromLow`. */
  function MapRange(x: real, fromLow: real, fromHigh: real, toLow: real, toHigh: real, curve: Curve): (r: real)
    ensures x >= fromHigh ==> r == toHigh
    ensures fromLow < fromHigh && x <= fromLow ==> r == toLow
    ensures BoundedCurve(curve) ==> Min(toLow, toHigh) <= r <= Max(toLow, toHigh)
  {
    if x >= fromHigh then toHigh
    else if x <= fromLow then toLow
    else
      var p := (x - fromLow) / (fromHigh - fromLow);
      ProperFraction(x - fromLow, fromHigh - fromLow);
      BetweenEndpoints(toLow, toHigh, p, curve);
      toLow + (toHigh - toLow) * curve(p)
  }

  function Min(a: real, b: real): real { if a <= b then a else b }
  function Max(a: real, b: real): real { if a <= b then b else a }

  lemma ProperFraction(a: real, b: real)
    requires 0.0 < a < b
    ensures 0.0 < a / b < 1.0
  {
    var q := a / b;
    assert q * b == a;
    assert (1.0 - q) * b == b - a;
    NonPositiveProduct(q, b);
    NonPositiveProduct(1.0 - q, b);
  }

  lemma NonPositiveProduct(x: real, b: real)
    requires b > 0.0
    ensures x <= 0.0 ==> x * b <= 0.0
  {
  }

  /** A point of the ramp lies between its endpoints when the curve is bounded. */
  lemma BetweenEndpoints(toLow: real, toHigh: real, p: real, curve: Curve)
    requires 0.0 < p < 1.0
    ensures BoundedCurve(curve) ==> Min(toLow, toHigh) <= toLow + (toHigh - toLow) * curve(p) <= Max(toLow, toHigh)
  {
    if BoundedCurve(curve) {
      var f, d := curve(p), toHigh - toLow;
      assert 0.0 <= f <= 1.0;
      assert d - d * f == d * (1.0 - f);
      if d >= 0.0 {
        assert 0.0 <= d * f && 0.0 <= d * (1.0 - f);
      } else {
        assert d * f <= 0.0 && d * (1.0 - f) <= 0.0;
      }
    }
  }

  /** Duration of the ramp: the target's own time when it is positive, otherwise the
      phase's stop time, and never negative. */
  function TransitionTime(phase: Phase): (r: int)
    ensures r >= 0
    ensures phase.target.time > 0 ==> r == phase.target.time
    ensures phase.target.time <= 0 && phase.stopConditions.time >= 0 ==> r == phase.stopConditions.time
    ensures phase.target.time <= 0 && phase.stopConditions.time < 0 ==> r == 0
  {
    var t := if phase.target.time > 0 then phase.target.time else phase.stopConditions.time;
    if t > 0 then t else 0
  }

  /** Phase::getTarget: the setpoint `timeInPhase` ms into the phase. */
  function GetTarget(phase: Phase, timeInPhase: nat): real {
    MapRange(timeInPhase as real, 0.0, TransitionTime(phase) as real,
             phase.target.start, phase.target.end, phase.target.curve)
  }

  /** The ramp starts at `start` and holds `end` from the transition time on. */
  lemma TargetEndpoints(phase: Phase, timeInPhase: nat)
    ensures timeInPhase >= TransitionTime(phase) ==> GetTarget(phase, timeInPhase) == phase.target.end
    ensures timeInPhase == 0 < TransitionTime(phase) ==> GetTarget(phase, 0) == phase.target.start
  {
  }

  /** With a bounded curve the setpoint never leaves the ramp's range. */
  lemma TargetWithinRamp(phase: Phase, timeInPhase: nat)
    requires BoundedCurve(phase.target.curve)
    ensures Min(phase.target.start, phase.target.end) <= GetTarget(phase, timeInPhase)
                                                      <= Max(phase.target.start, phase.target.end)
  {
  }

  /** With the identity curve the ramp is linear in the time spent in the phase. */
  lemma TargetLinear(phase: Phase, timeInPhase: nat)
    requires forall p: real :: phase.target.curve(p) == p
    requires timeInPhase < TransitionTime(phase)
    ensures GetTarget(phase, timeInPhase)
         == phase.target.start
            + (phase.target.end - phase.target.start) * (timeInPhase as real / TransitionTime(phase) as real)
  {
  }
}
