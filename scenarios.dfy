/** Worked shots: concrete recipes and ticks, evaluated through the model. */
module Scenarios {
  import opened StopConditions
  import opened Phases
  import opened Profiler

  const Linear: Curve := (p: real) => p

  /** Global limits all switched off. */
  const NoGlobalLimits := GlobalStopConditions(0.0, -1, 0.0)

  function StopAfter(time: int): PhaseStopConditions {
    PhaseStopConditions(time, 0.0, 0.0, 0.0, 0.0, 0.0, 0.0)
  }

  function StopAtWeight(weight: real): PhaseStopConditions {
    PhaseStopConditions(-1, weight, 0.0, 0.0, 0.0, 0.0, 0.0)
  }

  /** A scale-driven reading: the scale shows `shotWeight` and a flow of `flow`. */
  function OnScale(shotWeight: real, flow: real): SensorState {
    SensorState(shotWeight, flow, 0.0, 9.0, shotWeight, 0.0)
  }

  const Start := ShotSnapshot(0, 0.0, 0.0)

  /** Ramp the pressure from 0 to 9 over 5 s, then hold 9 until the cup weighs 36. */
  function RampThenWeight(): seq<Phase> {
    [ Phase(PressurePhase, Target(0.0, 9.0, Linear, 5000), 0.0, StopAfter(5000)),
      Phase(PressurePhase, Target(9.0, 9.0, Linear, 0), 0.0, StopAtWeight(36.0)) ]
  }

  /** The ramp begins at 0: at the first tick the first phase is active with setpoint 0. */
  lemma RampStartScenario()
    ensures Advance(RampThenWeight(), NoGlobalLimits, 0, Start, 0, OnScale(0.0, 0.0))
         == TickOutcome(0, Start, 0, 0)
    ensures GetTarget(RampThenWeight()[0], 0) == 0.0
  {
    TargetEndpoints(RampThenWeight()[0], 0);
  }

  /** Halfway through the 5 s ramp the first phase is still active, with setpoint 4.5. */
  lemma RampMidwayScenario()
    ensures Advance(RampThenWeight(), NoGlobalLimits, 0, Start, 2500, OnScale(10.0, 2.0))
         == TickOutcome(0, Start, 0, 2500)
    ensures GetTarget(RampThenWeight()[0], 2500) == 4.5
  {
    var ramp := RampThenWeight()[0];
    assert TransitionTime(ramp) == 5000;
    TargetLinear(ramp, 2500);
    assert (2500 as real) / (5000 as real) == 0.5;
  }

  /** At 5000 ms the ramp's stop time is met and the second phase begins with a fresh
      snapshot, its weight threshold not yet reached. */
  lemma RampEndScenario()
    ensures Advance(RampThenWeight(), NoGlobalLimits, 0, Start, 5000, OnScale(20.0, 2.0))
         == TickOutcome(1, ShotSnapshot(5000, 20.0, 0.0), 1, 0)
  {
    var phases, s := RampThenWeight(), OnScale(20.0, 2.0);
    assert PhaseReached(phases[0].stopConditions, s, 5000, Start);
    assert !PhaseReached(phases[1].stopConditions, s, 5000, TakeSnapshot(5000, s));
  }

  /** The weight threshold with its margin is strict: 35.8 with a flow of 0.4 (margin 0.2)
      against 36 does not end the shot; 35.9 does. */
  lemma WeightBoundaryScenario()
    ensures Advance(RampThenWeight(), NoGlobalLimits, 1, ShotSnapshot(5000, 20.0, 0.0), 6000, OnScale(35.8, 0.4))
         == TickOutcome(1, ShotSnapshot(5000, 20.0, 0.0), 1, 1000)
    ensures Advance(RampThenWeight(), NoGlobalLimits, 1, ShotSnapshot(5000, 20.0, 0.0), 6000, OnScale(35.9, 0.4))
         == TickOutcome(2, ShotSnapshot(6000, 35.9, 0.0), 1, 0)
  {
  }

  /** A phase with stop time 0 is passed on the very tick it starts; the next phase is
      entered, not skipped. */
  lemma SameTickSkipScenario()
    ensures Advance([Phase(PressurePhase, Target(2.0, 2.0, Linear, 0), 0.0, StopAfter(0)),
                     Phase(FlowPhase, Target(1.5, 1.5, Linear, 0), 9.0, StopAtWeight(36.0))],
                    NoGlobalLimits, 0, Start, 0, OnScale(0.0, 0.0))
         == TickOutcome(1, Start, 1, 0)
  {
  }
}
