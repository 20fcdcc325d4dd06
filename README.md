# Espresso-shot phase sequencer (gaggiuino `profiling_phases`), modelled in Dafny

This project models the phase sequencer of the gaggiuino espresso-machine firmware,
found in `src/functional/profiling_phases.cpp`. A shot profile is a non-empty sequence of
phases. Each phase has:

- a target ramp (start, end, curve, duration);
- a restriction value;
- per-phase stop conditions.

On every control tick, `PhaseProfiler::updatePhase(timeInShot, sensors)` does three things in order:

1. It checks the whole-shot (global) stop conditions.
2. It checks the active phase's stop conditions against the snapshot taken when that phase began.
3. If the phase's conditions are met, it moves to the next phase and evaluates the same tick again.

Then it refreshes the `CurrentPhase` view that the control loop reads.

Modules, one per component of the source file:

- `StopConditions` (`stop_conditions.dfy`): sensor readings, the snapshot, and both stop
  predicates. `PhaseReached` and `GlobalReached` are the source's disjunctions. They are written
  through `PhaseReachedWithin` and `GlobalReachedWithin`, which take the stop margin as a
  parameter, so the margin can be discussed on its own. The `Criterion`, `Active` and
  `Crossed` definitions give a reference reading of the per-phase predicate: one threshold per
  criterion.
- `Phases` (`phase.dfy`): the `Phase` value, the ramp duration (`TransitionTime`) and the
  setpoint (`GetTarget`).
- `CurrentPhaseView` (`current_phase.dfy`): `CurrentPhase` is a class. It holds the borrowed
  phase sequence, the index of the active phase and the time spent in it.
- `Profiler` (`phase_profiler.dfy`): `Advance` is the recursive specification of one
  `updatePhase` call. Its termination measure is `|phases| - phaseIdx`. `Replay` applies it to
  a chronological sequence of ticks. The `PhaseProfiler` class holds the state the source
  mutates. Its `UpdatePhase` method runs the same-tick re-entry as a loop and is proved
  equal to `Advance`.
- `Scenarios` (`scenarios.dfy`): worked shots evaluated through the model.

Modelling choices:

- Sensor quantities are exact `real`s and times are `int` milliseconds.
- The phase type is `FlowPhase | PressurePhase`.
- `CurrentPhase` designates its phase by an index into the borrowed sequence, not by a pointer.
- `Phase::isStopConditionReached` (lines 15-17) only delegates. In the model it is
  `PhaseReached(phase.stopConditions, …)`, called directly in `Advance`.
- `Phase::getRestriction` (lines 11-13) is the `restriction` field of `Phase`.

The weight threshold and its margin are compared strictly: the test is
`shotWeight > weight - flow/2`. Take a shot weight of 35.8 g, a scale flow of 0.4 g/s and a
threshold of 36 g. The margin is 0.2, so 35.8 exactly meets 36 − 0.2, and under a strict
comparison the phase does not end. One could read the margin as "stop once the weight
reaches threshold − margin", which would end it. The model follows the code.
`Scenarios.WeightBoundaryScenario` proves the code's behaviour: 35.8 g keeps the phase and
35.9 g ends it.

## Model

| member | source | states |
|---|---|---|
| `StopConditions.PhaseReachedIffActiveCrossed` | src/functional/profiling_phases.cpp:22-33 | A phase ends exactly when some active threshold has been crossed, both directions. Time is active when >= 0, the other thresholds when > 0. Weight and water-in-phase are lowered by half the flow. |
| `StopConditions.AllInactiveNeverReached` | src/functional/profiling_phases.cpp:26-32 | When every threshold is inactive, the per-phase predicate is false for every reading and time. |
| `StopConditions.ZeroTimeReachedImmediately` | src/functional/profiling_phases.cpp:26 | A stop time of 0 is met as soon as the time in phase is >= 0, whatever the other readings. |
| `StopConditions.NegativeTimeIgnored` | src/functional/profiling_phases.cpp:26-32 | A negative stop time never contributes. The predicate then holds exactly when a non-time active threshold is crossed. |
| `StopConditions.PhaseMarginMonotone` | src/functional/profiling_phases.cpp:24-30 | A larger stop margin ends a phase no later than a smaller one. |
| `StopConditions.PhaseMarginAnticipates` | src/functional/profiling_phases.cpp:23-30 | With a non-negative flow, every reading that meets the raw thresholds also meets the thresholds with the margin. |
| `StopConditions.PhaseMarginOnlyWeightAndWater` | src/functional/profiling_phases.cpp:26-32 | Without weight and water-in-phase thresholds, the margin makes no difference to the predicate. |
| `StopConditions.FlowSourceSelection` | src/functional/profiling_phases.cpp:23-24 | The margin depends only on the scale flow when the scale reads above 0.4. It depends only on the pump flow otherwise. |
| `StopConditions.RawCriteriaIgnoreMargin` | src/functional/profiling_phases.cpp:28-32 | Each active pressure or pump-flow threshold compares the raw reading. It ends the phase whatever the margin. |
| `StopConditions.GlobalTimeFires` | src/functional/profiling_phases.cpp:41 | A global time limit >= 0, including 0, ends the shot once the time in shot reaches it. |
| `StopConditions.GlobalWaterHasNoMargin` | src/functional/profiling_phases.cpp:36-41 | Without a global weight limit, the global predicate does not depend on the margin. The water limit compares the raw total. |
| `StopConditions.GlobalInactiveNeverReached` | src/functional/profiling_phases.cpp:39-41 | With weight and water <= 0 and time < 0, the global predicate never holds. |
| `StopConditions.GlobalWeightWithMargin` | src/functional/profiling_phases.cpp:36-39 | An active global weight limit fires once shotWeight plus half the flow exceeds it. With the other limits off, it fires only then. |
| `Phases.MapRange` | src/functional/profiling_phases.cpp:8 | The ramp is clamped to its end at or after the domain's end, and to its start at or before the domain's start. With a bounded curve, it stays between start and end. |
| `Phases.TransitionTime` | src/functional/profiling_phases.cpp:7 | The ramp duration is never negative. It is the target time when positive, otherwise the stop time, and 0 when the stop time is negative. |
| `Phases.TargetEndpoints` | src/functional/profiling_phases.cpp:6-9 | The setpoint is the ramp's end from the transition time on. It is the ramp's start at time 0 when the ramp has a duration. |
| `Phases.TargetWithinRamp` | src/functional/profiling_phases.cpp:6-9 | With a bounded curve, the setpoint never leaves [min(start,end), max(start,end)]. |
| `Phases.TargetLinear` | src/functional/profiling_phases.cpp:6-9 | With the identity curve and a time before the transition ends, the setpoint is start + (end − start)·t/T. |
| `CurrentPhaseView.CurrentPhase.constructor` | src/functional/profiling_phases.cpp:47 | The view designates phase `index` of the sequence and holds the given time in phase. |
| `CurrentPhaseView.CurrentPhase.Copy` | src/functional/profiling_phases.cpp:48 | A copy designates the same phase of the same sequence, with the same index and time. |
| `CurrentPhaseView.CurrentPhase.Update` | src/functional/profiling_phases.cpp:62-66 | Sets exactly the index (and with it the phase) and the time in phase. |
| `CurrentPhaseView.CurrentPhase.GetPhase` | src/functional/profiling_phases.cpp:50 | Gives the phase the index designates. |
| `CurrentPhaseView.CurrentPhase.GetType` | src/functional/profiling_phases.cpp:52 | Gives the designated phase's type. |
| `CurrentPhaseView.CurrentPhase.GetIndex` | src/functional/profiling_phases.cpp:54 | The index is always a valid position in the sequence. |
| `CurrentPhaseView.CurrentPhase.GetTimeInPhase` | src/functional/profiling_phases.cpp:56 | The time in phase is never negative. |
| `CurrentPhaseView.CurrentPhase.GetTarget` | src/functional/profiling_phases.cpp:58 | The setpoint is the ramp's end once the transition time has passed, and its start at time 0. With a bounded curve it stays within the ramp. |
| `CurrentPhaseView.CurrentPhase.GetRestriction` | src/functional/profiling_phases.cpp:60 | Gives the designated phase's restriction. |
| `Profiler.TakeSnapshot` | src/functional/profiling_phases.cpp:91 | A transition's snapshot carries the current tick's time. |
| `Profiler.Advance` | src/functional/profiling_phases.cpp:74-93 | One tick never lowers the index and never takes it past the phase count. The view index is valid. The snapshot time lies between the old one and the tick time. The time in phase is non-negative. |
| `Profiler.AdvanceOutcome` | src/functional/profiling_phases.cpp:78-88 | After a tick, either the index is the count and the view rests on the last phase, or neither predicate holds and the view's index is the active index. In both cases, the time in phase is measured from the final snapshot. |
| `Profiler.FinishedStaysFinished` | src/functional/profiling_phases.cpp:78-82 | A tick on a finished profiler keeps it finished with its snapshot. |
| `Profiler.GlobalTakesPrecedence` | src/functional/profiling_phases.cpp:78-82 | When the global predicate holds, the tick ends the shot and keeps the snapshot, whatever the phase predicate says. |
| `Profiler.AdvanceSnapshot` | src/functional/profiling_phases.cpp:85-92 | After a transition by the phase predicate, the snapshot is the current tick's and the new phase has no time in it. Without one, the snapshot is kept and the index stays or jumps to the end. |
| `Profiler.AdvanceIdempotent` | src/functional/profiling_phases.cpp:74-93 | Running the same tick again on the outcome changes nothing. |
| `Profiler.InactivePhaseHolds` | src/functional/profiling_phases.cpp:78-88 | A phase with every threshold inactive is left only when the global predicate holds. |
| `Profiler.ZeroTimePhasesFinishInOneTick` | src/functional/profiling_phases.cpp:85-92 | When all remaining phases have stop time 0, one tick runs through all of them and ends the shot. |
| `Profiler.SkipLandsOnNextPhase` | src/functional/profiling_phases.cpp:85-92 | Suppose a met phase is followed by one whose predicate is false against the fresh snapshot. Then the tick lands on that next phase, with no time in it. |
| `Profiler.Replay` | src/functional/profiling_phases.cpp:74-93 | Over chronological ticks, the phase index never decreases and never passes the count. |
| `Profiler.ReplayFinishedStays` | src/functional/profiling_phases.cpp:78-82 | Once finished, further ticks change neither the index nor the snapshot. |
| `Profiler.ReplayGlobalEndsShot` | src/functional/profiling_phases.cpp:78-82 | Any tick at which the global predicate holds ends the shot for good. |
| `Profiler.PhaseProfiler.constructor` | src/functional/profiling_phases.cpp:72 | A new profiler borrows the sequence and starts at phase 0, with a zeroed snapshot and the view on phase 0 at time 0. |
| `Profiler.PhaseProfiler.UpdatePhase` | src/functional/profiling_phases.cpp:74-93 | The new index, snapshot and view are exactly `Advance` of the old state. The global limits are unchanged and the index does not decrease. Afterwards, either the profiler is finished or the active phase's predicate is false. |
| `Profiler.PhaseProfiler.GetCurrentPhase` | src/functional/profiling_phases.cpp:96-98 | The view designates the active phase, or the last phase once finished. |
| `Profiler.PhaseProfiler.IsFinished` | src/functional/profiling_phases.cpp:100-102 | Holds exactly when the index equals the phase count. When it does not hold, the view mirrors the index. |
| `Profiler.PhaseProfiler.Reset` | src/functional/profiling_phases.cpp:104-108 | Index 0, zeroed snapshot, view on phase 0 at time 0, not finished; the global limits are unchanged. |
| `Profiler.PhaseProfiler.UpdateGlobalStopConditions` | src/functional/profiling_phases.cpp:110-114 | Replaces the three global limits and leaves the index, the snapshot and the view unchanged. |
| `Scenarios.RampStartScenario` | src/functional/profiling_phases.cpp:6-9 | In a ramp 0→9 over 5000 ms, the first tick at 0 keeps phase 0 with setpoint 0. |
| `Scenarios.RampMidwayScenario` | src/functional/profiling_phases.cpp:6-9 | At 2500 ms, phase 0 is still active and the linear setpoint is 4.5. |
| `Scenarios.RampEndScenario` | src/functional/profiling_phases.cpp:85-92 | At 5000 ms, the stop time is met and phase 1 begins with the tick's snapshot. |
| `Scenarios.WeightBoundaryScenario` | src/functional/profiling_phases.cpp:27 | With threshold 36 and flow 0.4, 35.8 g does not end the phase (strict `>`) and 35.9 g ends the shot. |
| `Scenarios.SameTickSkipScenario` | src/functional/profiling_phases.cpp:85-92 | A phase with stop time 0 is passed on its first tick, and the following weight phase is entered. |

## Left out

- The internals of `mapRange` are not part of this model. `Phases.MapRange` gives the clamping at both ends of the domain. Between the ends it interpolates through the phase's curve, which the model carries as a function `real -> real` on progress in (0, 1). The named curve shapes are not modelled. Neither is the decimal-precision argument (`1`), which rounds the result.
- Floating point: every quantity is an exact real. The literal `0.4f`, the division by 2 and the `fmax`/`long` conversion in the transition time are exact in the model.
- `Profiler.PhaseProfiler.UpdatePhase` requires that the tick time is not earlier than the snapshot's time. Otherwise the source's unsigned `timeInPhase` wraps around, and that wrap-around is not modelled.
- `currentPhaseIdx` is a `short` in the source. The model uses an unbounded integer kept within `0..count`.
- The snapshot's `pressure`, `pumpFlow` and `temperature` are never read by the predicates and are left out. So are the sensor fields `pumpFlow` and `temperature`, which are read only to fill those snapshot fields.
- The pointer from `CurrentPhase` to its `Phase` is an index into the borrowed sequence. Pointer aliasing is not modelled.
- The header `profiling_phases.h` is not part of this model:
  - the default values of the profiler's members are unknown;
  - `Profiler.PhaseProfiler.constructor` takes the initial global limits as a parameter and otherwise starts as `reset` leaves the profiler;
  - the phase-type tag has two values in the model.
- `Profiler.Replay` keeps the global limits fixed across the ticks it replays. Changes between ticks are modelled separately by `UpdateGlobalStopConditions`.
- Sensor acquisition, actuators, PID control and the UI are outside this file.
