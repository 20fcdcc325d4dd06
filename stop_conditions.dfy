/** Stop conditions of an espresso-shot profile: the per-phase predicate that ends
    the active phase and the whole-shot predicate that ends the shot.
    Sensor quantities are exact reals; times are integers (milliseconds). */
module StopConditions {

  /** The sensor readings of one control tick that the stop predicates read. */
  datatype SensorState = SensorState(
    weight: real,            // current scale reading
    weightFlow: real,        // flow derived from the scale
    smoothedPumpFlow: real,  // flow estimated from the pump
    pressure: real,
    shotWeight: real,        // weight of the beverage so far
    waterPumped: real)       // water pumped since the shot began

  /** What the profiler remembers of the tick at which the active phase began. */
  datatype ShotSnapshot = ShotSnapshot(timeInShot: int, shotWeight: real, waterPumped: real)

  /** Above this scale reading the flow is taken from the scale, otherwise from the pump. */
  const WeightFlowThreshold: real := 0.4

  /** The flow reading the stop margin is based on. */
  function Flow(state: SensorState): real {
    if state.weight > WeightFlowThreshold then state.weightFlow else state.smoothedPumpFlow
  }

  /** Anticipatory margin: half of the current flow. */
  function StopDelta(state: SensorState): real {
    Flow(state) / 2.0
  }

  /** Thresholds that end one phase. A field is inactive when it is <= 0,
      except `time`, which is inactive only when it is < 0. */
  datatype PhaseStopConditions = PhaseStopConditions(
    time: int,
    weight: real,
    pressureAbove: real,
    pressureBelow: real,
    waterPumpedInPhase: real,
    flowAbove: real,
    flowBelow: real)

  /** Thresholds that end the whole shot. */
  datatype GlobalStopConditions = GlobalStopConditions(weight: real, time: int, waterPumped: real)

  /** The per-phase disjunction with the weight and water thresholds lowered by `stopDelta`. */
  predicate PhaseReachedWithin(c: PhaseStopConditions, state: SensorState, timeInShot: int,
                               atPhaseStart: ShotSnapshot, stopDelta: real)
  {
    (c.time >= 0 && timeInShot - atPhaseStart.timeInShot >= c.time) ||
    (c.weight > 0.0 && state.shotWeight > c.weight - stopDelta) ||
    (c.pressureAbove > 0.0 && state.pressure > c.pressureAbove) ||
    (c.pressureBelow > 0.0 && state.pressure < c.pressureBelow) ||
    (c.waterPumpedInPhase > 0.0 &&
      state.waterPumped - atPhaseStart.waterPumped > c.waterPumpedInPhase - stopDelta) ||
    (c.flowAbove > 0.0 && state.smoothedPumpFlow > c.flowAbove) ||
    (c.flowBelow > 0.0 && state.smoothedPumpFlow < c.flowBelow)
  }

  /** PhaseStopConditions::isReached. */
  predicate PhaseReached(c: PhaseStopConditions, state: SensorState, timeInShot: int, atPhaseStart: ShotSnapshot) {
    PhaseReachedWithin(c, state, timeInShot, atPhaseStart, StopDelta(state))
  }

  /** The whole-shot disjunction with the weight threshold lowered by `stopDelta`. */
  predicate GlobalReachedWithin(g: GlobalStopConditions, state: SensorState, timeInShot: int, stopDelta: real) {
    (g.weight > 0.0 && state.shotWeight > g.weight - stopDelta) ||
    (g.waterPumped > 0.0 && state.waterPumped > g.waterPumped) ||
    (g.time >= 0 && timeInShot >= g.time)
  }

  /** GlobalStopConditions::isReached. */
  predicate GlobalReached(g: GlobalStopConditions, state: SensorState, timeInShot: int) {
    GlobalReachedWithin(g, state, timeInShot, StopDelta(state))
  }

  // ---------------------------------------------------------------------------
  // A reference reading of the per-phase predicate: one criterion per threshold,
  // each with an activity test and a comparison.
  // ---------------------------------------------------------------------------

  datatype Criterion = Time | Weight | PressureAbove | PressureBelow | WaterInPhase | FlowAbove | FlowBelow

  /** Whether the threshold behind `k` is configured. */
  predicate Active(c: PhaseStopConditions, k: Criterion) {
    match k
    case Time => c.time >= 0
    case Weight => c.weight > 0.0
    case PressureAbove => c.pressureAbove > 0.0
    case PressureBelow => c.pressureBelow > 0.0
    case WaterInPhase => c.waterPumpedInPhase > 0.0
    case FlowAbove => c.flowAbove > 0.0
    case FlowBelow => c.flowBelow > 0.0
  }

  /** Whether the reading has crossed the threshold behind `k`, ignoring activity. */
  predicate Crossed(c: PhaseStopConditions, k: Criterion, state: SensorState, timeInShot: int, atPhaseStart: ShotSnapshot) {
    var margin := StopDelta(state);
    match k
    case Time => timeInShot - atPhaseStart.timeInShot >= c.time
    case Weight => state.shotWeight + margin > c.weight
    case PressureAbove => state.pressure > c.pressureAbove
    case PressureBelow => state.pressure < c.pressureBelow
    case WaterInPhase => (state.waterPumped - atPhaseStart.waterPumped) + margin > c.waterPumpedInPhase
    case FlowAbove => state.smoothedPumpFlow > c.flowAbove
    case FlowBelow => state.smoothedPumpFlow < c.flowBelow
  }

  predicate AllInactive(c: PhaseStopConditions) {
    forall k: Criterion :: !Active(c, k)
  }

  /** A phase ends exactly when some configured threshold has been crossed. */
  lemma PhaseReachedIffActiveCrossed(c: PhaseStopConditions, state: SensorState, timeInShot: int, atPhaseStart: ShotSnapshot)
    ensures PhaseReached(c, state, timeInShot, atPhaseStart)
        <==> exists k: Criterion :: Active(c, k) && Crossed(c, k, state, timeInShot, atPhaseStart)
  {
    if PhaseReached(c, state, timeInShot, atPhaseStart) {
      var k :=
        if c.time >= 0 && timeInShot - atPhaseStart.timeInShot >= c.time then Time
        else if c.weight > 0.0 && state.shotWeight > c.weight - StopDelta(state) then Weight
        else if c.pressureAbove > 0.0 && state.pressure > c.pressureAbove then PressureAbove
        else if c.pressureBelow > 0.0 && state.pressure < c.pressureBelow then PressureBelow
        else if c.waterPumpedInPhase > 0.0 &&
                state.waterPumped - atPhaseStart.waterPumped > c.waterPumpedInPhase - StopDelta(state) then WaterInPhase
        else if c.flowAbove > 0.0 && state.smoothedPumpFlow > c.flowAbove then FlowAbove
        else FlowBelow;
      assert Active(c, k) && Crossed(c, k, state, timeInShot, atPhaseStart);
    }
  }

  /** A phase whose every threshold is inactive never ends through its own predicate. */
  lemma AllInactiveNeverReached(c: PhaseStopConditions, state: SensorState, timeInShot: int, atPhaseStart: ShotSnapshot)
    requires AllInactive(c)
    ensures !PhaseReached(c, state, timeInShot, atPhaseStart)
  {
    PhaseReachedIffActiveCrossed(c, state, timeInShot, atPhaseStart);
  }

  /** A time threshold of 0 is met at the first tick of the phase, whatever the other readings. */
  lemma ZeroTimeReachedImmediately(c: PhaseStopConditions, state: SensorState, timeInShot: int, atPhaseStart: ShotSnapshot)
    requires c.time == 0 && atPhaseStart.timeInShot <= timeInShot
    ensures PhaseReached(c, state, timeInShot, atPhaseStart)
  {
  }

  /** A negative time threshold never ends a phase: with it, the phase ends only
      if one of the other criteria fires. */
  lemma NegativeTimeIgnored(c: PhaseStopConditions, state: SensorState, timeInShot: int, atPhaseStart: ShotSnapshot)
    requires c.time < 0
    ensures PhaseReached(c, state, timeInShot, atPhaseStart)
        <==> exists k: Criterion :: k != Time && Active(c, k) && Crossed(c, k, state, timeInShot, atPhaseStart)
  {
    PhaseReachedIffActiveCrossed(c, state, timeInShot, atPhaseStart);
  }

  /** A larger margin ends a phase no later: whatever stops with margin d1 stops with d2 >= d1. */
  lemma PhaseMarginMonotone(c: PhaseStopConditions, state: SensorState, timeInShot: int,
                            atPhaseStart: ShotSnapshot, d1: real, d2: real)
    requires d1 <= d2
    ensures PhaseReachedWithin(c, state, timeInShot, atPhaseStart, d1)
        ==> PhaseReachedWithin(c, state, timeInShot, atPhaseStart, d2)
  {
  }

  /** With a non-negative flow reading the anticipatory margin ends a phase no later
      than the raw thresholds would. */
  lemma PhaseMarginAnticipates(c: PhaseStopConditions, state: SensorState, timeInShot: int, atPhaseStart: ShotSnapshot)
    requires Flow(state) >= 0.0
    ensures PhaseReachedWithin(c, state, timeInShot, atPhaseStart, 0.0) ==> PhaseReached(c, state, timeInShot, atPhaseStart)
  {
    PhaseMarginMonotone(c, state, timeInShot, atPhaseStart, 0.0, StopDelta(state));
  }

  /** The margin lowers only the weight and water-in-phase thresholds: without those,
      the flow reading used for the margin makes no difference. */
  lemma PhaseMarginOnlyWeightAndWater(c: PhaseStopConditions, state: SensorState, timeInShot: int,
                                      atPhaseStart: ShotSnapshot, d: real)
    requires c.weight <= 0.0 && c.waterPumpedInPhase <= 0.0
    ensures PhaseReachedWithin(c, state, timeInShot, atPhaseStart, d)
        == PhaseReachedWithin(c, state, timeInShot, atPhaseStart, 0.0)
  {
  }

  /** The flow source switches on the scale reading: above 0.4 the scale-derived flow
      decides the margin and the pump flow does not, at or below 0.4 the reverse. */
  lemma FlowSourceSelection(s1: SensorState, s2: SensorState)
    requires s1.weight == s2.weight
    ensures s1.weight > WeightFlowThreshold && s1.weightFlow == s2.weightFlow ==> StopDelta(s1) == StopDelta(s2)
    ensures s1.weight <= WeightFlowThreshold && s1.smoothedPumpFlow == s2.smoothedPumpFlow ==> StopDelta(s1) == StopDelta(s2)
  {
  }

  /** The pressure and pump-flow thresholds compare the raw readings: they fire
      independently of the margin. */
  lemma RawCriteriaIgnoreMargin(c: PhaseStopConditions, state: SensorState, timeInShot: int, atPhaseStart: ShotSnapshot, d: real)
    requires (c.pressureAbove > 0.0 && state.pressure > c.pressureAbove)
          || (c.pressureBelow > 0.0 && state.pressure < c.pressureBelow)
          || (c.flowAbove > 0.0 && state.smoothedPumpFlow > c.flowAbove)
          || (c.flowBelow > 0.0 && state.smoothedPumpFlow < c.flowBelow)
    ensures PhaseReachedWithin(c, state, timeInShot, atPhaseStart, d)
  {
  }

  /** The global time limit is active from 0 upwards and fires once the shot lasts that long. */
  lemma GlobalTimeFires(g: GlobalStopConditions, state: SensorState, timeInShot: int)
    requires g.time >= 0 && timeInShot >= g.time
    ensures GlobalReached(g, state, timeInShot)
  {
  }

  /** Without a global weight limit the margin plays no part: the water limit is compared
      to the raw total. */
  lemma GlobalWaterHasNoMargin(g: GlobalStopConditions, state: SensorState, timeInShot: int, d: real)
    requires g.weight <= 0.0
    ensures GlobalReachedWithin(g, state, timeInShot, d) == GlobalReachedWithin(g, state, timeInShot, 0.0)
  {
  }

  /** With all three global limits inactive the shot never ends through them. */
  lemma GlobalInactiveNeverReached(g: GlobalStopConditions, state: SensorState, timeInShot: int)
    requires g.weight <= 0.0 && g.waterPumped <= 0.0 && g.time < 0
    ensures !GlobalReached(g, state, timeInShot)
  {
  }

  /** The global weight limit anticipates by the same margin as the per-phase one. */
  lemma GlobalWeightWithMargin(g: GlobalStopConditions, state: SensorState, timeInShot: int)
    requires g.weight > 0.0
    ensures state.shotWeight + StopDelta(state) > g.weight ==> GlobalReached(g, state, timeInShot)
    ensures GlobalReached(g, state, timeInShot) && g.waterPumped <= 0.0 && g.time < 0
        ==> state.shotWeight + StopDelta(state) > g.weight
  {
  }
}
