/** The phase-advancement state machine of a shot: which phase is active, when the
    shot ends, and the view of the active phase handed to the control loop. */
module Profiler {
  import opened StopConditions
  import opened Phases
  import opened CurrentPhaseView

  /** The state one call of updatePhase leaves behind: the phase index (|phases| when the
      shot is over), the snapshot of the last transition, and the view's index and time. */
  datatype TickOutcome = TickOutcome(phaseIdx: int, snapshot: ShotSnapshot, viewIndex: int, timeInPhase: int)

  /** The snapshot taken when a phase ends. */
  function TakeSnapshot(timeInShot: int, state: SensorState): (s: ShotSnapshot)
    ensures s.timeInShot == timeInShot
  {
    ShotSnapshot(timeInShot, state.shotWeight, state.waterPumped)
  }

  /** The effect of updatePhase(timeInShot, state) from phase `phaseIdx` with the snapshot
      `snapshot`: the same tick is evaluated again after every transition. */
  function Advance(phases: seq<Phase>, global: GlobalStopConditions, phaseIdx: int,
                   snapshot: ShotSnapshot, timeInShot: int, state: SensorState): (r: TickOutcome)
    requires |phases| > 0 && 0 <= phaseIdx <= |phases|
    requires snapshot.timeInShot <= timeInShot
    ensures phaseIdx <= r.phaseIdx <= |phases|
    ensures 0 <= r.viewIndex < |phases|
    ensures snapshot.timeInShot <= r.snapshot.timeInShot <= timeInShot
    ensures 0 <= r.timeInPhase <= timeInShot - snapshot.timeInShot
    decreases |phases| - phaseIdx
  {
    var timeInPhase := timeInShot - snapshot.timeInShot;
    if phaseIdx >= |phases| || GlobalReached(global, state, timeInShot) then
      TickOutcome(|phases|, snapshot, |phases| - 1, timeInPhase)
    else if !PhaseReached(phases[phaseIdx].stopConditions, state, timeInShot, snapshot) then
      TickOutcome(phaseIdx, snapshot, phaseIdx, timeInPhase)
    else
      Advance(phases, global, phaseIdx + 1, TakeSnapshot(timeInShot, state), timeInShot, state)
  }

  /** Either the shot is over and the view rests on the last phase, or the view shows the
      new active phase, whose own predicate and the global one are both false; in both
      cases the time in phase is measured from the resulting snapshot. */
  lemma {:induction false} AdvanceOutcome(phases: seq<Phase>, global: GlobalStopConditions, phaseIdx: int,
                                          snapshot: ShotSnapshot, timeInShot: int, state: SensorState)
    requires |phases| > 0 && 0 <= phaseIdx <= |phases|
    requires snapshot.timeInShot <= timeInShot
    ensures var r := Advance(phases, global, phaseIdx, snapshot, timeInShot, state);
      && r.timeInPhase == timeInShot - r.snapshot.timeInShot
      && ((r.phaseIdx == |phases| && r.viewIndex == |phases| - 1) ||
          (r.phaseIdx < |phases| && r.viewIndex == r.phaseIdx &&
           !GlobalReached(global, state, timeInShot) &&
           !PhaseReached(phases[r.phaseIdx].stopConditions, state, timeInShot, r.snapshot)))
    decreases |phases| - phaseIdx
  {
    if phaseIdx < |phases| && !GlobalReached(global, state, timeInShot)
       && PhaseReached(phases[phaseIdx].stopConditions, state, timeInShot, snapshot) {
      AdvanceOutcome(phases, global, phaseIdx + 1, TakeSnapshot(timeInShot, state), timeInShot, state);
    }
  }

  /** A finished profiler stays finished and keeps its snapshot. */
  lemma FinishedStaysFinished(phases: seq<Phase>, global: GlobalStopConditions,
                              snapshot: ShotSnapshot, timeInShot: int, state: SensorState)
    requires |phases| > 0 && snapshot.timeInShot <= timeInShot
    ensures Advance(phases, global, |phases|, snapshot, timeInShot, state)
         == TickOutcome(|phases|, snapshot, |phases| - 1, timeInShot - snapshot.timeInShot)
  {
  }

  /** Global limits take precedence: once met, the shot ends on this tick whatever the
      active phase's own predicate says. */
  lemma GlobalTakesPrecedence(phases: seq<Phase>, global: GlobalStopConditions, phaseIdx: int,
                              snapshot: ShotSnapshot, timeInShot: int, state: SensorState)
    requires |phases| > 0 && 0 <= phaseIdx <= |phases| && snapshot.timeInShot <= timeInShot
    requires GlobalReached(global, state, timeInShot)
    ensures Advance(phases, global, phaseIdx, snapshot, timeInShot, state)
         == TickOutcome(|phases|, snapshot, |phases| - 1, timeInShot - snapshot.timeInShot)
  {
  }

  /** Snapshots: without a transition by the active phase's own predicate, the snapshot is
      kept and the index either stays or jumps to the end; after one, the snapshot is the
      current tick's and the new phase has just begun. */
  lemma {:induction false} AdvanceSnapshot(phases: seq<Phase>, global: GlobalStopConditions, phaseIdx: int,
                                           snapshot: ShotSnapshot, timeInShot: int, state: SensorState)
    requires |phases| > 0 && 0 <= phaseIdx <= |phases| && snapshot.timeInShot <= timeInShot
    ensures var r := Advance(phases, global, phaseIdx, snapshot, timeInShot, state);
      if phaseIdx < |phases| && !GlobalReached(global, state, timeInShot)
         && PhaseReached(phases[phaseIdx].stopConditions, state, timeInShot, snapshot)
      then r.phaseIdx > phaseIdx && r.snapshot == TakeSnapshot(timeInShot, state) && r.timeInPhase == 0
      else r.snapshot == snapshot && (r.phaseIdx == phaseIdx || r.phaseIdx == |phases|)
    decreases |phases| - phaseIdx
  {
    if phaseIdx < |phases| && !GlobalReached(global, state, timeInShot)
       && PhaseReached(phases[phaseIdx].stopConditions, state, timeInShot, snapshot) {
      var next := TakeSnapshot(timeInShot, state);
      AdvanceSnapshot(phases, global, phaseIdx + 1, next, timeInShot, state);
    }
  }

  /** Evaluating the same tick again changes nothing: the outcome is a fixed point. */
  lemma AdvanceIdempotent(phases: seq<Phase>, global: GlobalStopConditions, phaseIdx: int,
                          snapshot: ShotSnapshot, timeInShot: int, state: SensorState)
    requires |phases| > 0 && 0 <= phaseIdx <= |phases| && snapshot.timeInShot <= timeInShot
    ensures var r := Advance(phases, global, phaseIdx, snapshot, timeInShot, state);
      Advance(phases, global, r.phaseIdx, r.snapshot, timeInShot, state) == r
  {
    AdvanceOutcome(phases, global, phaseIdx, snapshot, timeInShot, state);
  }

  /** A phase whose thresholds are all inactive is left only through the global limits. */
  lemma InactivePhaseHolds(phases: seq<Phase>, global: GlobalStopConditions, phaseIdx: int,
                           snapshot: ShotSnapshot, timeInShot: int, state: SensorState)
    requires |phases| > 0 && 0 <= phaseIdx < |phases| && snapshot.timeInShot <= timeInShot
    requires AllInactive(phases[phaseIdx].stopConditions)
    ensures var r := Advance(phases, global, phaseIdx, snapshot, timeInShot, state);
      r.phaseIdx == (if GlobalReached(global, state, timeInShot) then |phases| else phaseIdx)
  {
    AllInactiveNeverReached(phases[phaseIdx].stopConditions, state, timeInShot, snapshot);
  }

  /** Same-tick skipping: when phases `phaseIdx..` all have a stop time of 0, one tick
      runs through every one of them and ends the shot. */
  lemma {:induction false} ZeroTimePhasesFinishInOneTick(phases: seq<Phase>, global: GlobalStopConditions, phaseIdx: int,
                                                         snapshot: ShotSnapshot, timeInShot: int, state: SensorState)
    requires |phases| > 0 && 0 <= phaseIdx <= |phases| && snapshot.timeInShot <= timeInShot
    requires forall j :: phaseIdx <= j < |phases| ==> phases[j].stopConditions.time == 0
    ensures Advance(phases, global, phaseIdx, snapshot, timeInShot, state).phaseIdx == |phases|
    decreases |phases| - phaseIdx
  {
    if phaseIdx < |phases| && !GlobalReached(global, state, timeInShot) {
      ZeroTimeReachedImmediately(phases[phaseIdx].stopConditions, state, timeInShot, snapshot);
      ZeroTimePhasesFinishInOneTick(phases, global, phaseIdx + 1, TakeSnapshot(timeInShot, state), timeInShot, state);
    }
  }

  /** A skip stops at the first phase whose predicate is false against the fresh snapshot:
      that phase becomes active with no time spent in it. */
  lemma SkipLandsOnNextPhase(phases: seq<Phase>, global: GlobalStopConditions, phaseIdx: int,
                             snapshot: ShotSnapshot, timeInShot: int, state: SensorState)
    requires |phases| > 0 && 0 <= phaseIdx && phaseIdx + 1 < |phases| && snapshot.timeInShot <= timeInShot
    requires !GlobalReached(global, state, timeInShot)
    requires PhaseReached(phases[phaseIdx].stopConditions, state, timeInShot, snapshot)
    requires !PhaseReached(phases[phaseIdx + 1].stopConditions, state, timeInShot, TakeSnapshot(timeInShot, state))
    ensures Advance(phases, global, phaseIdx, snapshot, timeInShot, state)
         == TickOutcome(phaseIdx + 1, TakeSnapshot(timeInShot, state), phaseIdx + 1, 0)
  {
  }

  // ---------------------------------------------------------------------------
  // A shot as a sequence of ticks
  // ---------------------------------------------------------------------------

  datatype Tick = Tick(timeInShot: int, state: SensorState)

  /** The profiler's persistent state between ticks. */
  datatype Cursor = Cursor(phaseIdx: int, snapshot: ShotSnapshot)

  /** Tick times never go back, starting no earlier than `from`. */
  predicate Chronological(from: int, ticks: seq<Tick>)
    decreases |ticks|
  {
    |ticks| == 0 || (from <= ticks[0].timeInShot && Chronological(ticks[0].timeInShot, ticks[1..]))
  }

  lemma ChronologicalFromEarlier(later: int, earlier: int, ticks: seq<Tick>)
    requires earlier <= later && Chronological(later, ticks)
    ensures Chronological(earlier, ticks)
  {
  }

  /** The state after calling updatePhase once per tick, in order; the phase index never
      decreases and never passes the end. */
  function Replay(phases: seq<Phase>, global: GlobalStopConditions, cursor: Cursor, ticks: seq<Tick>): (c: Cursor)
    requires |phases| > 0 && 0 <= cursor.phaseIdx <= |phases|
    requires Chronological(cursor.snapshot.timeInShot, ticks)
    ensures cursor.phaseIdx <= c.phaseIdx <= |phases|
    decreases |ticks|
  {
    if |ticks| == 0 then cursor
    else
      var r := Advance(phases, global, cursor.phaseIdx, cursor.snapshot, ticks[0].timeInShot, ticks[0].state);
      ChronologicalFromEarlier(ticks[0].timeInShot, r.snapshot.timeInShot, ticks[1..]);
      Replay(phases, global, Cursor(r.phaseIdx, r.snapshot), ticks[1..])
  }

  /** Once the shot is over, further ticks change neither the index nor the snapshot. */
  lemma {:induction false} ReplayFinishedStays(phases: seq<Phase>, global: GlobalStopConditions,
                                               snapshot: ShotSnapshot, ticks: seq<Tick>)
    requires |phases| > 0 && Chronological(snapshot.timeInShot, ticks)
    ensures Replay(phases, global, Cursor(|phases|, snapshot), ticks) == Cursor(|phases|, snapshot)
    decreases |ticks|
  {
    if |ticks| > 0 {
      ReplayFinishedStays(phases, global, snapshot, ticks[1..]);
    }
  }

  /** A tick at which the global limits are met ends the shot for good. */
  lemma {:induction false} ReplayGlobalEndsShot(phases: seq<Phase>, global: GlobalStopConditions,
                                                cursor: Cursor, ticks: seq<Tick>, i: int)
    requires |phases| > 0 && 0 <= cursor.phaseIdx <= |phases|
    requires Chronological(cursor.snapshot.timeInShot, ticks)
    requires 0 <= i < |ticks| && GlobalReached(global, ticks[i].state, ticks[i].timeInShot)
    ensures Replay(phases, global, cursor, ticks).phaseIdx == |phases|
    decreases |ticks|
  {
    var r := Advance(phases, global, cursor.phaseIdx, cursor.snapshot, ticks[0].timeInShot, ticks[0].state);
    if i == 0 {
      ReplayFinishedStays(phases, global, r.snapshot, ticks[1..]);
    } else {
      ReplayGlobalEndsShot(phases, global, Cursor(r.phaseIdx, r.snapshot), ticks[1..], i - 1);
    }
  }

  // ---------------------------------------------------------------------------
  // The stateful driver
  // ---------------------------------------------------------------------------

  /** The view index that mirrors a phase index: the last phase once the shot is over. */
  function ViewIndexOf(phaseIdx: int, count: int): int {
    if phaseIdx < count then phaseIdx else count - 1
  }

  class PhaseProfiler {
    /** The recipe, borrowed and never changed. */
    const phases: seq<Phase>
    var currentPhaseIdx: int
    var phaseChangedSnapshot: ShotSnapshot
    const currentPhase: CurrentPhase
    var globalStopConditions: GlobalStopConditions

    ghost predicate Valid()
      reads this, currentPhase
    {
      && |phases| > 0
      && 0 <= currentPhaseIdx <= |phases|
      && currentPhase.phases == phases
      && currentPhase.Valid()
      && currentPhase.index == ViewIndexOf(currentPhaseIdx, |phases|)
    }

    /** A profiler at the start of a shot; the initial global limits are a parameter. */
    constructor (phases: seq<Phase>, global: GlobalStopConditions)
      requires |phases| > 0
      ensures Valid()
      ensures this.phases == phases && globalStopConditions == global
      ensures currentPhaseIdx == 0 && phaseChangedSnapshot == ShotSnapshot(0, 0.0, 0.0)
      ensures currentPhase.index == 0 && currentPhase.timeInPhase == 0
      ensures fresh(currentPhase)
    {
      this.phases := phases;
      currentPhaseIdx := 0;
      phaseChangedSnapshot := ShotSnapshot(0, 0.0, 0.0);
      currentPhase := new CurrentPhase(phases, 0, 0);
      globalStopConditions := global;
    }

    /** PhaseProfiler::updatePhase, with the re-entry for the same tick as a loop. */
    method UpdatePhase(timeInShot: int, state: SensorState)
      requires Valid() && phaseChangedSnapshot.timeInShot <= timeInShot
      modifies this, currentPhase
      ensures Valid()
      ensures var r := Advance(phases, old(globalStopConditions), old(currentPhaseIdx),
                               old(phaseChangedSnapshot), timeInShot, state);
        && currentPhaseIdx == r.phaseIdx && phaseChangedSnapshot == r.snapshot
        && currentPhase.index == r.viewIndex && currentPhase.timeInPhase == r.timeInPhase
      ensures globalStopConditions == old(globalStopConditions)
      ensures old(currentPhaseIdx) <= currentPhaseIdx
      ensures phaseChangedSnapshot.timeInShot <= timeInShot
      ensures IsFinished() || !PhaseReached(phases[currentPhaseIdx].stopConditions, state, timeInShot, phaseChangedSnapshot)
    {
      ghost var goal := Advance(phases, globalStopConditions, currentPhaseIdx, phaseChangedSnapshot, timeInShot, state);
      AdvanceOutcome(phases, globalStopConditions, currentPhaseIdx, phaseChangedSnapshot, timeInShot, state);
      while true
        invariant 0 <= old(currentPhaseIdx) <= currentPhaseIdx <= |phases|
        invariant phaseChangedSnapshot.timeInShot <= timeInShot
        invariant currentPhase.Valid() && globalStopConditions == old(globalStopConditions)
        invariant Advance(phases, globalStopConditions, currentPhaseIdx, phaseChangedSnapshot, timeInShot, state) == goal
        decreases |phases| - currentPhaseIdx
      {
        var timeInPhase := timeInShot - phaseChangedSnapshot.timeInShot;
        if currentPhaseIdx >= |phases| || GlobalReached(globalStopConditions, state, timeInShot) {
          currentPhaseIdx := |phases|;
          currentPhase.Update(|phases| - 1, timeInPhase);
          return;
        }
        if !PhaseReached(phases[currentPhaseIdx].stopConditions, state, timeInShot, phaseChangedSnapshot) {
          currentPhase.Update(currentPhaseIdx, timeInPhase);
          return;
        }
        currentPhaseIdx := currentPhaseIdx + 1;
        phaseChangedSnapshot := TakeSnapshot(timeInShot, state);
      }
    }

    /** PhaseProfiler::getCurrentPhase: the view, which designates the active phase, or
        the last one once the shot is over. */
    function GetCurrentPhase(): (view: CurrentPhase)
      reads this, currentPhase
      requires Valid()
      ensures view.Valid() && view.phases == phases
      ensures view.index == (if IsFinished() then |phases| - 1 else currentPhaseIdx)
    {
      currentPhase
    }

    /** PhaseProfiler::isFinished: holds exactly when the index has reached the end. */
    function IsFinished(): (b: bool)
      reads this, currentPhase
      requires Valid()
      ensures b <==> currentPhaseIdx == |phases|
      ensures !b ==> currentPhase.index == currentPhaseIdx
    {
      currentPhaseIdx >= |phases|
    }

    /** PhaseProfiler::reset: back to the first phase, with a zeroed snapshot. */
    method Reset()
      requires Valid()
      modifies this, currentPhase
      ensures Valid() && !IsFinished()
      ensures currentPhaseIdx == 0 && phaseChangedSnapshot == ShotSnapshot(0, 0.0, 0.0)
      ensures currentPhase.index == 0 && currentPhase.timeInPhase == 0
      ensures globalStopConditions == old(globalStopConditions)
    {
      currentPhaseIdx := 0;
      phaseChangedSnapshot := ShotSnapshot(0, 0.0, 0.0);
      currentPhase.Update(0, 0);
    }

    /** PhaseProfiler::updateGlobalStopConditions: replaces the three global limits and
        nothing else. */
    method UpdateGlobalStopConditions(weight: real, time: int, waterVolume: real)
      requires Valid()
      modifies this
      ensures Valid()
      ensures globalStopConditions == GlobalStopConditions(weight, time, waterVolume)
      ensures currentPhaseIdx == old(currentPhaseIdx) && phaseChangedSnapshot == old(phaseChangedSnapshot)
    {
      globalStopConditions := GlobalStopConditions(weight, time, waterVolume);
    }
  }
}
