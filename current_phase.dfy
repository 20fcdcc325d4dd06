/** The view of the active phase that the profiler refreshes on every tick. The phase
    is designated by its index into the borrowed, read-only phase sequence. */
module CurrentPhaseView {
  import opened StopConditions
  import opened Phases

  class CurrentPhase {
    /** The phase sequence this view reads from; never changed by the view. */
    const phases: seq<Phase>
    var index: int
    var timeInPhase: nat

    ghost predicate Valid()
      reads this
    {
      0 <= index < |phases|
    }

    /** CurrentPhase(index, phase, timeInPhase), with `phase` given as `phases[index]`. */
    constructor (phases: seq<Phase>, index: int, timeInPhase: nat)
      requires 0 <= index < |phases|
      ensures Valid()
      ensures this.phases == phases && this.index == index && this.timeInPhase == timeInPhase
    {
      this.phases := phases;
      this.index := index;
      this.timeInPhase := timeInPhase;
    }

    /** The copy constructor: the copy designates the same phase of the same sequence. */
    constructor Copy(other: CurrentPhase)
      requires other.Valid()
      ensures Valid()
      ensures phases == other.phases && index == other.index && timeInPhase == other.timeInPhase
    {
      phases := other.phases;
      index := other.index;
      timeInPhase := other.timeInPhase;
    }

    /** CurrentPhase::update: sets the index (and with it the phase) and the time in phase,
        and nothing else. */
    method Update(index: int, timeInPhase: nat)
      requires 0 <= index < |phases|
      modifies this
      ensures Valid()
      ensures this.index == index && this.timeInPhase == timeInPhase
    {
      this.index := index;
      this.timeInPhase := timeInPhase;
    }

    function GetPhase(): (p: Phase)
      reads this
      requires Valid()
      ensures p == phases[index]
    {
      phases[index]
    }

    function GetType(): (t: PhaseType)
      reads this
      requires Valid()
      ensures t == phases[index].kind
    {
      GetPhase().kind
    }

    /** The index always designates a phase of the sequence. */
    function GetIndex(): (i: int)
      reads this
      requires Valid()
      ensures 0 <= i < |phases|
      ensures phases[i] == GetPhase()
    {
      index
    }

    /** The time in phase is never negative. */
    function GetTimeInPhase(): (t: int)
      reads this
      ensures t >= 0
    {
      timeInPhase
    }

    /** The setpoint of the active phase at the time spent in it: the ramp's end once the
        transition time has passed, and always within the ramp for a bounded curve. */
    function GetTarget(): (v: real)
      reads this
      requires Valid()
      ensures timeInPhase >= TransitionTime(phases[index]) ==> v == phases[index].target.end
      ensures timeInPhase == 0 < TransitionTime(phases[index]) ==> v == phases[index].target.start
      ensures BoundedCurve(phases[index].target.curve)
          ==> Min(phases[index].target.start, phases[index].target.end) <= v
              <= Max(phases[index].target.start, phases[index].target.end)
    {
      TargetEndpoints(phases[index], timeInPhase);
      Phases.GetTarget(GetPhase(), timeInPhase)
    }

    function GetRestriction(): (r: real)
      reads this
      requires Valid()
      ensures r == phases[index].restriction
    {
      GetPhase().restriction
    }
  }
}
