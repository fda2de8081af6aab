/** The undocking action: plan once, navigate once, and finish or time out. */
module UndockAction {
  import opened Common
  import opened TrafficGraph
  import UndockSearch

  /** Times in nanoseconds. */
  const SECOND: int := 1_000_000_000
  const TIMEOUT: int := 60

  datatype Phase = Planning | Navigating | Completed | Failed

  datatype Verdict = InProgress | VerdictCompleted | VerdictFailed

  /** The fields of the action, as a value. */
  datatype State = State(phase: Phase, navCompleted: bool, created: int)

  /**
   * What the action finds when it is polled: the clock, its prerequisites, the waypoint
   * closest to the robot, and whether navigation, if started now, completes at once.
   */
  datatype Surroundings = Surroundings(
    now: int, graph: Option<Graph>, hasTransforms: bool, hasNavigation: bool, hasPose: bool,
    closest: Option<nat>, completesAtOnce: bool)

  /** Division of durations truncates toward zero. */
  function Truncated(duration: int): int {
    if duration >= 0 then duration / SECOND else -(-duration / SECOND)
  }

  predicate TimedOut(s: State, now: int) {
    Truncated(now - s.created) > TIMEOUT
  }

  /** The timeout strikes at 61 seconds: the elapsed time is cut to whole seconds before it is compared. */
  lemma TimeoutIsAt61(s: State, now: int)
    ensures TimedOut(s, now) <==> now - s.created >= 61 * SECOND
  {
  }

  /** The traffic graph offers a way out from the closest waypoint. */
  ghost predicate CanPlan(e: Surroundings) {
    && e.graph.Some? && e.hasTransforms && e.hasNavigation && e.hasPose && e.closest.Some?
    && exists p :: UndockSearch.IsUndockWalk(e.graph.value, e.closest.value, UndockSearch.MAX_DEPTH, p)
  }

  /** The robot has all it needs, and a junction lies one to four directed lanes from the waypoint closest to it. */
  ghost predicate CanUndock(e: Surroundings) {
    && e.graph.Some? && e.hasTransforms && e.hasNavigation && e.hasPose && e.closest.Some?
    && exists j, d :: 1 <= d <= 4 && Junction(e.graph.value, j) && AtDistance(e.graph.value, e.closest.value, j, d)
  }

  /** A way out can be planned exactly in these surroundings. */
  lemma CanPlanIff(e: Surroundings)
    ensures CanPlan(e) <==> CanUndock(e)
  {
    if e.graph.Some? && e.closest.Some? {
      UndockSearch.WayOutExists(e.graph.value, e.closest.value, UndockSearch.MAX_DEPTH);
    }
  }

  /** One poll: the new state, the verdict, and whether navigation is started. */
  ghost function Step(s: State, e: Surroundings): (State, Verdict, bool) {
    match s.phase
    case Planning =>
      if TimedOut(s, e.now) || !CanPlan(e) then (s.(phase := Failed), VerdictFailed, false)
      else (s.(phase := Navigating, navCompleted := s.navCompleted || e.completesAtOnce), InProgress, true)
    case Navigating =>
      if s.navCompleted then (s.(phase := Completed), VerdictCompleted, false)
      else if TimedOut(s, e.now) then (s.(phase := Failed), VerdictFailed, false)
      else (s, InProgress, false)
    case Completed => (s, VerdictCompleted, false)
    case Failed => (s, VerdictFailed, false)
  }

  class Action {
    var phase: Phase
    var navCompleted: bool
    const creationTime: int

    ghost function View(): State
      reads this
    {
      State(phase, navCompleted, creationTime)
    }

    constructor (now: int)
      ensures View() == State(Planning, false, now)
    {
      phase, navCompleted, creationTime := Planning, false, now;
    }

    method UpdateAction(e: Surroundings) returns (verdict: Verdict, path: seq<nat>)
      modifies this
      ensures (View(), verdict, path != []) == Step(old(View()), e)
      ensures path != [] ==>
        UndockSearch.IsBestUndockWalk(e.graph.value, e.closest.value, UndockSearch.MAX_DEPTH, path)
    {
      path := [];
      match phase {
        case Planning => verdict, path := HandlePlanning(e);
        case Navigating => verdict := HandleNavigating(e);
        case Completed => verdict := VerdictCompleted;
        case Failed => verdict := VerdictFailed;
      }
    }

    method HandlePlanning(e: Surroundings) returns (verdict: Verdict, path: seq<nat>)
      requires phase == Planning
      modifies this
      ensures (View(), verdict, path != []) == Step(old(View()), e)
      ensures path != [] ==>
        UndockSearch.IsBestUndockWalk(e.graph.value, e.closest.value, UndockSearch.MAX_DEPTH, path)
      ensures if e.now - creationTime < 61_000_000_000 && CanUndock(e)
        then phase == Navigating && verdict == InProgress && path != []
        else phase == Failed && verdict == VerdictFailed && path == []
    {
      CanPlanIff(e);
      TimeoutIsAt61(View(), e.now);
      path := [];
      if Truncated(e.now - creationTime) > TIMEOUT
        || e.graph.None? || !e.hasTransforms || !e.hasNavigation || !e.hasPose || e.closest.None?
      {
        phase := Failed;
        return VerdictFailed, [];
      }
      path := UndockSearch.GenerateUndockPath(e.graph.value, e.closest.value, UndockSearch.MAX_DEPTH);
      if path == [] {
        phase := Failed;
        return VerdictFailed, [];
      }
      if e.completesAtOnce {
        NavigationCompleted();
      }
      phase := Navigating;
      verdict := InProgress;
    }

    method HandleNavigating(e: Surroundings) returns (verdict: Verdict)
      requires phase == Navigating
      modifies this
      ensures (View(), verdict, false) == Step(old(View()), e)
      ensures old(navCompleted) ==> phase == Completed && verdict == VerdictCompleted
      ensures !old(navCompleted) && e.now - creationTime >= 61_000_000_000 ==> phase == Failed && verdict == VerdictFailed
      ensures !old(navCompleted) && e.now - creationTime < 61_000_000_000 ==> phase == Navigating && verdict == InProgress
    {
      if navCompleted {
        phase := Completed;
        return VerdictCompleted;
      }
      if Truncated(e.now - creationTime) > TIMEOUT {
        phase := Failed;
        return VerdictFailed;
      }
      verdict := InProgress;
    }

    /** The completion callback handed to the navigation. */
    method NavigationCompleted()
      modifies this`navCompleted
      ensures View() == old(View()).(navCompleted := true)
    {
      navCompleted := true;
    }
  }

  /** At and after 61 seconds every poll is final, whatever the surroundings. */
  lemma FinalAfter61(s: State, e: Surroundings)
    requires e.now - s.created >= 61 * SECOND
    ensures Step(s, e).1 != InProgress && !Step(s, e).2
    ensures Step(s, e).0.phase == if Step(s, e).1 == VerdictCompleted then Completed else Failed
  {
  }
}
