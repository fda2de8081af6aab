/**
 * Runs that show what fails: at most one session with a goal, even with every assumption;
 * and what each assumption is needed for.
 */
module ProtocolWitnesses {
  import opened Common
  import opened NavigationSession
  import opened NavigationProtocol
  import opened Schedules
  import C = CurrentPath
  import D = FeedbackDelivery
  import F = ProtocolFrame
  import GoalCarriers
  import G = GoalAccounting
  import L = PathLedger
  import M = RmfCalls
  import FailureFlag
  import R = ResolveOnce

  /** RMF asks for a path without wanting arrivals, and the robot accepts its goal. */
  function Follow(g: Goal): seq<Step> {
    M.Follow(false, g, true)
  }

  function PathSession(n: SessionId, g: Goal): Session {
    FRESH.(goal := Some(g), completion := Some(PathRequest(n)), failure := Some(n))
  }

  function AfterFollow(s: State, g: Goal): State {
    var n := |s.sessions|;
    State(s.sessions + [PathSession(n, g)], Some(n), Some(n), false, Idle, {}, s.tasks,
          s.issued[g := Issue(n, Some(PathRequest(n)), true)], s.place[g := InSession], s.log + [Followed(n)])
  }

  /** Nothing is left to withdraw in the session being replaced. */
  predicate Replaceable(s: State) {
    s.current.Some? ==>
      s.current.value < |s.sessions| && s.sessions[s.current.value] == Invalidated(s.sessions[s.current.value])
  }

  ghost predicate MayFollow(assumed: Assumptions, s: State, g: Goal) {
    && s.pc.Idle? && g !in s.issued && Replaceable(s) && D.Shown(s)
    && (assumed.atomicCallbacks ==> C.Quiet(s.tasks))
  }

  lemma SentInstead(s: State, g: Goal)
    requires Replaceable(s)
    ensures Return(M.Sent(s, false, g, true)) == AfterFollow(s, g)
  {
    M.SweptIs(s);
    M.SentIs(s, false, g, true);
    if s.current.Some? {
      var i := s.current.value;
      assert s.sessions[i := s.sessions[i]] == s.sessions;
      assert M.Opened(s).sessions[i] == s.sessions[i];
    }
  }

  lemma FollowLeads(assumed: Assumptions, s: State, g: Goal)
    requires MayFollow(assumed, s, g)
    ensures IsRun(assumed, s, Follow(g)) && Final(assumed, s, Follow(g)) == AfterFollow(s, g)
  {
    hide ExecutorNext, TaskNext, Arm, IsRun, Final, C.Quiet, Leads;
    var s6 := M.Sent(s, false, g, true);
    M.FollowLeads(assumed, s, false, g, true);
    M.SentIs(s, false, g, true);
    SentInstead(s, g);
    M.AcceptedEnds(s6, |s.sessions|, g);
    SameFree(assumed, s, s6);
    Continues(assumed, s6, AfterFollow(s, g));
    M.Onward(assumed, s, Follow(g)[..6], s6, Continue, AfterFollow(s, g));
    assert Follow(g) == Follow(g)[..6] + [Continue];
  }

  // ----- late callbacks, without atomic callbacks -----

  const PATH: Goal := 10
  const NEXT_PATH: Goal := 11
  const ERRAND: Goal := 12

  const ANY_ORDER: Assumptions := Assumptions(true, false)
  const ALL: Assumptions := Assumptions(true, true)
  const ANY_STATUS: Assumptions := Assumptions(false, true)

  function DecidedSteps(code: Code): seq<Step> {
    Follow(PATH) + [StatusArrives(0, [Status(PATH, code)]), Advance(0), Advance(0)]
  }

  function TakenOut(code: Code): Callback {
    if code.Succeeded? then Complete(PathRequest(0)) else Fail(0)
  }

  /** The first path is decided: its callback is out of the session, and about to run. */
  function Decided(code: Code): State {
    var a := AfterFollow(INITIAL, PATH);
    a.(sessions := [Invalidated(PathSession(0, PATH))], place := a.place[PATH := InTask(0)],
       tasks := map[0 := CallingBack(0, Chain(TakenOut(code), Some(PATH), Invalidating))])
  }

  lemma DecidedRun(code: Code)
    requires Terminal(code)
    ensures IsRun(ANY_ORDER, INITIAL, DecidedSteps(code)) && Final(ANY_ORDER, INITIAL, DecidedSteps(code)) == Decided(code)
  {
    hide TaskNext, IsRun, Final;
    var a := AfterFollow(INITIAL, PATH);
    var statuses := [Status(PATH, code)];
    var b := a.(tasks := map[0 := GotStatus(statuses)]);
    var c := a.(tasks := map[0 := Deciding(0, statuses)]);
    FollowLeads(ANY_ORDER, INITIAL, PATH);
    var run := Follow(PATH);
    Extend(ANY_ORDER, INITIAL, run, StatusArrives(0, statuses));
    run := run + [StatusArrives(0, statuses)];
    assert Final(ANY_ORDER, INITIAL, run) == b;
    L.Locks(b, 0, 0, statuses);
    Extend(ANY_ORDER, INITIAL, run, Advance(0));
    run := run + [Advance(0)];
    assert b.tasks[0 := Deciding(0, statuses)] == c.tasks;
    assert FirstAbout(statuses, PATH) == Some(code);
    L.Decides(c, 0, 0, PATH, statuses);
    var d := Decided(code);
    assert c.tasks[0 := d.tasks[0]] == d.tasks && c.sessions[0 := Invalidated(c.sessions[0])] == d.sessions;
    Extend(ANY_ORDER, INITIAL, run, Advance(0));
    assert run + [Advance(0)] == DecidedSteps(code);
  }

  /** The first path is decided, and its callback has not run when the second path is asked for. */
  function LateSteps(code: Code): seq<Step> {
    DecidedSteps(code) + Follow(NEXT_PATH) + L.Advances(0, 3)
  }

  lemma LateCallback(code: Code) returns (s: State)
    requires Terminal(code)
    ensures IsRun(ANY_ORDER, INITIAL, LateSteps(code)) && s == Final(ANY_ORDER, INITIAL, LateSteps(code))
    ensures s.sessions == [Invalidated(PathSession(0, PATH)), PathSession(1, NEXT_PATH)]
    ensures s.current == None && s.wp == Some(1) && s.pc.Idle? && s.held == {} && s.tasks == map[]
    ensures NEXT_PATH in s.issued && s.issued[NEXT_PATH] == Issue(1, Some(PathRequest(1)), true)
    ensures s.log == [Followed(0), Followed(1), G.Outcome(TakenOut(code), PATH)]
    ensures TakenOut(code).Fail? ==> s.pendingFailure
  {
    hide IsRun, Final, G.Outcome, DecidedSteps;
    var d := Decided(code);
    DecidedRun(code);
    FollowLeads(ANY_ORDER, d, NEXT_PATH);
    Append(ANY_ORDER, INITIAL, DecidedSteps(code), Follow(NEXT_PATH));
    var e := AfterFollow(d, NEXT_PATH);
    assert e.tasks == (map[])[0 := d.tasks[0]];
    L.CallbackDelivers(ANY_ORDER, e, map[], 0, 0, TakenOut(code), PATH, PathSession(0, PATH));
    Append(ANY_ORDER, INITIAL, DecidedSteps(code) + Follow(NEXT_PATH), L.Advances(0, 3));
    s := Final(ANY_ORDER, INITIAL, LateSteps(code));
  }

  /**
   * Without atomic callbacks a live path can be stranded: a late completion lets go of its
   * session, and the controller no longer finds it.
   */
  lemma PathCanBeStranded() returns (run: seq<Step>)
    ensures IsRun(ANY_ORDER, INITIAL, run)
    ensures var s := Final(ANY_ORDER, INITIAL, run); L.PathIsLive(s, NEXT_PATH, 1) && Lock(s) == None
  {
    var s := LateCallback(Succeeded);
    run := LateSteps(Succeeded);
  }

  /** Without atomic callbacks a replan can answer the failure of a path already replaced. */
  lemma ReplanCanBeSpurious() returns (run: seq<Step>)
    ensures IsRun(ANY_ORDER, INITIAL, run)
    ensures var s := Final(ANY_ORDER, INITIAL, run); !FailureFlag.Justified(s.issued, s.log)
  {
    hide IsRun, Final;
    var s := LateCallback(Aborted);
    run := LateSteps(Aborted) + [TakeFailure];
    Extend(ANY_ORDER, INITIAL, LateSteps(Aborted), TakeFailure);
    var log := s.log + [Replanned];
    var before: seq<Record> := [Followed(0), Followed(1)];
    assert log[..3] == s.log && s.log[..2] == before && before[..1] == [Followed(0)];
    assert log[3].Replanned? && !FailureFlag.Outstanding(s.issued, log[..3]);
  }

  // ----- an orphan, with every assumption -----

  const FEEDBACK: Feedback := Feedback(PATH, 0, 0.0, 0)

  /** A feedback message about the first path has come in, and its callback holds the session. */
  function Holding(): State {
    var a := AfterFollow(INITIAL, PATH);
    a.(tasks := map[0 := Checking(0, FEEDBACK)], log := a.log + [Heard(FEEDBACK)])
  }

  /** Then RMF stops the robot: the path handle lets go of the session, but it stays alive. */
  function LetGo(): State {
    var b := Holding();
    b.(sessions := [Invalidated(PathSession(0, PATH))], current := None,
       place := b.place[PATH := Closed], log := b.log + [Stopped, Withdrawn(PATH)])
  }

  /** Then an action executes a path on it. */
  function Orphaned(): State {
    var c := LetGo();
    c.(sessions := [Armed(Invalidated(PathSession(0, PATH)), ERRAND, Some(Errand(0)), None)],
       issued := c.issued[ERRAND := Issue(0, Some(Errand(0)), true)], place := c.place[ERRAND := InSession])
  }

  const STOP_STEPS: seq<Step> := [Stop, Continue, Continue, Continue, Continue, Continue]
  const ERRAND_STEPS: seq<Step> := [Execute(Some(Errand(0))), ArmGoal(ERRAND, true), Continue]

  lemma HoldingRun() returns (run: seq<Step>)
    ensures IsRun(ALL, INITIAL, run) && Final(ALL, INITIAL, run) == Holding()
  {
    hide IsRun, Final;
    var a := AfterFollow(INITIAL, PATH);
    var b := a.(tasks := map[0 := GotFeedback(FEEDBACK)], log := a.log + [Heard(FEEDBACK)]);
    FollowLeads(ALL, INITIAL, PATH);
    run := Follow(PATH);
    Then(ALL, INITIAL, run, FeedbackArrives(0, FEEDBACK), b);
    run := run + [FeedbackArrives(0, FEEDBACK)];
    assert Lock(b) == Some(0);
    assert b.tasks[0 := Checking(0, FEEDBACK)] == Holding().tasks;
    Then(ALL, INITIAL, run, Advance(0), Holding());
    run := run + [Advance(0)];
  }

  /** The points of that stop, after its first step. */
  function StopAt(k: nat): State {
    var (s, c) := (Holding(), LetGo());
    if k == 0 then s
    else if k == 1 then s.(pc := StopCancelling(0), held := {0}, log := s.log + [Stopped])
    else if k == 2 then c.(current := Some(0), pc := StopReading)
    else if k == 3 then c.(current := Some(0), pc := StopInvalidating(0), held := {0})
    else if k == 4 then c.(current := Some(0), pc := StopResetting, held := {0})
    else if k == 5 then c.(pc := StopClearing, held := {0})
    else c
  }

  lemma StopBegins()
    ensures Next(StopAt(0), Stop) == StopAt(1)
  {
    assert Lock(Holding()) == Some(0);
  }

  lemma StopWithdraws()
    ensures ExecutorNext(StopAt(1)) == StopAt(2)
  {
    var (s, c) := (StopAt(1), LetGo());
    assert s.sessions[0 := Invalidated(s.sessions[0])] == c.sessions;
    assert s.log + [Withdrawn(PATH)] == c.log;
  }

  lemma StopLetsGo(k: nat)
    requires 2 <= k <= 5
    ensures ExecutorNext(StopAt(k)) == StopAt(k + 1)
  {
    var c := LetGo();
    assert c.sessions[0 := Invalidated(c.sessions[0])] == c.sessions;
  }

  lemma StopIsFree(k: nat)
    ensures Free(ALL, StopAt(k)) && !StopAt(k).pc.Swapped? && (1 <= k <= 5 <==> !StopAt(k).pc.Idle?) && !StopAt(k).pc.Arming?
  {
  }

  lemma StopRun()
    ensures IsRun(ALL, Holding(), STOP_STEPS) && Final(ALL, Holding(), STOP_STEPS) == LetGo()
  {
    hide IsRun, Final, ExecutorNext, Free, LetGo, Holding;
    var s := Holding();
    EmptyRun(ALL, s);
    var run: seq<Step> := [];
    StopBegins();
    StopIsFree(0);
    Then(ALL, s, run, Stop, StopAt(1));
    run := run + [Stop];
    StopWithdraws();
    for k := 1 to 6
      invariant IsRun(ALL, s, run) && Final(ALL, s, run) == StopAt(k)
      invariant run == STOP_STEPS[..k]
    {
      StopIsFree(k);
      if k > 1 {
        StopLetsGo(k);
      }
      assert STOP_STEPS[k] == Continue;
      Then(ALL, s, run, Continue, StopAt(k + 1));
      run := run + [Continue];
    }
    assert run == STOP_STEPS;
  }

  /** The weak pointer of the controller still locks the session that was let go. */
  function ErrandLocked(): State {
    LetGo().(pc := Arming(Call(Some(Errand(0)), None), 0), held := {0})
  }

  lemma ErrandLocks()
    ensures Next(LetGo(), Execute(Some(Errand(0)))) == ErrandLocked()
  {
    var c := LetGo();
    assert 0 in HeldBy(c.tasks[0]);
    assert Lock(c) == Some(0);
  }

  lemma ErrandArms()
    ensures ERRAND !in ErrandLocked().issued
    ensures Arm(ErrandLocked(), ERRAND, true) == Orphaned().(pc := Sending(0, ERRAND), held := {0})
  {
    var c := ErrandLocked();
    assert c.sessions[0 := Orphaned().sessions[0]] == Orphaned().sessions;
  }

  lemma ErrandIsFree()
    ensures Free(ALL, LetGo()) && LetGo().pc.Idle?
    ensures Free(ALL, ErrandLocked()) && ErrandLocked().pc.Arming?
    ensures Free(ALL, Orphaned().(pc := Sending(0, ERRAND), held := {0}))
    ensures ExecutorNext(Orphaned().(pc := Sending(0, ERRAND), held := {0})) == Orphaned()
  {
  }

  lemma ErrandRun()
    ensures IsRun(ALL, LetGo(), ERRAND_STEPS) && Final(ALL, LetGo(), ERRAND_STEPS) == Orphaned()
  {
    hide IsRun, Final, Arm, ExecutorNext, Free, LetGo, ErrandLocked, Orphaned;
    var (c, d) := (LetGo(), Orphaned());
    EmptyRun(ALL, c);
    ErrandIsFree();
    var run: seq<Step> := [];
    ErrandLocks();
    Then(ALL, c, run, Execute(Some(Errand(0))), ErrandLocked());
    run := run + [Execute(Some(Errand(0)))];
    ErrandArms();
    Then(ALL, c, run, ArmGoal(ERRAND, true), d.(pc := Sending(0, ERRAND), held := {0}));
    run := run + [ArmGoal(ERRAND, true)];
    Then(ALL, c, run, Continue, d);
    assert run + [Continue] == ERRAND_STEPS;
  }

  /**
   * With every assumption, two sessions can carry a goal: a feedback callback in flight keeps
   * a stopped session alive, an action arms it, and a new path arms another.
   */
  lemma TwoSessionsCanCarry() returns (run: seq<Step>)
    ensures IsRun(ALL, INITIAL, run)
    ensures var s := Final(ALL, INITIAL, run);
      F.Carries(s.sessions, 0) && F.Carries(s.sessions, 1) && !GoalCarriers.AtMostOneCarries(s)
  {
    hide IsRun, Final;
    run := HoldingRun();
    StopRun();
    ErrandRun();
    Append(ALL, INITIAL, run, STOP_STEPS);
    run := run + STOP_STEPS;
    Append(ALL, INITIAL, run, ERRAND_STEPS);
    run := run + ERRAND_STEPS;
    FollowLeads(ALL, Orphaned(), NEXT_PATH);
    Append(ALL, INITIAL, run, Follow(NEXT_PATH));
    run := run + Follow(NEXT_PATH);
    var s := AfterFollow(Orphaned(), NEXT_PATH);
    assert F.Carries(s.sessions, 0) && F.Carries(s.sessions, 1);
  }

  // ----- a status about a rejected goal -----

  const CALLBACK: Callback := Complete(PathRequest(0))
  const REJECTED: Session := PathSession(0, PATH).(done := true)

  /** The goal of the first path was rejected, and its completion is about to be called. */
  function Rejected(): State {
    var a := AfterFollow(INITIAL, PATH);
    a.(sessions := [REJECTED], pc := Firing(Chain(CALLBACK, Some(PATH), Invalidating)), held := {0},
       issued := map[PATH := Issue(0, Some(PathRequest(0)), false)], place := map[PATH := InExecutor])
  }

  const REJECTED_STEPS: seq<Step> := M.Follow(false, PATH, false)

  lemma RejectStep()
    ensures ExecutorNext(M.Sent(INITIAL, false, PATH, false)) == Rejected()
  {
    var s6 := M.Sent(INITIAL, false, PATH, false);
    M.SweptIs(INITIAL);
    M.SentIs(INITIAL, false, PATH, false);
    assert s6.sessions == [PathSession(0, PATH)];
    assert s6.place == map[PATH := InSession] && s6.held == {0};
    hide M.Sent, ChainNext, Alive;
    assert [PathSession(0, PATH)][0 := REJECTED] == [REJECTED];
  }

  lemma RejectedRun()
    ensures IsRun(ANY_STATUS, INITIAL, REJECTED_STEPS) && Final(ANY_STATUS, INITIAL, REJECTED_STEPS) == Rejected()
  {
    hide ExecutorNext, TaskNext, Arm, IsRun, Final, Leads;
    var s := INITIAL;
    var s6 := M.Sent(s, false, PATH, false);
    M.FollowLeads(ANY_STATUS, s, false, PATH, false);
    M.SentIs(s, false, PATH, false);
    RejectStep();
    SameFree(ANY_STATUS, s, s6);
    Continues(ANY_STATUS, s6, Rejected());
    M.Onward(ANY_STATUS, s, REJECTED_STEPS[..6], s6, Continue, Rejected());
    assert REJECTED_STEPS == REJECTED_STEPS[..6] + [Continue];
  }

  const SUCCEEDED: seq<Status> := [Status(PATH, Succeeded)]

  /** The status callback takes the completion out of the session a second time. */
  function TakenAgain(): State {
    var a := Rejected();
    a.(sessions := [Invalidated(REJECTED)], place := a.place[PATH := InTask(0)],
       tasks := map[0 := CallingBack(0, Chain(CALLBACK, Some(PATH), Invalidating))])
  }

  const TAKEN_STEPS: seq<Step> := [StatusArrives(0, SUCCEEDED), Advance(0), Advance(0)]

  lemma TakenAgainRun()
    ensures IsRun(ANY_STATUS, Rejected(), TAKEN_STEPS) && Final(ANY_STATUS, Rejected(), TAKEN_STEPS) == TakenAgain()
  {
    hide TaskNext, IsRun, Final;
    var a := Rejected();
    var b := a.(tasks := map[0 := GotStatus(SUCCEEDED)]);
    var c := a.(tasks := map[0 := Deciding(0, SUCCEEDED)]);
    var d := TakenAgain();
    EmptyRun(ANY_STATUS, a);
    var run: seq<Step> := [];
    Extend(ANY_STATUS, a, run, StatusArrives(0, SUCCEEDED));
    run := run + [StatusArrives(0, SUCCEEDED)];
    assert Final(ANY_STATUS, a, run) == b;
    L.Locks(b, 0, 0, SUCCEEDED);
    assert b.tasks[0 := Deciding(0, SUCCEEDED)] == c.tasks;
    Extend(ANY_STATUS, a, run, Advance(0));
    run := run + [Advance(0)];
    assert FirstAbout(SUCCEEDED, PATH) == Some(Succeeded);
    L.Decides(c, 0, 0, PATH, SUCCEEDED);
    assert c.tasks[0 := d.tasks[0]] == d.tasks && c.sessions[0 := Invalidated(c.sessions[0])] == d.sessions;
    Extend(ANY_STATUS, a, run, Advance(0));
    assert run + [Advance(0)] == TAKEN_STEPS;
  }

  const FIRING_STEPS: seq<Step> := [Continue, Continue, Continue]

  lemma FiringRun(s: State)
    requires s.pc == Firing(Chain(CALLBACK, Some(PATH), Invalidating)) && 0 in s.held && s.tasks == map[]
    requires s.sessions == [Invalidated(REJECTED)]
    ensures IsRun(ANY_STATUS, s, FIRING_STEPS)
    ensures Final(ANY_STATUS, s, FIRING_STEPS).log == s.log + [Fired(PathRequest(0), PATH)]
  {
    hide IsRun, Final;
    EmptyRun(ANY_STATUS, s);
    var run: seq<Step> := [];
    assert Alive(s, 0);
    assert s.sessions[0 := Invalidated(s.sessions[0])] == s.sessions;
    var s1 := s.(pc := Firing(Chain(CALLBACK, Some(PATH), Resetting)));
    Then(ANY_STATUS, s, run, Continue, s1);
    run := run + [Continue];
    var s2 := s1.(current := None, pc := Firing(Chain(CALLBACK, Some(PATH), Finishing)));
    Then(ANY_STATUS, s, run, Continue, s2);
    run := run + [Continue];
    Then(ANY_STATUS, s, run, Continue, Next(s2, Continue));
    assert run + [Continue] == FIRING_STEPS;
  }

  /**
   * If the robot reports the success of a goal whose send it rejected, the completion can be
   * called twice for one goal: rejecting copies it and leaves it in the session.
   */
  lemma CompletionCanFireTwice() returns (run: seq<Step>)
    ensures IsRun(ANY_STATUS, INITIAL, run)
    ensures var log := Final(ANY_STATUS, INITIAL, run).log;
      |log| == 3 && log[1] == log[2] == Fired(PathRequest(0), PATH)
  {
    hide IsRun, Final;
    RejectedRun();
    TakenAgainRun();
    Append(ANY_STATUS, INITIAL, REJECTED_STEPS, TAKEN_STEPS);
    run := REJECTED_STEPS + TAKEN_STEPS;
    var d := TakenAgain();
    assert d.tasks == (map[])[0 := d.tasks[0]];
    L.CallbackDelivers(ANY_STATUS, d, map[], 0, 0, CALLBACK, PATH, REJECTED);
    Append(ANY_STATUS, INITIAL, run, L.Advances(0, 3));
    run := run + L.Advances(0, 3);
    FiringRun(Final(ANY_STATUS, INITIAL, run));
    Append(ANY_STATUS, INITIAL, run, FIRING_STEPS);
    run := run + FIRING_STEPS;
  }

  // ----- an action that is aborted, with every assumption -----

  /** An action runs on the live session of the first path: the goal of the path is withdrawn. */
  function Overridden(): State {
    var a := AfterFollow(INITIAL, PATH);
    a.(sessions := [Armed(PathSession(0, PATH), ERRAND, Some(Errand(0)), None)],
       issued := a.issued[ERRAND := Issue(0, Some(Errand(0)), true)],
       place := a.place[PATH := Closed][ERRAND := InSession], log := a.log + [Withdrawn(PATH)])
  }

  const ABORTED: seq<Status> := [Status(ERRAND, Aborted)]
  const ABORTED_STEPS: seq<Step> := [StatusArrives(1, ABORTED), Advance(1), Advance(1)]

  lemma OverrideLocks()
    ensures var a := AfterFollow(INITIAL, PATH);
      Next(a, Execute(Some(Errand(0)))) == a.(pc := Arming(Call(Some(Errand(0)), None), 0), held := {0})
  {
    assert Lock(AfterFollow(INITIAL, PATH)) == Some(0);
  }

  lemma OverrideArms()
    ensures var a := AfterFollow(INITIAL, PATH);
      Arm(a.(pc := Arming(Call(Some(Errand(0)), None), 0), held := {0}), ERRAND, true)
      == Overridden().(pc := Sending(0, ERRAND), held := {0})
    ensures ERRAND !in AfterFollow(INITIAL, PATH).issued
  {
    var a := AfterFollow(INITIAL, PATH);
    assert a.sessions[0 := Overridden().sessions[0]] == Overridden().sessions;
  }

  lemma OverriddenRun()
    ensures IsRun(ALL, AfterFollow(INITIAL, PATH), ERRAND_STEPS)
    ensures Final(ALL, AfterFollow(INITIAL, PATH), ERRAND_STEPS) == Overridden()
  {
    hide IsRun, Final, Arm;
    var (a, d) := (AfterFollow(INITIAL, PATH), Overridden());
    EmptyRun(ALL, a);
    var run: seq<Step> := [];
    OverrideLocks();
    Then(ALL, a, run, Execute(Some(Errand(0))), a.(pc := Arming(Call(Some(Errand(0)), None), 0), held := {0}));
    run := run + [Execute(Some(Errand(0)))];
    OverrideArms();
    Then(ALL, a, run, ArmGoal(ERRAND, true), d.(pc := Sending(0, ERRAND), held := {0}));
    run := run + [ArmGoal(ERRAND, true)];
    Then(ALL, a, run, Continue, d);
    assert run + [Continue] == ERRAND_STEPS;
  }

  /** The abort takes the failure callback of the path out of the session. */
  function FailureTaken(): State {
    var d := Overridden();
    d.(sessions := [Invalidated(d.sessions[0])], place := d.place[ERRAND := InTask(1)],
       tasks := map[1 := CallingBack(0, Chain(Fail(0), Some(ERRAND), Invalidating))])
  }

  lemma FailureTakenRun()
    ensures IsRun(ALL, Overridden(), ABORTED_STEPS) && Final(ALL, Overridden(), ABORTED_STEPS) == FailureTaken()
  {
    hide TaskNext, IsRun, Final;
    var d := Overridden();
    var b := d.(tasks := map[1 := GotStatus(ABORTED)]);
    var c := d.(tasks := map[1 := Deciding(0, ABORTED)]);
    EmptyRun(ALL, d);
    var run: seq<Step> := [];
    Then(ALL, d, run, StatusArrives(1, ABORTED), b);
    run := run + [StatusArrives(1, ABORTED)];
    L.Locks(b, 1, 0, ABORTED);
    assert b.tasks[1 := Deciding(0, ABORTED)] == c.tasks;
    Then(ALL, d, run, Advance(1), c);
    run := run + [Advance(1)];
    FailureIsTaken();
    Then(ALL, d, run, Advance(1), FailureTaken());
    assert run + [Advance(1)] == ABORTED_STEPS;
  }

  lemma FailureIsTaken()
    ensures TaskNext(Overridden().(tasks := map[1 := Deciding(0, ABORTED)]), 1) == FailureTaken()
  {
    var c := Overridden().(tasks := map[1 := Deciding(0, ABORTED)]);
    assert FirstAbout(ABORTED, ERRAND) == Some(Aborted);
    assert c.sessions[0 := Invalidated(c.sessions[0])] == FailureTaken().sessions;
    assert c.tasks[1 := FailureTaken().tasks[1]] == FailureTaken().tasks;
  }

  /**
   * With every assumption, a replan can answer the failure of an action: it was armed on the
   * session of a live path, whose goal was withdrawn and never failed, and its own completion
   * is never called.
   */
  lemma ErrandFailureReplans() returns (run: seq<Step>)
    ensures IsRun(ALL, INITIAL, run)
    ensures var s := Final(ALL, INITIAL, run);
      && s.log == [Followed(0), Withdrawn(PATH), Failed(0, ERRAND), Replanned]
      && !FailureFlag.Justified(s.issued, s.log) && R.IsWithdrawn(s, 0) && !R.HasFailed(s, 0)
      && ERRAND in s.issued && s.issued[ERRAND].owner == Some(Errand(0)) && Fired(Errand(0), ERRAND) !in s.log
  {
    hide IsRun, Final, Next;
    var taken := FailureTaken();
    FollowLeads(ALL, INITIAL, PATH);
    OverriddenRun();
    Append(ALL, INITIAL, Follow(PATH), ERRAND_STEPS);
    run := Follow(PATH) + ERRAND_STEPS;
    FailureTakenRun();
    Append(ALL, INITIAL, run, ABORTED_STEPS);
    run := run + ABORTED_STEPS;
    assert taken.tasks == (map[])[1 := taken.tasks[1]];
    L.CallbackDelivers(ALL, taken, map[], 1, 0, Fail(0), ERRAND, Overridden().sessions[0]);
    Append(ALL, INITIAL, run, L.Advances(1, 3));
    run := run + L.Advances(1, 3);
    var s := Final(ALL, INITIAL, run);
    ErrandIsTaken(s);
    ExecutorMay(ALL, s, TakeFailure);
    Extend(ALL, INITIAL, run, TakeFailure);
    run := run + [TakeFailure];
    ErrandIsNotTheRequests(Final(ALL, INITIAL, run));
  }

  lemma ErrandIsTaken(s: State)
    requires s.pc.Idle? && s.pendingFailure && s.tasks == map[]
    ensures Free(ALL, s) && Next(s, TakeFailure) == s.(pendingFailure := false, log := s.log + [Replanned])
  {
  }

  lemma ErrandIsNotTheRequests(s: State)
    requires s.log == [Followed(0), Withdrawn(PATH), Failed(0, ERRAND), Replanned]
    requires s.issued == map[PATH := Issue(0, Some(PathRequest(0)), true), ERRAND := Issue(0, Some(Errand(0)), true)]
    ensures !FailureFlag.Justified(s.issued, s.log) && R.IsWithdrawn(s, 0) && !R.HasFailed(s, 0)
  {
    var before: seq<Record> := [Followed(0), Withdrawn(PATH)];
    assert s.log[..3][..2] == before && before[..1] == [Followed(0)];
    assert s.log[..3] == before + [Failed(0, ERRAND)];
    assert !FailureFlag.Outstanding(s.issued, before);
    assert s.log[3].Replanned? && !FailureFlag.Outstanding(s.issued, s.log[..3]);
    assert R.GoalOf(s, 0, PATH) && s.log[1] in s.log;
  }

  /** On an orphan the abort of the action is not heard at all: no flag is raised and nobody is told. */
  lemma OrphanFailureIsUnheard() returns (run: seq<Step>)
    ensures IsRun(ALL, INITIAL, run)
    ensures var s := Final(ALL, INITIAL, run);
      Unheard(ERRAND) in s.log && !s.pendingFailure && Fired(Errand(0), ERRAND) !in s.log
  {
    hide IsRun, Final, TaskNext, Orphaned, LetGo, Holding, Free;
    run := HoldingRun();
    StopRun();
    ErrandRun();
    Append(ALL, INITIAL, run, STOP_STEPS);
    run := run + STOP_STEPS;
    Append(ALL, INITIAL, run, ERRAND_STEPS);
    run := run + ERRAND_STEPS;
    var d := Orphaned();
    var b := d.(tasks := d.tasks[1 := GotStatus(ABORTED)]);
    var c := d.(tasks := d.tasks[1 := Deciding(0, ABORTED)]);
    OrphanIsFree(b, c);
    Then(ALL, INITIAL, run, StatusArrives(1, ABORTED), b);
    run := run + [StatusArrives(1, ABORTED)];
    Then(ALL, INITIAL, run, Advance(1), c);
    run := run + [Advance(1)];
    Then(ALL, INITIAL, run, Advance(1), TaskNext(c, 1));
    run := run + [Advance(1)];
  }

  lemma OrphanIsFree(b: State, c: State)
    requires b == Orphaned().(tasks := Orphaned().tasks[1 := GotStatus(ABORTED)])
    requires c == Orphaned().(tasks := Orphaned().tasks[1 := Deciding(0, ABORTED)])
    ensures Free(ALL, Orphaned()) && Free(ALL, b) && Free(ALL, c)
    ensures Orphaned().pc.Idle? && 1 !in Orphaned().tasks && AboutAccepted(Orphaned().issued, ABORTED)
    ensures TaskNext(b, 1) == c
    ensures Unheard(ERRAND) in TaskNext(c, 1).log && Fired(Errand(0), ERRAND) !in TaskNext(c, 1).log
    ensures !TaskNext(c, 1).pendingFailure
  {
    assert 0 in HeldBy(b.tasks[0]);
    assert Lock(b) == Some(0);
    assert b.tasks[1 := Deciding(0, ABORTED)] == c.tasks;
    assert FirstAbout(ABORTED, ERRAND) == Some(Aborted);
  }
}
