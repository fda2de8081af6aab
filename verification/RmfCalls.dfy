/**
 * What the calls of RMF and of the update tick come to when they run to the end: a path is
 * sent, replacing the one before it; a stop and a cancel withdraw what is live; an action
 * executes on the session found, or is answered at once; a raised failure is replanned.
 * Nothing is assumed beyond what every run satisfies.
 */
module RmfCalls {
  import opened Common
  import opened NavigationSession
  import opened NavigationProtocol
  import opened Schedules
  import D = FeedbackDelivery
  import F = ProtocolFrame
  import W = ArrivalWiring

  /** The record of what is withdrawn with a session. */
  function WithdrawnWith(x: Session): seq<Record> {
    if Live(x) then [Withdrawn(x.goal.value)] else []
  }

  lemma InvalidateWithdraws(s: State, i: SessionId)
    requires i < |s.sessions|
    ensures var s' := Invalidate(s, i);
      && s'.sessions == s.sessions[i := Invalidated(s.sessions[i])]
      && s'.log == s.log + WithdrawnWith(s.sessions[i])
      && F.SameContext(s, s') && s'.current == s.current && s'.pendingFailure == s.pendingFailure
  {
    F.InvalidateShape(s, i);
  }

  lemma CancelWithdraws(s: State, i: SessionId)
    requires i < |s.sessions|
    ensures var s' := CancelSession(s, i);
      && s'.sessions == s.sessions[i := Cancelled(s.sessions[i])]
      && s'.log == s.log + WithdrawnWith(s.sessions[i])
      && F.SameContext(s, s') && s'.current == s.current && s'.pendingFailure == s.pendingFailure
  {
    hide Invalidate, CancelSession;
    CancelInvalidates(s, i);
    InvalidateWithdraws(s, i);
    assert s.sessions[i := s.sessions[i]] == s.sessions;
  }

  // ----- a new path -----

  /** RMF asks for a path, and its goal is sent. */
  function Follow(wants: bool, g: Goal, accepted: bool): seq<Step> {
    [FollowNewPath(wants), Continue, Continue, Continue, Continue, ArmGoal(g, accepted), Continue]
  }

  /** The session of a path whose goal was sent. */
  function PathSession(n: SessionId, wants: bool, g: Goal): Session {
    Session(Some(g), false, 0, Some(PathRequest(n)), Some(n), W.Estimator(wants, n), W.Estimator(wants, n), None, 0)
  }

  /** The sessions with the one held invalidated, and a new one last. */
  function Replaced(s: State, x: Session): seq<Session> {
    (if s.current.Some? && s.current.value < |s.sessions|
     then s.sessions[s.current.value := Invalidated(s.sessions[s.current.value])] else s.sessions) + [x]
  }

  function WithdrawnFrom(s: State): seq<Record> {
    if s.current.Some? then WithdrawnWith(At(s, s.current.value)) else []
  }

  /** The new session is in place. */
  function Opened(s: State): State {
    var n := |s.sessions|;
    s.(sessions := s.sessions + [FRESH], current := Some(n), log := s.log + [Followed(n)])
  }

  /** The one before is invalidated, and no failure is pending. */
  function Swept(s: State): State {
    (if s.current.Some? then Invalidate(Opened(s), s.current.value) else Opened(s)).(pendingFailure := false)
  }

  /** The new session is shown to the controller. */
  function Announced(s: State, wants: bool): State {
    var n := |s.sessions|;
    var s1 := Swept(s);
    s1.(sessions := Replaced(s, FRESH.(rmfEstimator := W.Estimator(wants, n), failure := Some(n))), wp := Some(n), held := {n})
  }

  function PathCall(n: SessionId, wants: bool): Call {
    Call(Some(PathRequest(n)), W.Estimator(wants, n))
  }

  lemma SweptIs(s: State)
    requires s.current.Some? ==> s.current.value < |s.sessions|
    ensures var s1 := Swept(s);
      && s1.sessions == Replaced(s, FRESH) && s1.log == s.log + [Followed(|s.sessions|)] + WithdrawnFrom(s)
      && F.SameContext(s, s1) && s1.current == Some(|s.sessions|) && !s1.pendingFailure
  {
    if s.current.Some? {
      InvalidateWithdraws(Opened(s), s.current.value);
    }
  }

  lemma InvalidateCommutes(s: State, i: SessionId, pc: Pc, held: set<SessionId>)
    ensures Invalidate(s.(pc := pc, held := held), i) == Invalidate(s, i).(pc := pc, held := held)
  {
    hide Live, At, Invalidated;
    assert At(s.(pc := pc, held := held), i) == At(s, i) by { SameAt(s, pc, held, i); }
  }

  lemma SameAt(s: State, pc: Pc, held: set<SessionId>, i: SessionId)
    ensures At(s.(pc := pc, held := held), i) == At(s, i)
  {
  }

  lemma SwapSteps(s: State, wants: bool)
    requires s.pc.Idle? && (s.current.Some? ==> s.current.value < |s.sessions|)
    ensures var n := |s.sessions|;
      var s1 := Next(s, FollowNewPath(wants));
      && s1.pc == Swapped(n, wants, s.current) && s1.tasks == s.tasks
      && ExecutorNext(s1).pc == Superseded(n, wants)
      && ExecutorNext(ExecutorNext(s1)) == Swept(s).(pc := Cleared(n, wants), held := {n})
      && ExecutorNext(s1).tasks == s.tasks
  {
    var n := |s.sessions|;
    var s1 := Next(s, FollowNewPath(wants));
    SweptIs(s);
    hide Invalidate;
    if s.current.Some? {
      InvalidateCommutes(Opened(s), s.current.value, s1.pc, s1.held);
      F.InvalidateShape(s1, s.current.value);
    }
  }

  lemma AnnounceStep(s: State, wants: bool)
    requires s.current.Some? ==> s.current.value < |s.sessions|
    ensures var n := |s.sessions|;
      ExecutorNext(Swept(s).(pc := Cleared(n, wants), held := {n})) ==
      Announced(s, wants).(pc := Calling(PathCall(n, wants)))
  {
    var n := |s.sessions|;
    SweptIs(s);
    hide Swept;
    var x := FRESH.(rmfEstimator := W.Estimator(wants, n), failure := Some(n));
    assert Replaced(s, FRESH)[n := x] == Replaced(s, x);
  }

  lemma CallStep(s: State, wants: bool)
    requires s.current.Some? ==> s.current.value < |s.sessions|
    ensures var n := |s.sessions|;
      ExecutorNext(Announced(s, wants).(pc := Calling(PathCall(n, wants)))) ==
      Announced(s, wants).(pc := Arming(PathCall(n, wants), n))
  {
    SweptIs(s);
    hide Swept;
    var n := |s.sessions|;
    var s1 := Announced(s, wants).(pc := Calling(PathCall(n, wants)));
    assert Lock(s1) == Some(n) by { assert Alive(s1, n); }
    assert {n} + {n} == {n};
  }

  /** The goal of the path is issued and its session armed. */
  function Sent(s: State, wants: bool, g: Goal, accepted: bool): State {
    var n := |s.sessions|;
    var s1 := Announced(s, wants);
    s1.(sessions := Replaced(s, PathSession(n, wants, g)), pc := Sending(n, g),
        issued := s.issued[g := Issue(n, Some(PathRequest(n)), accepted)], place := s1.place[g := InSession])
  }

  lemma ArmStep(s: State, wants: bool, g: Goal, accepted: bool)
    requires s.current.Some? ==> s.current.value < |s.sessions|
    ensures var n := |s.sessions|;
      Arm(Announced(s, wants).(pc := Arming(PathCall(n, wants), n)), g, accepted) == Sent(s, wants, g, accepted)
  {
    SweptIs(s);
    hide Swept;
    var n := |s.sessions|;
    var x := FRESH.(rmfEstimator := W.Estimator(wants, n), failure := Some(n));
    assert Replaced(s, x)[n := PathSession(n, wants, g)] == Replaced(s, PathSession(n, wants, g));
  }

  /** RMF may start a call, and the goal is new. */
  ghost predicate MayFollow(assumed: Assumptions, s: State, g: Goal, accepted: bool) {
    && s.pc.Idle? && g !in s.issued && Free(assumed, s) && D.Shown(s)
    && (assumed.acceptedOnly && !accepted ==> Unannounced(s.tasks, g))
  }

  lemma FollowLeads(assumed: Assumptions, s: State, wants: bool, g: Goal, accepted: bool)
    requires MayFollow(assumed, s, g, accepted)
    ensures var run := Follow(wants, g, accepted);
      && IsRun(assumed, s, run[..6]) && Final(assumed, s, run[..6]) == Sent(s, wants, g, accepted)
  {
    hide ExecutorNext, TaskNext, Arm, IsRun, Final, Free, Invalidate, Unannounced, D.Shown, Alive, Lock, Leads;
    var n := |s.sessions|;
    if s.current.Some? {
      ShownInRange(s);
    }
    SweptIs(s);
    SwapSteps(s, wants);
    AnnounceStep(s, wants);
    CallStep(s, wants);
    ArmStep(s, wants, g, accepted);
    hide Swept;
    var s1 := Next(s, FollowNewPath(wants));
    var s2 := ExecutorNext(s1);
    var s3 := Swept(s).(pc := Cleared(n, wants), held := {n});
    var s4 := Announced(s, wants).(pc := Calling(PathCall(n, wants)));
    var s5 := Announced(s, wants).(pc := Arming(PathCall(n, wants), n));
    hide Next, Announced;
    SameFree(assumed, s, s1);
    SameFree(assumed, s, s2);
    SameFree(assumed, s, s3);
    SameFree(assumed, s, s4);
    SameFree(assumed, s, s5);
    Calls(assumed, s, FollowNewPath(wants), s1);
    Continues(assumed, s1, s2);
    Continues(assumed, s2, s3);
    Continues(assumed, s3, s4);
    Continues(assumed, s4, s5);
    Arms(assumed, s5, g, accepted, Sent(s, wants, g, accepted));
    Path(assumed, [s, s1, s2, s3, s4, s5, Sent(s, wants, g, accepted)], Follow(wants, g, accepted)[..6]);
  }

  lemma ShownInRange(s: State)
    requires D.Shown(s) && s.current.Some?
    ensures s.current.value < |s.sessions|
  {
  }

  /** The answer to the send, when it was accepted: the call is over. */
  lemma AcceptedEnds(s: State, n: SessionId, g: Goal)
    requires s.pc == Sending(n, g) && g in s.issued && s.issued[g].accepted
    ensures ExecutorNext(s) == Return(s)
  {
  }

  /**
   * From every reachable state at rest, a path whose goal is accepted is sent: its session
   * is live with that goal, is the one the path handle and the controller hold, and has the
   * estimators RMF wanted. The one before is invalidated, its live goal withdrawn, and no
   * failure is left pending.
   */
  lemma PathIsSent(assumed: Assumptions, run: seq<Step>, wants: bool, g: Goal)
    requires IsRun(assumed, INITIAL, run)
    requires var s := Final(assumed, INITIAL, run); s.pc.Idle? && g !in s.issued && Free(assumed, s)
    ensures var s, more := Final(assumed, INITIAL, run), Follow(wants, g, true);
      IsRun(assumed, s, more) &&
      var s', n := Final(assumed, s, more), |s.sessions|;
      && s'.sessions == Replaced(s, PathSession(n, wants, g)) && s'.current == s'.wp == Some(n)
      && s'.log == s.log + [Followed(n)] + WithdrawnFrom(s) && !s'.pendingFailure && s'.pc.Idle?
      && s'.issued == s.issued[g := Issue(n, Some(PathRequest(n)), true)] && s'.tasks == s.tasks
      && (wants ==> D.Wired(s', n, g))
  {
    hide IsRun, Final, Free, D.Shown, Replaced, ExecutorNext, Next, Leads, WithdrawnFrom;
    var s := Final(assumed, INITIAL, run);
    D.RunIsShown(assumed, run);
    FollowLeads(assumed, s, wants, g, true);
    var (s6, before) := (Sent(s, wants, g, true), Follow(wants, g, true)[..6]);
    SentIs(s, wants, g, true);
    AcceptedEnds(s6, |s.sessions|, g);
    SameFree(assumed, s, s6);
    Continues(assumed, s6, Return(s6));
    Onward(assumed, s, before, s6, Continue, Return(s6));
    assert Follow(wants, g, true) == before + [Continue];
  }

  lemma Onward(assumed: Assumptions, s: State, run: seq<Step>, s': State, e: Step, s'': State)
    requires IsRun(assumed, s, run) && Final(assumed, s, run) == s' && Leads(assumed, s', e, s'')
    ensures IsRun(assumed, s, run + [e]) && Final(assumed, s, run + [e]) == s''
  {
    hide Next, Allowed, IsRun, Final;
    Extend(assumed, s, run, e);
  }

  lemma SentIs(s: State, wants: bool, g: Goal, accepted: bool)
    requires s.current.Some? ==> s.current.value < |s.sessions|
    ensures var (s', n) := (Sent(s, wants, g, accepted), |s.sessions|);
      && s'.pc == Sending(n, g) && s'.sessions == Replaced(s, PathSession(n, wants, g)) && s'.current == s'.wp == Some(n)
      && s'.log == s.log + [Followed(n)] + WithdrawnFrom(s) && !s'.pendingFailure && s'.tasks == s.tasks
      && s'.issued == s.issued[g := Issue(n, Some(PathRequest(n)), accepted)]
      && n < |s'.sessions| && s'.sessions[n] == PathSession(n, wants, g)
  {
    SweptIs(s);
    hide Swept;
  }

  // ----- a path whose goal is rejected -----

  lemma RejectedSteps(s: State, n: SessionId, g: Goal, x: Session)
    requires s.pc == Sending(n, g) && g in s.issued && !s.issued[g].accepted && s.current == Some(n)
    requires n < |s.sessions| && s.sessions[n] == x && x.goal == Some(g) && !x.done && x.completion == Some(PathRequest(n))
    ensures var s1 := ExecutorNext(s);
      var s2 := ExecutorNext(s1);
      var s3 := ExecutorNext(s2);
      var s4 := ExecutorNext(s3);
      && s1.pc.Firing? && s2.pc.Firing? && s3.pc.Firing?
      && s1.tasks == s2.tasks == s3.tasks == s4.tasks == s.tasks
      && s4.sessions == s.sessions[n := Invalidated(x)] && s4.current == None && s4.pc.Idle?
      && s4.log == s.log + [Fired(PathRequest(n), g)] && s4.pendingFailure == s.pendingFailure
  {
    var chain := Begin(Complete(PathRequest(n)), Some(g));
    var s1 := s.(place := s.place[g := InExecutor], sessions := s.sessions[n := x.(done := true)], pc := Firing(chain));
    assert ExecutorNext(s1) == s1.(sessions := s.sessions[n := Invalidated(x)], pc := Firing(chain.(stage := Resetting))) by {
      assert Alive(s1, n);
      hide Alive;
      assert s1.sessions[n := Invalidated(x)] == s.sessions[n := Invalidated(x)];
    }
    hide Alive;
  }

  /**
   * A path whose goal is rejected is answered at once: its completion is called, nothing
   * is left in its session, and the path handle holds none.
   */
  lemma RejectedPathIsAnswered(assumed: Assumptions, run: seq<Step>, wants: bool, g: Goal)
    requires IsRun(assumed, INITIAL, run)
    requires var s := Final(assumed, INITIAL, run);
      s.pc.Idle? && g !in s.issued && Free(assumed, s) && (assumed.acceptedOnly ==> Unannounced(s.tasks, g))
    ensures var s, more := Final(assumed, INITIAL, run), Follow(wants, g, false) + [Continue, Continue, Continue];
      IsRun(assumed, s, more) &&
      var s', n := Final(assumed, s, more), |s.sessions|;
      && s'.log == s.log + [Followed(n)] + WithdrawnFrom(s) + [Fired(PathRequest(n), g)]
      && s'.sessions == Replaced(s, Invalidated(PathSession(n, wants, g))) && s'.current == None
      && s'.pc.Idle? && s'.tasks == s.tasks && !s'.pendingFailure
  {
    hide IsRun, Final, Free, D.Shown, Replaced, ExecutorNext, Next, Leads, WithdrawnFrom, Unannounced;
    var s := Final(assumed, INITIAL, run);
    D.RunIsShown(assumed, run);
    FollowLeads(assumed, s, wants, g, false);
    var n := |s.sessions|;
    var s6 := Sent(s, wants, g, false);
    SentIs(s, wants, g, false);
    hide Sent;
    RejectedSteps(s6, n, g, PathSession(n, wants, g));
    LastReplaced(s, PathSession(n, wants, g), Invalidated(PathSession(n, wants, g)));
    SameFree(assumed, s, s6);
    FourMore(assumed, s6);
    Append(assumed, s, Follow(wants, g, false)[..6], [Continue, Continue, Continue, Continue]);
    assert Follow(wants, g, false) + [Continue, Continue, Continue] ==
           Follow(wants, g, false)[..6] + [Continue, Continue, Continue, Continue];
  }

  lemma LastReplaced(s: State, x: Session, y: Session)
    ensures |Replaced(s, x)| == |s.sessions| + 1 && Replaced(s, x)[|s.sessions| := y] == Replaced(s, y)
  {
  }

  lemma FourMore(assumed: Assumptions, s: State)
    requires var s1 := ExecutorNext(s);
      var s2 := ExecutorNext(s1);
      var s3 := ExecutorNext(s2);
      && !s.pc.Idle? && !s.pc.Arming? && s1.pc.Firing? && s2.pc.Firing? && s3.pc.Firing?
      && s1.tasks == s2.tasks == s3.tasks == s.tasks
    requires Free(assumed, s)
    ensures var run := [Continue, Continue, Continue, Continue];
      IsRun(assumed, s, run) && Final(assumed, s, run) == ExecutorNext(ExecutorNext(ExecutorNext(ExecutorNext(s))))
  {
    hide ExecutorNext, IsRun, Final, Free, Leads;
    var s1 := ExecutorNext(s);
    var s2 := ExecutorNext(s1);
    var s3 := ExecutorNext(s2);
    SameFree(assumed, s, s1);
    SameFree(assumed, s, s2);
    SameFree(assumed, s, s3);
    Continues(assumed, s, s1);
    Continues(assumed, s1, s2);
    Continues(assumed, s2, s3);
    Continues(assumed, s3, ExecutorNext(s3));
    Path(assumed, [s, s1, s2, s3, ExecutorNext(s3)], [Continue, Continue, Continue, Continue]);
  }

  // ----- cancel and stop -----

  /** The sessions after the one found is cancelled. */
  ghost function CancelledIn(s: State): seq<Session> {
    var i := Lock(s);
    if i.Some? && i.value < |s.sessions| then s.sessions[i.value := Cancelled(s.sessions[i.value])] else s.sessions
  }

  ghost function WithdrawnFound(s: State): seq<Record> {
    var i := Lock(s);
    if i.Some? then WithdrawnWith(At(s, i.value)) else []
  }

  ghost function CancelSteps(s: State): seq<Step> {
    if Lock(s).Some? then [Cancel, Continue] else [Cancel]
  }

  /** From every reachable state at rest, a cancel withdraws the goal of the session found, if it is live, and changes nothing else. */
  lemma CancelEnds(assumed: Assumptions, run: seq<Step>)
    requires IsRun(assumed, INITIAL, run)
    requires var s := Final(assumed, INITIAL, run); s.pc.Idle? && Free(assumed, s)
    ensures var s := Final(assumed, INITIAL, run);
      IsRun(assumed, s, CancelSteps(s)) &&
      var s' := Final(assumed, s, CancelSteps(s));
      && s'.sessions == CancelledIn(s) && s'.log == s.log + WithdrawnFound(s)
      && s'.current == s.current && s'.wp == s.wp && s'.pendingFailure == s.pendingFailure
      && s'.pc.Idle? && s'.tasks == s.tasks && s'.issued == s.issued
  {
    hide IsRun, Final, Free, ExecutorNext, Leads, Alive, CancelSession, Cancelled;
    var s := Final(assumed, INITIAL, run);
    D.RunIsShown(assumed, run);
    var s1 := Next(s, Cancel);
    Calls(assumed, s, Cancel, s1);
    if Lock(s).Some? {
      var i := Lock(s).value;
      CancelStep(s1, i);
      SameFree(assumed, s, s1);
      Continues(assumed, s1, ExecutorNext(s1));
      Path(assumed, [s, s1, ExecutorNext(s1)], [Cancel, Continue]);
    } else {
      Path(assumed, [s, s1], [Cancel]);
    }
  }

  lemma CancelStep(s: State, i: SessionId)
    requires s.pc == Cancelling(i) && i < |s.sessions|
    ensures var s' := ExecutorNext(s);
      && s'.sessions == s.sessions[i := Cancelled(s.sessions[i])] && s'.log == s.log + WithdrawnWith(s.sessions[i])
      && s'.current == s.current && s'.wp == s.wp && s'.pendingFailure == s.pendingFailure
      && s'.pc.Idle? && s'.tasks == s.tasks && s'.issued == s.issued
  {
    hide CancelSession;
    CancelWithdraws(s, i);
  }

  ghost function StopSteps(s: State): seq<Step> {
    [Stop] + (if Lock(s).Some? then [Continue] else []) + (if s.current.Some? then [Continue] else [])
    + [Continue, Continue, Continue]
  }

  lemma StopSweeps(s: State, i: SessionId)
    requires s.pc == StopCancelling(i) && i < |s.sessions| && (s.current.Some? ==> s.current == Some(i))
    ensures var s1 := ExecutorNext(s);
      && s1.pc == StopReading && s1.sessions == s.sessions[i := Cancelled(s.sessions[i])]
      && s1.log == s.log + WithdrawnWith(s.sessions[i]) && s1.current == s.current && s1.tasks == s.tasks
  {
    hide CancelSession, Cancelled;
    CancelWithdraws(s, i);
  }

  lemma StopSettles(s: State, i: SessionId)
    requires s.pc == StopReading && s.current == Some(i) && i < |s.sessions| && !Live(s.sessions[i])
    ensures var s1 := ExecutorNext(s);
      var s2 := ExecutorNext(s1);
      && s1.pc.StopInvalidating? && s2.pc == StopResetting && s1.tasks == s2.tasks == s.tasks
      && s2.sessions == s.sessions[i := Invalidated(s.sessions[i])] && s2.log == s.log
  {
    var s1 := ExecutorNext(s);
    hide Invalidate;
    InvalidateWithdraws(s1, i);
    assert s.log + [] == s.log;
  }

  lemma StopFinishes(s: State)
    requires s.pc == StopResetting || (s.pc == StopReading && s.current.None?)
    ensures var s1 := if s.pc.StopReading? then ExecutorNext(s) else s;
      var s2 := ExecutorNext(s1);
      var s3 := ExecutorNext(s2);
      && s1.pc.StopResetting? && s2.pc.StopClearing? && s3.pc.Idle? && s1.tasks == s2.tasks == s3.tasks == s.tasks
      && s3.sessions == s.sessions && s3.log == s.log && s3.current.None? && !s3.pendingFailure
  {
  }

  /** What a stop leaves: neither pointer finds a live goal, and the path handle holds no session. */
  ghost predicate Stopped(s: State, s': State) {
    && s'.log == s.log + [Record.Stopped] + WithdrawnFound(s)
    && s'.current.None? && !s'.pendingFailure && s'.pc.Idle? && s'.tasks == s.tasks
    && s'.sessions == (if s.current.Some? && s.current.value < |s.sessions|
                       then s.sessions[s.current.value := Invalidated(s.sessions[s.current.value])] else CancelledIn(s))
  }

  /**
   * From every reachable state at rest, a stop withdraws the live goal of the session found,
   * whether the path handle still holds it or not; it lets go of the session held, and
   * leaves no failure pending.
   */
  lemma StopEnds(assumed: Assumptions, run: seq<Step>)
    requires IsRun(assumed, INITIAL, run)
    requires var s := Final(assumed, INITIAL, run); s.pc.Idle? && Free(assumed, s)
    ensures var s := Final(assumed, INITIAL, run);
      IsRun(assumed, s, StopSteps(s)) && Stopped(s, Final(assumed, s, StopSteps(s)))
  {
    hide IsRun, Final, Free, Stopped, StopSteps, D.Shown;
    D.RunIsShown(assumed, run);
    StopLeads(assumed, Final(assumed, INITIAL, run));
  }

  lemma StopBegins(s: State)
    requires s.pc.Idle?
    ensures var s1 := Next(s, Stop);
      && s1.pc == (if Lock(s).Some? then StopCancelling(Lock(s).value) else StopReading)
      && s1.sessions == s.sessions && s1.current == s.current && s1.tasks == s.tasks && s1.log == s.log + [Record.Stopped]
  {
    hide Alive;
  }

  /** A stop with a session held. */
  lemma StopHeld(assumed: Assumptions, s: State, i: SessionId)
    requires s.pc.Idle? && Free(assumed, s) && s.current == Lock(s) == Some(i) && i < |s.sessions|
    ensures IsRun(assumed, s, StopSteps(s)) && Stopped(s, Final(assumed, s, StopSteps(s)))
  {
    hide IsRun, Final, Free, Leads, ExecutorNext, TaskNext, Alive, Lock, Next;
    var s1 := Next(s, Stop);
    var s2 := ExecutorNext(s1);
    var s3 := ExecutorNext(s2);
    var s4 := ExecutorNext(s3);
    var s5 := ExecutorNext(s4);
    var s6 := ExecutorNext(s5);
    StopBegins(s);
    StopSweeps(s1, i);
    StopSettles(s2, i);
    StopFinishes(s4);
    Calls(assumed, s, Stop, s1);
    SameFree(assumed, s, s1);
    SameFree(assumed, s, s2);
    SameFree(assumed, s, s3);
    SameFree(assumed, s, s4);
    SameFree(assumed, s, s5);
    Continues(assumed, s1, s2);
    Continues(assumed, s2, s3);
    Continues(assumed, s3, s4);
    Continues(assumed, s4, s5);
    Continues(assumed, s5, s6);
    Path(assumed, [s, s1, s2, s3, s4, s5, s6], [Stop, Continue, Continue, Continue, Continue, Continue]);
    assert StopSteps(s) == [Stop, Continue, Continue, Continue, Continue, Continue];
  }

  /** A stop that finds a session the path handle has let go, or none. */
  lemma StopLoose(assumed: Assumptions, s: State)
    requires s.pc.Idle? && Free(assumed, s) && s.current.None? && (Lock(s).Some? ==> Lock(s).value < |s.sessions|)
    ensures IsRun(assumed, s, StopSteps(s)) && Stopped(s, Final(assumed, s, StopSteps(s)))
  {
    hide IsRun, Final, Free, Leads, ExecutorNext, TaskNext, Alive, Lock, Next;
    var s1 := Next(s, Stop);
    StopBegins(s);
    Calls(assumed, s, Stop, s1);
    SameFree(assumed, s, s1);
    var s2 := if Lock(s).Some? then ExecutorNext(s1) else s1;
    if Lock(s).Some? {
      StopSweeps(s1, Lock(s).value);
      Continues(assumed, s1, s2);
      Path(assumed, [s, s1, s2], [Stop, Continue]);
    } else {
      Path(assumed, [s, s1], [Stop]);
      assert s.log + [Record.Stopped] + [] == s.log + [Record.Stopped];
    }
    SameFree(assumed, s, s2);
    LooseSteps(assumed, s2);
    var begun := if Lock(s).Some? then [Stop, Continue] else [Stop];
    Append(assumed, s, begun, [Continue, Continue, Continue]);
    assert StopSteps(s) == begun + [Continue, Continue, Continue];
  }

  lemma LooseSteps(assumed: Assumptions, s: State)
    requires Free(assumed, s) && s.pc == StopReading && s.current.None?
    ensures var run := [Continue, Continue, Continue];
      IsRun(assumed, s, run) &&
      var s' := Final(assumed, s, run);
      && s'.sessions == s.sessions && s'.log == s.log && s'.current.None? && !s'.pendingFailure
      && s'.pc.Idle? && s'.tasks == s.tasks
  {
    hide IsRun, Final, Free, Leads, ExecutorNext, TaskNext, Next;
    var s1 := ExecutorNext(s);
    var s2 := ExecutorNext(s1);
    var s3 := ExecutorNext(s2);
    StopFinishes(s);
    SameFree(assumed, s, s1);
    SameFree(assumed, s, s2);
    Continues(assumed, s, s1);
    Continues(assumed, s1, s2);
    Continues(assumed, s2, s3);
    Path(assumed, [s, s1, s2, s3], [Continue, Continue, Continue]);
  }

  lemma HeldIsFound(s: State)
    requires D.Shown(s) && s.pc.Idle?
    ensures s.current.Some? ==> Lock(s) == s.current
    ensures Lock(s).Some? ==> Lock(s).value < |s.sessions|
  {
    assert s.current.Some? ==> Alive(s, s.current.value);
    hide Alive;
  }

  lemma StopLeads(assumed: Assumptions, s: State)
    requires s.pc.Idle? && Free(assumed, s) && D.Shown(s)
    ensures IsRun(assumed, s, StopSteps(s)) && Stopped(s, Final(assumed, s, StopSteps(s)))
  {
    hide IsRun, Final, Free, Stopped, StopSteps, Lock;
    HeldIsFound(s);
    if s.current.Some? {
      StopHeld(assumed, s, s.current.value);
    } else {
      StopLoose(assumed, s);
    }
  }

  // ----- a dock or an action -----

  function ExecuteSteps(owner: Option<Owner>, g: Goal): seq<Step> {
    [Execute(owner), ArmGoal(g, true), Continue]
  }

  lemma ErrandArms(s: State, owner: Option<Owner>, g: Goal, i: SessionId)
    requires s.pc.Idle? && Lock(s) == Some(i) && i < |s.sessions| && (owner.Some? ==> owner.value.Errand?)
    ensures var s1 := Next(s, Execute(owner));
      s1.pc.Arming? && s1.tasks == s.tasks && s1.issued == s.issued &&
      var s2 := Arm(s1, g, true);
      && s2.pc == Sending(i, g) && s2.tasks == s.tasks && s2.issued == s.issued[g := Issue(i, owner, true)]
      && s2.sessions == s.sessions[i := Armed(s.sessions[i], g, owner, None)]
      && s2.log == s.log + WithdrawnWith(s.sessions[i])
      && s2.current == s.current && s2.wp == s.wp && s2.pendingFailure == s.pendingFailure
  {
    hide Lock, Alive;
  }

  /**
   * From every reachable state at rest with a session to be found, the path of a dock or an
   * action is sent on that session: its goal and completion replace what was there, the
   * live goal it had is withdrawn, and it is left without an arrival estimator.
   */
  lemma ErrandIsSent(assumed: Assumptions, run: seq<Step>, owner: Option<Owner>, g: Goal)
    requires IsRun(assumed, INITIAL, run) && (owner.Some? ==> owner.value.Errand?)
    requires var s := Final(assumed, INITIAL, run); s.pc.Idle? && g !in s.issued && Free(assumed, s) && Lock(s).Some?
    ensures var s, more := Final(assumed, INITIAL, run), ExecuteSteps(owner, g);
      Lock(s).value < |s.sessions| && IsRun(assumed, s, more) &&
      var s', i := Final(assumed, s, more), Lock(s).value;
      && s'.sessions == s.sessions[i := s.sessions[i].(goal := Some(g), done := false, completion := owner, estimator := None)]
      && s'.log == s.log + WithdrawnWith(s.sessions[i]) && s'.issued == s.issued[g := Issue(i, owner, true)]
      && s'.current == s.current && s'.wp == s.wp && s'.pendingFailure == s.pendingFailure
      && s'.pc.Idle? && s'.tasks == s.tasks
  {
    hide IsRun, Final, Free, Leads, ExecutorNext, TaskNext, Alive, Lock, D.Shown, Arm;
    var s := Final(assumed, INITIAL, run);
    D.RunIsShown(assumed, run);
    HeldIsFound(s);
    var i := Lock(s).value;
    ErrandArms(s, owner, g, i);
    var s1 := Next(s, Execute(owner));
    var s2 := Arm(s1, g, true);
    Calls(assumed, s, Execute(owner), s1);
    SameFree(assumed, s, s1);
    SameFree(assumed, s, s2);
    Arms(assumed, s1, g, true, s2);
    hide Next;
    AcceptedEnds(s2, i, g);
    Continues(assumed, s2, Return(s2));
    Path(assumed, [s, s1, s2, Return(s2)], ExecuteSteps(owner, g));
  }

  /** With no session to be found, the completion of a dock or an action is called at once. */
  lemma ErrandIsBypassed(assumed: Assumptions, run: seq<Step>, id: nat)
    requires IsRun(assumed, INITIAL, run)
    requires var s := Final(assumed, INITIAL, run); s.pc.Idle? && Free(assumed, s) && Lock(s).None?
    ensures var s, more := Final(assumed, INITIAL, run), [Execute(Some(Errand(id))), Continue];
      IsRun(assumed, s, more) &&
      var s' := Final(assumed, s, more);
      && s'.log == s.log + [Bypassed(Errand(id))] && s'.sessions == s.sessions && s'.issued == s.issued
      && s'.current == s.current && s'.pc.Idle? && s'.tasks == s.tasks
  {
    hide IsRun, Final, Free, Leads, TaskNext, Alive, Lock;
    var s := Final(assumed, INITIAL, run);
    var s1 := Next(s, Execute(Some(Errand(id))));
    var s2 := ExecutorNext(s1);
    Calls(assumed, s, Execute(Some(Errand(id))), s1);
    SameFree(assumed, s, s1);
    Continues(assumed, s1, s2);
    Path(assumed, [s, s1, s2], [Execute(Some(Errand(id))), Continue]);
  }
}
