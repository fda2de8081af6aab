/**
 * Which sessions carry a goal: exactly when at most one does, and exactly when only the
 * current one does. A dock or an action can arm a session that the path handle has let go
 * but that a Zenoh callback in flight still keeps alive.
 */
module GoalCarriers {
  import opened Common
  import opened NavigationSession
  import opened NavigationProtocol
  import opened F = ProtocolFrame
  import G = GoalAccounting
  import C = CurrentPath

  /** The session is the current one, or the one just being replaced. */
  predicate Kept(s: State, i: SessionId) {
    s.current == Some(i) || (s.pc.Swapped? && s.pc.previous == Some(i))
  }

  ghost predicate OnlyKeptCarry(s: State) {
    forall i | Carries(s.sessions, i) :: Kept(s, i)
  }

  ghost predicate AtMostOneCarries(s: State) {
    forall i, j | Carries(s.sessions, i) && Carries(s.sessions, j) :: i == j
  }

  /** A path is executed on a session that the path handle has let go. */
  predicate ArmsOrphan(s: State, e: Step) {
    e.ArmGoal? && s.pc.Arming? && s.current != Some(s.pc.session)
  }

  /** A goal is armed on a session while another session carries one. */
  ghost predicate ArmsBeside(s: State, e: Step) {
    e.ArmGoal? && s.pc.Arming? && exists j | j != s.pc.session :: Carries(s.sessions, j)
  }

  // ----- the current session is not let go with a goal -----

  /** A step keeps hold of the sessions that still carry a goal after it. */
  ghost predicate KeepsHold(s: State, s': State) {
    forall i | Kept(s, i) && Carries(s'.sessions, i) :: Kept(s', i)
  }

  lemma TaskHolds(s: State, t: nat)
    requires C.Inv(s) && t in s.tasks && InOneStep(s, Advance(t))
    ensures KeepsHold(s, TaskNext(s, t))
  {
    hide Alive, Lock, Verdict, Taken, Invalidate, Own, C.SessionsOk, C.PcOk, C.WpOk, Carries, C.Blank;
    if s.tasks[t].CallingBack? && s.tasks[t].chain.stage.Resetting? {
      assert C.TaskOk(s.tasks[t], s.current, s.sessions);
      BlankCarriesNothing(s.sessions, s.current.value);
    } else {
      TaskKeepsCurrent(s, t);
    }
  }

  lemma BlankCarriesNothing(sessions: seq<Session>, i: SessionId)
    requires C.BlankAt(sessions, i)
    ensures !Carries(sessions, i)
  {
  }

  lemma ExecutorHolds(s: State)
    requires C.Inv(s)
    ensures KeepsHold(s, ExecutorNext(s))
  {
    hide Alive, Lock, Invalidate, Own, C.SessionsOk, C.TasksOk, C.WpOk, Carries, C.Blank, G.Starting;
    match s.pc {
      case Swapped(_, _, previous) =>
        if previous.Some? {
          C.InvalidateKeeps(s, previous.value);
          F.InvalidateShape(s, previous.value);
          BlankCarriesNothing(Invalidate(s, previous.value).sessions, previous.value);
        }
      case Firing(chain) =>
        if chain.stage.Resetting? && s.current.Some? {
          BlankCarriesNothing(s.sessions, s.current.value);
        }
        if chain.stage.Invalidating? {
          F.InvalidateShape(s, Own(chain.callback));
        }
      case StopResetting =>
        if s.current.Some? {
          BlankCarriesNothing(s.sessions, s.current.value);
        }
      case _ => ExecutorKeepsCurrent(s);
    }
  }

  lemma NextHolds(s: State, e: Step)
    requires C.Inv(s) && Enabled(s, e) && InOneStep(s, e)
    ensures KeepsHold(s, Next(s, e))
  {
    hide C.Inv, TaskNext, ExecutorNext, Alive, Lock, Carries, Live;
    match e {
      case Continue => ExecutorHolds(s);
      case Advance(t) => TaskHolds(s, t);
      case _ =>
    }
  }

  lemma OnlyKeptCarryStep(s: State, e: Step)
    requires C.Inv(s) && Enabled(s, e) && InOneStep(s, e) && OnlyKeptCarry(s) && !ArmsOrphan(s, e)
    ensures OnlyKeptCarry(Next(s, e))
  {
    hide C.Inv, InOneStep, Next, Carries;
    NextHolds(s, e);
    if e.ArmGoal? {
      ArmCarries(s, e);
    } else {
      NextDrops(s, e);
    }
  }

  /** Arming gives its session the goal, and no other session any. */
  lemma ArmCarries(s: State, e: Step)
    requires Enabled(s, e) && e.ArmGoal?
    ensures var s' := Next(s, e);
      && (forall i: SessionId | Carries(s'.sessions, i) :: i == s.pc.session || Carries(s.sessions, i))
      && s'.current == s.current && s'.pc.Sending?
      && (s.pc.session < |s.sessions| ==> Carries(s'.sessions, s.pc.session))
  {
    hide Live;
  }

  lemma ArmsInRange(s: State)
    requires G.Inv(s) && s.pc.Arming?
    ensures s.pc.session < |s.sessions|
  {
    hide G.SessionsOk, G.TasksOk, G.IssuesOk, G.CountsOk, G.LogOk, G.RequestsOk;
  }

  lemma OrphanCarries(s: State, e: Step)
    requires G.Inv(s) && Enabled(s, e) && ArmsOrphan(s, e)
    ensures !OnlyKeptCarry(Next(s, e))
  {
    hide G.Inv, Next, Carries;
    ArmsInRange(s);
    ArmCarries(s, e);
    assert Carries(Next(s, e).sessions, s.pc.session);
    assert !Kept(Next(s, e), s.pc.session);
  }

  lemma {:induction false} OnlyKeptCarryIff(assumed: Assumptions, s: State, run: seq<Step>)
    requires assumed.acceptedOnly && assumed.atomicCallbacks && IsRun(assumed, s, run)
    requires G.Inv(s) && G.StatusesOk(s) && C.Inv(s) && OnlyKeptCarry(s)
    ensures Always(assumed, OnlyKeptCarry, s, run) <==> !Sometime(assumed, ArmsOrphan, s, run)
    decreases |run|
  {
    hide G.Inv, G.StatusesOk, C.Inv, Next, OnlyKeptCarry, ArmsOrphan, InOneStep, HonestRobot;
    if run != [] {
      G.HonestKeeps(s, run[0]);
      C.NextKeeps(s, run[0]);
      if ArmsOrphan(s, run[0]) {
        OrphanCarries(s, run[0]);
      } else {
        OnlyKeptCarryStep(s, run[0]);
        OnlyKeptCarryIff(assumed, Next(s, run[0]), run[1..]);
      }
    }
  }

  /**
   * On a run with atomic callbacks, the session that the path handle holds is at all times
   * the only one with a goal, if and only if no path is ever armed on another session.
   */
  lemma OnlyCurrentCarriesIff(assumed: Assumptions, run: seq<Step>)
    requires assumed.acceptedOnly && assumed.atomicCallbacks && IsRun(assumed, INITIAL, run)
    ensures Always(assumed, OnlyKeptCarry, INITIAL, run) <==> !Sometime(assumed, ArmsOrphan, INITIAL, run)
  {
    C.InvStarts();
    OnlyKeptCarryIff(assumed, INITIAL, run);
  }

  /** A path always arms the current session: an orphan can only be armed for a dock or an action. */
  lemma OnlyErrandsArmOrphans(s: State, e: Step)
    requires G.Inv(s) && C.Inv(s) && ArmsOrphan(s, e)
    ensures s.pc.call.owner.Some? ==> s.pc.call.owner.value.Errand?
  {
    hide G.Inv, C.Inv;
    C.PathArmsItself(s);
  }

  // ----- at most one session carries a goal -----

  /** The sessions that the executor and the controller point at exist. */
  predicate InRange(s: State) {
    && (s.wp.Some? ==> s.wp.value < |s.sessions|)
    && match s.pc
       case Swapped(r, _, _) => r < |s.sessions|
       case Superseded(r, _) => r < |s.sessions|
       case Cleared(r, _) => r < |s.sessions|
       case Arming(_, i) => i < |s.sessions|
       case _ => true
  }

  lemma LockInRange(s: State, s': State, call: Call)
    requires InRange(s) && s' == LockSession(s, call)
    ensures InRange(s')
  {
    hide Alive;
  }

  lemma FollowInRange(s: State)
    requires InRange(s) && (s.pc.Swapped? || s.pc.Superseded? || s.pc.Cleared?)
    requires |s.sessions| <= |ExecutorNext(s).sessions|
    ensures InRange(ExecutorNext(s))
  {
    hide Invalidate, At, Put;
    match s.pc {
      case Swapped(_, _, previous) =>
        if previous.Some? {
          F.InvalidateShape(s, previous.value);
        }
      case Superseded(_, _) =>
      case Cleared(_, _) =>
    }
  }

  /** Elsewhere the executor leaves the weak pointer alone, and does not arm. */
  lemma ExecutorKeepsWp(s: State)
    requires !s.pc.Swapped? && !s.pc.Superseded? && !s.pc.Cleared? && !s.pc.Calling? && !s.pc.Arming?
    ensures var s' := ExecutorNext(s);
      s'.wp == s.wp && !s'.pc.Arming? && !s'.pc.Swapped? && !s'.pc.Superseded? && !s'.pc.Cleared?
  {
    hide Invalidate, CancelSession, ChainNext, Answer, Drained, At, Put;
    match s.pc {
      case StopCancelling(i) => F.CancelFrame(s, i);
      case StopInvalidating(i) => F.InvalidateShape(s, i);
      case Cancelling(i) => F.CancelFrame(s, i);
      case Sending(_, _) => AnswerIsElsewhere(s);
      case Firing(chain) => F.ChainFrame(s, chain);
      case Snapshotting(i) => F.PutFrame(s, i, At(s, i).(pending := None));
      case _ =>
    }
  }

  lemma ExecutorInRange(s: State)
    requires InRange(s) && !s.pc.Arming?
    ensures InRange(ExecutorNext(s))
  {
    hide ExecutorNext, NoNewGoals;
    ExecutorDrops(s);
    SizesHold(s.sessions, ExecutorNext(s).sessions);
    match s.pc {
      case Swapped(_, _, _) => FollowInRange(s);
      case Superseded(_, _) => FollowInRange(s);
      case Cleared(_, _) => FollowInRange(s);
      case Calling(call) => LockInRange(s, ExecutorNext(s), call) by { CallingLocks(s); }
      case _ => ExecutorKeepsWp(s);
    }
  }

  lemma CallingLocks(s: State)
    requires s.pc.Calling?
    ensures ExecutorNext(s) == LockSession(s, s.pc.call)
  {
  }

  lemma SizesHold(sessions: seq<Session>, sessions': seq<Session>)
    requires NoNewGoals(sessions, sessions')
    ensures |sessions| <= |sessions'|
  {
  }

  lemma AnswerIsElsewhere(s: State)
    requires s.pc.Sending?
    ensures Answer(s).wp == s.wp && (Answer(s).pc.Idle? || Answer(s).pc.Firing?)
  {
    hide Completion, Begin;
    F.AnswerFrame(s);
  }

  lemma NextInRange(s: State, e: Step)
    requires InRange(s) && Enabled(s, e)
    ensures InRange(Next(s, e))
  {
    hide TaskNext, ExecutorNext, Lock, LockSession, Release, NoNewGoals;
    match e {
      case Continue => ExecutorInRange(s);
      case Advance(t) =>
        F.TaskFrame(s, t);
        TaskDrops(s, t);
        SizesHold(s.sessions, TaskNext(s, t).sessions);
      case ArmGoal(_, _) => ArmInRange(s, e);
      case Execute(owner) => LockInRange(s, LockSession(s, Call(owner, None)), Call(owner, None));
      case _ =>
    }
  }

  lemma ArmInRange(s: State, e: Step)
    requires InRange(s) && Enabled(s, e) && e.ArmGoal?
    ensures InRange(Next(s, e))
  {
    hide Live;
  }

  /** Arming a session beside another that carries a goal makes two; no other step does. */
  lemma AtMostOneStep(s: State, e: Step)
    requires InRange(s) && Enabled(s, e) && AtMostOneCarries(s)
    ensures AtMostOneCarries(Next(s, e)) <==> !ArmsBeside(s, e)
  {
    hide Next, Carries;
    if e.ArmGoal? {
      ArmCarries(s, e);
      ArmKeepsOthers(s, e);
    } else {
      NextDrops(s, e);
    }
  }

  lemma ArmKeepsOthers(s: State, e: Step)
    requires Enabled(s, e) && e.ArmGoal?
    ensures forall j: SessionId | j != s.pc.session && Carries(s.sessions, j) :: Carries(Next(s, e).sessions, j)
  {
    hide Live;
  }

  lemma {:induction false} AtMostOneIffFrom(assumed: Assumptions, s: State, run: seq<Step>)
    requires IsRun(assumed, s, run) && InRange(s) && AtMostOneCarries(s)
    ensures Always(assumed, AtMostOneCarries, s, run) <==> !Sometime(assumed, ArmsBeside, s, run)
    decreases |run|
  {
    hide Next, AtMostOneCarries, ArmsBeside, InRange, InOneStep, HonestRobot;
    if run != [] {
      AtMostOneStep(s, run[0]);
      NextInRange(s, run[0]);
      if !ArmsBeside(s, run[0]) {
        AtMostOneIffFrom(assumed, Next(s, run[0]), run[1..]);
      }
    }
  }

  /**
   * On every run, without any further assumption, at most one session carries a goal at all
   * times if and only if no goal is ever armed while another session carries one.
   */
  lemma AtMostOneCarriesIff(assumed: Assumptions, run: seq<Step>)
    requires IsRun(assumed, INITIAL, run)
    ensures Always(assumed, AtMostOneCarries, INITIAL, run) <==> !Sometime(assumed, ArmsBeside, INITIAL, run)
  {
    AtMostOneIffFrom(assumed, INITIAL, run);
  }

  // ----- and orphans -----

  /** Where only the current session carries, at most one does. */
  lemma AtMostOne(s: State)
    requires G.Inv(s) && C.Inv(s) && OnlyKeptCarry(s)
    ensures AtMostOneCarries(s)
  {
    hide G.IssuesOk, G.TasksOk, G.CountsOk, G.LogOk, G.RequestsOk, C.SessionsOk, C.TasksOk, C.WpOk;
    if s.pc.Swapped? {
      assert G.Starting(s.pc, s.pc.request);
    }
    forall i: SessionId, j: SessionId | Carries(s.sessions, i) && Carries(s.sessions, j) ensures i == j {
      assert G.SessionOk(s.sessions[i], i, s.issued, s.place) && G.SessionOk(s.sessions[j], j, s.issued, s.place);
    }
  }

  lemma {:induction false} OrphansComeFirst(assumed: Assumptions, s: State, run: seq<Step>)
    requires assumed.acceptedOnly && assumed.atomicCallbacks && IsRun(assumed, s, run)
    requires G.Inv(s) && G.StatusesOk(s) && C.Inv(s) && OnlyKeptCarry(s)
    requires !Sometime(assumed, ArmsOrphan, s, run)
    ensures Always(assumed, AtMostOneCarries, s, run)
    decreases |run|
  {
    hide G.Inv, G.StatusesOk, C.Inv, Next, OnlyKeptCarry, AtMostOneCarries, ArmsOrphan, InOneStep, HonestRobot;
    AtMostOne(s);
    if run != [] {
      G.HonestKeeps(s, run[0]);
      C.NextKeeps(s, run[0]);
      OnlyKeptCarryStep(s, run[0]);
      OrphansComeFirst(assumed, Next(s, run[0]), run[1..]);
    }
  }

  /** With both assumptions, a goal is armed beside another only on a run that armed an orphan. */
  lemma BesideOnlyAfterOrphan(assumed: Assumptions, run: seq<Step>)
    requires assumed.acceptedOnly && assumed.atomicCallbacks && IsRun(assumed, INITIAL, run)
    requires Sometime(assumed, ArmsBeside, INITIAL, run)
    ensures Sometime(assumed, ArmsOrphan, INITIAL, run)
  {
    C.InvStarts();
    AtMostOneCarriesIff(assumed, run);
    if !Sometime(assumed, ArmsOrphan, INITIAL, run) {
      OrphansComeFirst(assumed, INITIAL, run);
      assert false;
    }
  }

  /** And then the goal armed, or the one carried beside it, is that of a dock or an action. */
  lemma BesideIsAnErrand(s: State, j: SessionId)
    requires G.Inv(s) && C.Inv(s) && s.pc.Arming? && j != s.pc.session && Carries(s.sessions, j)
    requires s.pc.call.owner.Some? && s.pc.call.owner.value.PathRequest?
    ensures var g := s.sessions[j].goal.value; g in s.issued && !G.OfPath(s.issued[g])
  {
    hide G.IssuesOk, G.TasksOk, G.PcOk, G.CountsOk, G.LogOk, G.RequestsOk, C.PcOk, C.TasksOk, C.WpOk;
    C.PathArmsItself(s);
    assert G.SessionOk(s.sessions[j], j, s.issued, s.place);
  }
}
