/**
 * The session of a live path has the arrival estimators RMF asked for with that path, and
 * keeps them as long as it is live. Assumes acceptedOnly; callbacks need not be atomic.
 */
module ArrivalWiring {
  import opened Common
  import opened NavigationSession
  import opened NavigationProtocol
  import F = ProtocolFrame
  import G = GoalAccounting

  /** Whether RMF wanted arrivals with each path it asked for, in order. */
  function Wanted(run: seq<Step>): seq<bool> {
    if run == [] then []
    else (if run[0].FollowNewPath? then [run[0].wantsArrivals] else []) + Wanted(run[1..])
  }

  function Estimator(wants: bool, i: SessionId): Option<SessionId> {
    if wants then Some(i) else None
  }

  // ----- the invariant -----

  predicate OwnGoalLive(x: Session, i: SessionId, issued: map<Goal, Issue>) {
    Live(x) && x.goal.value in issued && issued[x.goal.value].owner == Some(PathRequest(i))
  }

  predicate SessionOk(x: Session, i: SessionId, issued: map<Goal, Issue>, wants: bool) {
    OwnGoalLive(x, i, issued) ==> x.estimator == x.rmfEstimator == Estimator(wants, i)
  }

  predicate CallOk(call: Call, sessions: seq<Session>, wanted: seq<bool>)
    requires |wanted| == |sessions|
  {
    call.owner.Some? && call.owner.value.PathRequest? ==>
      var r := call.owner.value.session;
      r < |sessions| && call.estimator == sessions[r].rmfEstimator == Estimator(wanted[r], r)
  }

  predicate PcOk(pc: Pc, sessions: seq<Session>, wanted: seq<bool>)
    requires |wanted| == |sessions|
  {
    match pc
    case Swapped(r, wants, _) => r < |wanted| && wants == wanted[r]
    case Superseded(r, wants) => r < |wanted| && wants == wanted[r]
    case Cleared(r, wants) => r < |wanted| && wants == wanted[r]
    case Calling(call) => CallOk(call, sessions, wanted)
    case Arming(call, _) => CallOk(call, sessions, wanted)
    case _ => true
  }

  ghost predicate Inv(s: State, wanted: seq<bool>) {
    && |wanted| == |s.sessions|
    && (forall i | 0 <= i < |s.sessions| :: SessionOk(s.sessions[i], i, s.issued, wanted[i]))
    && PcOk(s.pc, s.sessions, wanted)
  }

  // ----- what a step does to the estimators of a session -----

  predicate SameWires(x: Session, y: Session) {
    y.goal == x.goal && y.estimator == x.estimator && y.rmfEstimator == x.rmfEstimator && (x.done ==> y.done)
  }

  /** The session keeps its goal and its estimators, or has neither any more. */
  predicate Kept(x: Session, y: Session) {
    SameWires(x, y) || y == Invalidated(x)
  }

  ghost predicate AllKept(sessions: seq<Session>, sessions': seq<Session>) {
    |sessions| == |sessions'| && forall i | 0 <= i < |sessions| :: Kept(sessions[i], sessions'[i])
  }

  lemma PutKept(s: State, i: SessionId, y: Session)
    requires Kept(At(s, i), y)
    ensures AllKept(s.sessions, Put(s, i, y).sessions)
  {
  }

  lemma NothingKept(sessions: seq<Session>)
    ensures AllKept(sessions, sessions)
  {
  }

  lemma InvalidateKept(s: State, i: SessionId)
    ensures AllKept(s.sessions, Invalidate(s, i).sessions) && AllKept(s.sessions, CancelSession(s, i).sessions)
  {
    hide Invalidate, CancelSession, Invalidated;
    F.InvalidateShape(s, i);
    CancelInvalidates(s, i);
  }

  lemma ChainKept(s: State, chain: Chain)
    ensures AllKept(s.sessions, ChainNext(s, chain).sessions)
  {
    hide Invalidate, Alive, AllKept, Own;
    NothingKept(s.sessions);
    if chain.stage.Invalidating? {
      InvalidateKept(s, Own(chain.callback));
    }
  }

  lemma TaskKept(s: State, t: nat)
    requires t in s.tasks
    ensures AllKept(s.sessions, TaskNext(s, t).sessions)
  {
    hide ChainNext, Alive, Lock, Verdict, Taken, AllKept;
    NothingKept(s.sessions);
    match s.tasks[t] {
      case CallingBack(_, chain) => ChainKept(s, chain);
      case Matched(i, feedback, _) => PutKept(s, i, At(s, i).(reason := feedback.reason));
      case Targeting(_, feedback, j) => PutKept(s, j, At(s, j).(target := feedback.index));
      case Buffering(_, feedback, j) => PutKept(s, j, At(s, j).(pending := Some(feedback)));
      case Deciding(i, _) => PutKept(s, i, Invalidated(At(s, i)));
      case _ =>
    }
  }

  lemma AnswerKept(s: State)
    requires s.pc.Sending?
    ensures AllKept(s.sessions, Answer(s).sessions)
  {
    hide Live, Completion, AllKept;
    NothingKept(s.sessions);
    PutKept(s, s.pc.session, At(s, s.pc.session).(done := true));
  }

  lemma ExecutorKept(s: State)
    requires !s.pc.Cleared?
    ensures AllKept(s.sessions, ExecutorNext(s).sessions)
  {
    hide Answer, ChainNext, Lock, Drained, AllKept, Invalidate, CancelSession, At;
    NothingKept(s.sessions);
    match s.pc {
      case Swapped(_, _, previous) =>
        if previous.Some? {
          InvalidateKept(s, previous.value);
        }
      case Sending(_, _) => AnswerKept(s);
      case Firing(chain) => ChainKept(s, chain);
      case StopCancelling(i) => InvalidateKept(s, i);
      case StopInvalidating(i) => InvalidateKept(s, i);
      case Cancelling(i) => InvalidateKept(s, i);
      case Snapshotting(i) => PutKept(s, i, At(s, i).(pending := None));
      case _ =>
    }
  }

  // ----- a session that is starting is not touched by callbacks -----

  lemma StartingIsUnused(s: State, r: SessionId)
    requires G.Inv(s) && G.Starting(s.pc, r)
    ensures r < |s.sessions| && s.sessions[r].goal.None? && G.Unused(r, s.issued)
  {
    hide G.IssuesOk, G.TasksOk, G.CountsOk, G.LogOk, G.RequestsOk;
    assert G.SessionOk(s.sessions[r], r, s.issued, s.place);
  }

  /** A callback under way belongs to a session whose goal was issued. */
  lemma ChainIsElsewhere(s: State, t: nat, r: SessionId)
    requires G.Inv(s) && G.Starting(s.pc, r) && t in s.tasks && s.tasks[t].CallingBack?
    requires s.tasks[t].chain.stage.Invalidating?
    ensures Own(s.tasks[t].chain.callback) != r
  {
    hide G.SessionsOk, G.CountsOk, G.LogOk, G.RequestsOk;
    StartingIsUnused(s, r);
    var chain := s.tasks[t].chain;
    assert G.TaskOk(s.tasks[t], t, s.issued, s.place);
    assert G.IssueOk(s.issued[chain.goal.value], |s.sessions|);
  }

  lemma TaskSpares(s: State, t: nat, r: SessionId)
    requires G.Inv(s) && G.Starting(s.pc, r) && t in s.tasks && r < |s.sessions|
    ensures |TaskNext(s, t).sessions| == |s.sessions|
    ensures TaskNext(s, t).sessions[r].rmfEstimator == s.sessions[r].rmfEstimator
  {
    StartingIsUnused(s, r);
    TaskKept(s, t);
    if s.tasks[t].CallingBack? && s.tasks[t].chain.stage.Invalidating? {
      ChainIsElsewhere(s, t, r);
    }
    hide G.Inv, G.Starting, G.Unused, AllKept;
    SparedUnless(s, t, r);
  }

  lemma SparedUnless(s: State, t: nat, r: SessionId)
    requires t in s.tasks && r < |s.sessions| && s.sessions[r].goal.None?
    requires s.tasks[t].CallingBack? && s.tasks[t].chain.stage.Invalidating? ==> Own(s.tasks[t].chain.callback) != r
    ensures r < |TaskNext(s, t).sessions| && TaskNext(s, t).sessions[r].rmfEstimator == s.sessions[r].rmfEstimator
  {
    hide Alive, Lock, ChainNext, Decide;
    match s.tasks[t] {
      case CallingBack(_, chain) => ChainSpares(s, chain, r);
      case Deciding(i, statuses) => DecideSpares(s, t, i, statuses, r);
      case _ =>
    }
  }

  lemma ChainSpares(s: State, chain: Chain, r: SessionId)
    requires r < |s.sessions| && (chain.stage.Invalidating? ==> Own(chain.callback) != r)
    ensures var s' := ChainNext(s, chain); r < |s'.sessions| && s'.sessions[r] == s.sessions[r]
  {
    hide Alive, Own, Invalidate;
    if chain.stage.Invalidating? {
      F.InvalidateShape(s, Own(chain.callback));
    }
  }

  lemma DecideSpares(s: State, t: nat, i: SessionId, statuses: seq<Status>, r: SessionId)
    requires r < |s.sessions| && s.sessions[r].goal.None?
    ensures var s' := Decide(s, t, i, statuses); r < |s'.sessions| && s'.sessions[r] == s.sessions[r]
  {
    hide Taken, FirstAbout;
  }

  // ----- the steps -----

  lemma SessionsKeep(s: State, s': State, wanted: seq<bool>)
    requires |wanted| == |s.sessions| && AllKept(s.sessions, s'.sessions) && s'.issued == s.issued
    requires forall i | 0 <= i < |s.sessions| :: SessionOk(s.sessions[i], i, s.issued, wanted[i])
    ensures forall i | 0 <= i < |s'.sessions| :: SessionOk(s'.sessions[i], i, s'.issued, wanted[i])
  {
    forall i | 0 <= i < |s'.sessions| ensures SessionOk(s'.sessions[i], i, s'.issued, wanted[i]) {
      assert SessionOk(s.sessions[i], i, s.issued, wanted[i]) && Kept(s.sessions[i], s'.sessions[i]);
    }
  }

  lemma TaskKeeps(s: State, t: nat, wanted: seq<bool>)
    requires G.Inv(s) && Inv(s, wanted) && t in s.tasks
    ensures Inv(TaskNext(s, t), wanted)
  {
    hide G.Inv, TaskNext, SessionOk;
    F.TaskFrame(s, t);
    TaskKept(s, t);
    SessionsKeep(s, TaskNext(s, t), wanted);
    if s.pc.Calling? || s.pc.Arming? {
      var owner := s.pc.call.owner;
      if owner.Some? && owner.value.PathRequest? {
        TaskSpares(s, t, owner.value.session);
      }
    }
  }

  lemma ClearedKeeps(s: State, wanted: seq<bool>)
    requires G.Inv(s) && Inv(s, wanted) && s.pc.Cleared?
    ensures Inv(ExecutorNext(s), wanted)
  {
    hide G.Inv;
    StartingIsUnused(s, s.pc.request);
  }

  /** Outside a new path, the executor never starts one. */
  lemma ExecutorMoves(s: State)
    requires !s.pc.Swapped? && !s.pc.Superseded? && !s.pc.Cleared? && !s.pc.Calling? && !s.pc.Arming?
    ensures var pc := ExecutorNext(s).pc;
      !pc.Swapped? && !pc.Superseded? && !pc.Cleared? && !pc.Calling? && !pc.Arming?
  {
    hide Invalidate, CancelSession, ChainNext, Answer, Lock, Drained, Put, At;
    if s.pc.Sending? {
      F.AnswerEnds(s);
    }
  }

  lemma ExecutorKeeps(s: State, wanted: seq<bool>)
    requires G.Inv(s) && Inv(s, wanted) && !s.pc.Idle? && !s.pc.Arming?
    ensures Inv(ExecutorNext(s), wanted)
  {
    hide G.Inv, SessionOk, AllKept, Lock, Alive, Invalidate, ChainNext, Answer, CancelSession;
    if s.pc.Cleared? {
      ClearedKeeps(s, wanted);
    } else {
      F.ExecutorFrame(s);
      ExecutorKept(s);
      SessionsKeep(s, ExecutorNext(s), wanted);
      SameLength(s.sessions, ExecutorNext(s).sessions);
      if s.pc.Swapped? || s.pc.Superseded? || s.pc.Calling? {
        PcAdvances(s, wanted);
      } else {
        hide ExecutorNext;
        ExecutorMoves(s);
      }
    }
  }

  lemma SameLength(sessions: seq<Session>, sessions': seq<Session>)
    requires AllKept(sessions, sessions')
    ensures |sessions| == |sessions'|
  {
  }

  lemma PcAdvances(s: State, wanted: seq<bool>)
    requires |wanted| == |s.sessions| == |ExecutorNext(s).sessions| && PcOk(s.pc, s.sessions, wanted)
    requires s.pc.Swapped? || s.pc.Superseded? || s.pc.Calling?
    ensures PcOk(ExecutorNext(s).pc, ExecutorNext(s).sessions, wanted)
  {
    hide Invalidate, Alive;
  }

  lemma ArmKeeps(s: State, goal: Goal, accepted: bool, wanted: seq<bool>)
    requires G.Inv(s) && Inv(s, wanted) && s.pc.Arming? && goal !in s.issued
    ensures Inv(Arm(s, goal, accepted), wanted)
  {
    hide G.IssuesOk, G.TasksOk, G.CountsOk, G.LogOk, G.RequestsOk, G.Unused;
    var (s', i) := (Arm(s, goal, accepted), s.pc.session);
    forall j | 0 <= j < |s'.sessions| ensures SessionOk(s'.sessions[j], j, s'.issued, wanted[j]) {
      assert SessionOk(s.sessions[j], j, s.issued, wanted[j]);
      assert G.SessionOk(s.sessions[j], j, s.issued, s.place);
    }
  }

  lemma NextKeeps(s: State, e: Step, wanted: seq<bool>)
    requires G.Inv(s) && Inv(s, wanted) && Enabled(s, e)
    ensures Inv(Next(s, e), wanted + if e.FollowNewPath? then [e.wantsArrivals] else [])
  {
    hide G.Inv, TaskNext, ExecutorNext, Arm, Alive, Lock;
    assert wanted + [] == wanted;
    match e {
      case Continue => ExecutorKeeps(s, wanted);
      case Advance(t) => TaskKeeps(s, t, wanted);
      case ArmGoal(goal, accepted) => ArmKeeps(s, goal, accepted, wanted);
      case _ =>
    }
  }

  lemma {:induction false} InvHolds(assumed: Assumptions, s: State, run: seq<Step>, wanted: seq<bool>)
    requires IsRun(assumed, s, run) && !Sometime(assumed, G.Redecides, s, run) && G.Inv(s) && Inv(s, wanted)
    ensures Inv(Final(assumed, s, run), wanted + Wanted(run)) && G.Inv(Final(assumed, s, run))
    decreases |run|
  {
    hide G.Inv, Inv, Next, InOneStep, HonestRobot, G.Redecides;
    if run == [] {
      assert wanted + [] == wanted;
    } else {
      var e := run[0];
      var wanted' := wanted + if e.FollowNewPath? then [e.wantsArrivals] else [];
      NextKeeps(s, e, wanted);
      G.NextKeeps(s, e);
      InvHolds(assumed, Next(s, e), run[1..], wanted');
      assert wanted' + Wanted(run[1..]) == wanted + Wanted(run);
    }
  }

  /**
   * On every run on which no status decides a rejected goal, and so with an honest robot,
   * the session of a live path has the arrival estimators that RMF wanted with that path.
   */
  lemma ArrivalsAreWired(assumed: Assumptions, run: seq<Step>, i: SessionId)
    requires IsRun(assumed, INITIAL, run) && (assumed.acceptedOnly || !Sometime(assumed, G.Redecides, INITIAL, run))
    requires var s := Final(assumed, INITIAL, run); i < |s.sessions| && OwnGoalLive(s.sessions[i], i, s.issued)
    ensures i < |Wanted(run)|
    ensures var x := Final(assumed, INITIAL, run).sessions[i];
      x.estimator == x.rmfEstimator == if Wanted(run)[i] then Some(i) else None
  {
    hide G.Inv, Next, G.Redecides, OwnGoalLive, Sometime;
    if assumed.acceptedOnly {
      G.InvHolds(assumed, run);
    }
    G.InvStarts();
    assert Inv(INITIAL, []);
    InvHolds(assumed, INITIAL, run, []);
    assert [] + Wanted(run) == Wanted(run);
  }
}
