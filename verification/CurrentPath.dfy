/**
 * A path that is live is the one the path handle holds, so that the controller can still
 * find it and resolve it. Assumes acceptedOnly and atomicCallbacks.
 */
module CurrentPath {
  import opened Common
  import opened NavigationSession
  import opened NavigationProtocol
  import F = ProtocolFrame
  import G = GoalAccounting

  // ----- the invariant -----

  /** Nothing is left in the session. */
  predicate Blank(x: Session) {
    x.goal.None? && x.completion.None? && x.failure.None?
  }

  /** Nothing is left in the session that could clear the current one. */
  predicate Spent(x: Session) {
    x.failure.None? && (x.completion.Some? ==> x.completion.value.Errand?)
  }

  predicate SessionsOk(sessions: seq<Session>, current: Option<SessionId>, pc: Pc) {
    forall i | 0 <= i < |sessions| ::
      current == Some(i) || (pc.Swapped? && pc.previous == Some(i)) || Spent(sessions[i])
  }

  /** The callback may clear the current session: it has not done so yet. */
  predicate Clearing(chain: Chain) {
    !chain.stage.Finishing?
  }

  predicate BlankAt(sessions: seq<Session>, i: SessionId) {
    i < |sessions| ==> Blank(sessions[i])
  }

  ghost predicate PcOk(pc: Pc, current: Option<SessionId>, held: set<SessionId>, sessions: seq<Session>) {
    && (forall r: SessionId | G.Starting(pc, r) :: current == Some(r))
    && match pc
       case Arming(_, i) => i in held
       case Sending(i, _) => i in held
       case Firing(chain) =>
         && chain.callback.Complete?
         && (Clearing(chain) ==>
           var own := Own(chain.callback);
           && own in held && (current.Some? ==> current == Some(own))
           && (chain.stage.Resetting? ==> BlankAt(sessions, own)))
       case StopInvalidating(i) => current.Some? ==> current == Some(i)
       case StopResetting => current.Some? ==> BlankAt(sessions, current.value)
       case _ => true
  }

  predicate TaskOk(task: Task, current: Option<SessionId>, sessions: seq<Session>) {
    task.CallingBack? && Clearing(task.chain) ==>
      current == Some(Own(task.chain.callback)) && BlankAt(sessions, Own(task.chain.callback))
  }

  ghost predicate TasksOk(tasks: map<nat, Task>, current: Option<SessionId>, sessions: seq<Session>) {
    && (forall t | t in tasks :: TaskOk(tasks[t], current, sessions))
    && (forall t, u | t in tasks && u in tasks && tasks[t].CallingBack? && tasks[u].CallingBack? :: t == u)
  }

  /** The controller points at the current session, once a new path has shown it to it. */
  predicate WpOk(current: Option<SessionId>, wp: Option<SessionId>, pc: Pc) {
    current.Some? ==>
      wp == current || ((pc.Swapped? || pc.Superseded? || pc.Cleared?) && pc.request == current.value)
  }

  ghost predicate Inv(s: State) {
    && SessionsOk(s.sessions, s.current, s.pc)
    && PcOk(s.pc, s.current, s.held, s.sessions)
    && TasksOk(s.tasks, s.current, s.sessions)
    && WpOk(s.current, s.wp, s.pc)
  }

  /** No callback is under way in a Zenoh thread. */
  ghost predicate Quiet(tasks: map<nat, Task>) {
    forall t | t in tasks :: !tasks[t].CallingBack?
  }

  // ----- steps on one session -----

  /** A session loses what it had, or keeps what could clear the current one. */
  predicate Weakens(x: Session, y: Session) {
    (Spent(x) ==> Spent(y)) && (Blank(x) ==> Blank(y))
  }

  lemma StoreKeeps(s: State, i: SessionId, y: Session)
    requires Inv(s) && Weakens(At(s, i), y)
    ensures Inv(Put(s, i, y))
  {
    hide G.Starting, Own;
  }

  lemma InvalidateKeeps(s: State, i: SessionId)
    requires Inv(s)
    ensures Inv(Invalidate(s, i)) && BlankAt(Invalidate(s, i).sessions, i)
  {
    hide Inv, Live;
    F.InvalidateShape(s, i);
    StoreKeeps(s, i, Invalidated(At(s, i)));
    SameInv(Put(s, i, Invalidated(At(s, i))), Invalidate(s, i));
  }

  /** The log, the goals and the flag play no part here. */
  lemma SameInv(s: State, s': State)
    requires Inv(s)
    requires s'.sessions == s.sessions && s'.pc == s.pc && s'.current == s.current && s'.wp == s.wp
    requires s'.held == s.held && s'.tasks == s.tasks
    ensures Inv(s')
  {
    hide SessionsOk, PcOk, TasksOk, WpOk;
  }

  // ----- Zenoh callbacks -----

  lemma SetTask(s: State, t: nat, task: Task)
    requires Inv(s) && !task.CallingBack?
    ensures Inv(s.(tasks := s.tasks[t := task]))
  {
    hide SessionsOk, PcOk, WpOk;
  }

  lemma EndKeeps(s: State, t: nat)
    requires Inv(s)
    ensures Inv(End(s, t))
  {
    hide SessionsOk, PcOk, WpOk, TaskOk;
  }

  lemma FeedbackKeeps(s: State, t: nat)
    requires Inv(s) && t in s.tasks && !s.tasks[t].Deciding? && !s.tasks[t].CallingBack?
    ensures Inv(TaskNext(s, t))
  {
    hide Inv, Lock, Alive;
    EndKeeps(s, t);
    match s.tasks[t] {
      case GotFeedback(feedback) =>
        if Lock(s).Some? {
          SetTask(s, t, Checking(Lock(s).value, feedback));
        }
      case GotStatus(statuses) =>
        if Lock(s).Some? {
          SetTask(s, t, Deciding(Lock(s).value, statuses));
        }
      case Checking(i, feedback) => SetTask(s, t, Copying(i, feedback));
      case Copying(i, feedback) => SetTask(s, t, Matched(i, feedback, At(s, i).estimator));
      case Matched(i, feedback, estimator) =>
        var x := At(s, i).(reason := feedback.reason);
        StoreKeeps(s, i, x);
        EndKeeps(Put(s, i, x), t);
        if estimator.Some? {
          SetTask(Put(s, i, x), t, Entering(i, feedback, estimator.value));
        }
      case Entering(i, feedback, j) => SetTask(s, t, Targeting(i, feedback, j));
      case Targeting(i, feedback, j) =>
        var x := At(s, j).(target := feedback.index);
        StoreKeeps(s, j, x);
        SetTask(Put(s, j, x), t, Buffering(i, feedback, j));
      case Buffering(i, feedback, j) =>
        var x := At(s, j).(pending := Some(feedback));
        StoreKeeps(s, j, x);
        EndKeeps(Put(s, j, x), t);
    }
  }

  /** What a session holds is its own. */
  lemma SessionIsOwn(s: State, i: SessionId)
    requires G.Inv(s)
    ensures var x := At(s, i);
      && (x.failure.Some? ==> x.failure == Some(i))
      && (x.completion.Some? && x.completion.value.PathRequest? ==> x.completion.value.session == i)
      && (x.completion.Some? ==> x.goal.Some?)
  {
    hide G.TasksOk, G.PcOk, G.CountsOk, G.LogOk, G.RequestsOk;
    var x := At(s, i);
    if i < |s.sessions| {
      assert G.SessionOk(x, i, s.issued, s.place);
      if x.goal.Some? {
        assert G.IssueOk(s.issued[x.goal.value], |s.sessions|);
      }
    }
  }

  /** Only the current session still has a callback that could clear it. */
  lemma ClearsItsOwn(s: State, i: SessionId, callback: Callback)
    requires G.Inv(s) && Inv(s) && !s.pc.Swapped?
    requires Some(callback) == Completion(At(s, i)) || Some(callback) == NavigationSession.Failure(At(s, i))
    ensures Clearing(Begin(callback, At(s, i).goal)) ==> s.current == Some(i) && Own(callback) == i
  {
    hide G.Inv, PcOk, WpOk, TasksOk;
    SessionIsOwn(s, i);
  }

  lemma DecideKeeps(s: State, t: nat, i: SessionId, statuses: seq<Status>)
    requires G.Inv(s) && Inv(s) && Quiet(s.tasks) && !s.pc.Swapped?
    ensures Inv(Decide(s, t, i, statuses))
  {
    hide Inv, G.Inv, Own, Clearing, Live, FirstAbout;
    var x := At(s, i);
    EndKeeps(s, t);
    if Verdict(x, statuses).Some? {
      var callback := Taken(x, statuses);
      var y := Invalidated(x);
      var s1 := Put(s, i, y);
      StoreKeeps(s, i, y);
      PutBlank(s, i, y);
      EndKeeps(s1, t);
      SameInv(End(s1, t), End(Put(Commit(s, callback, x.goal.value, InTask(t)), i, y), t));
      if callback.Some? {
        var task := CallingBack(i, Begin(callback.value, x.goal));
        ClearsItsOwn(s, i, callback.value);
        TakeCallback(s1, t, i, task.chain);
        SameInv(s1.(tasks := s1.tasks[t := task]), Decide(s, t, i, statuses));
      }
    }
  }

  lemma PutBlank(s: State, i: SessionId, y: Session)
    requires Blank(y)
    ensures BlankAt(Put(s, i, y).sessions, i)
  {
  }

  lemma TakeCallback(s: State, t: nat, i: SessionId, chain: Chain)
    requires Inv(s) && Quiet(s.tasks) && BlankAt(s.sessions, i)
    requires Clearing(chain) ==> s.current == Some(i) && Own(chain.callback) == i
    ensures Inv(s.(tasks := s.tasks[t := CallingBack(i, chain)]))
  {
    hide SessionsOk, PcOk, WpOk, Own;
  }

  lemma CallbackKeeps(s: State, t: nat)
    requires G.Inv(s) && Inv(s) && t in s.tasks && s.tasks[t].CallingBack? && !s.pc.Swapped?
    ensures Inv(TaskNext(s, t))
  {
    hide G.Inv, Inv, Alive, Own, Invalidate;
    var (i, chain) := (s.tasks[t].session, s.tasks[t].chain);
    match chain.stage {
      case Invalidating =>
        var own := Own(chain.callback);
        F.InvalidateShape(s, own);
        InvalidateKeeps(s, own);
        NextStage(s, t);
        NextStage(Invalidate(s, own), t);
      case Resetting =>
        CallbackIsBusy(s, t);
        ClearedByTask(s, t);
      case Finishing =>
        EndKeeps(s, t);
        SameInv(End(s, t), TaskNext(s, t));
    }
  }

  lemma CallbackIsBusy(s: State, t: nat)
    requires G.Inv(s) && t in s.tasks && s.tasks[t].CallingBack? && Clearing(s.tasks[t].chain)
    ensures !G.Starting(s.pc, Own(s.tasks[t].chain.callback))
  {
    hide G.IssuesOk, G.SessionsOk, G.PcOk, G.CountsOk, G.LogOk, G.RequestsOk, G.ChainOk, Own;
    assert G.TaskOk(s.tasks[t], t, s.issued, s.place);
    G.ChainIsBusy(s, s.tasks[t].chain, InTask(t));
  }

  lemma NextStage(s: State, t: nat)
    requires Inv(s) && t in s.tasks && s.tasks[t].CallingBack? && s.tasks[t].chain.stage.Invalidating?
    ensures var chain := s.tasks[t].chain;
      Inv(s.(tasks := s.tasks[t := CallingBack(s.tasks[t].session, chain.(stage := After(chain.stage)))]))
  {
    hide SessionsOk, PcOk, WpOk, Own;
    assert TaskOk(s.tasks[t], s.current, s.sessions);
  }

  /** The callback of the current session clears it. */
  lemma ClearedByTask(s: State, t: nat)
    requires Inv(s) && t in s.tasks && s.tasks[t].CallingBack? && s.tasks[t].chain.stage.Resetting?
    requires !G.Starting(s.pc, Own(s.tasks[t].chain.callback))
    ensures var chain := s.tasks[t].chain;
      Inv(s.(current := None, tasks := s.tasks[t := CallingBack(s.tasks[t].session, chain.(stage := Finishing))]))
  {
    hide Own, G.Starting;
    assert TaskOk(s.tasks[t], s.current, s.sessions);
  }

  lemma TaskKeeps(s: State, t: nat)
    requires G.Inv(s) && Inv(s) && t in s.tasks && InOneStep(s, Advance(t))
    ensures Inv(TaskNext(s, t))
  {
    hide G.Inv, Inv, Decide;
    match s.tasks[t] {
      case Deciding(i, statuses) => DecideKeeps(s, t, i, statuses);
      case CallingBack(_, _) => CallbackKeeps(s, t);
      case _ => FeedbackKeeps(s, t);
    }
  }

  // ----- the RMF executor -----

  lemma Move(s: State, pc: Pc, held: set<SessionId>)
    requires Inv(s) && !s.pc.Swapped? && !pc.Swapped?
    requires PcOk(pc, s.current, held, s.sessions) && WpOk(s.current, s.wp, pc)
    ensures Inv(s.(pc := pc, held := held))
  {
    hide PcOk, TasksOk, WpOk, Spent;
  }

  lemma ReturnKeeps(s: State)
    requires Inv(s) && !s.pc.Swapped? && !s.pc.Superseded? && !s.pc.Cleared?
    ensures Inv(Return(s))
  {
    hide PcOk, TasksOk, SessionsOk;
    Move(s, Idle, {}) by {
      IdleOk(s);
    }
  }

  lemma IdleOk(s: State)
    ensures PcOk(Idle, s.current, {}, s.sessions)
  {
  }

  /** The old session has been invalidated. */
  lemma LeaveSwap(s: State, pc: Pc, held: set<SessionId>)
    requires Inv(s) && s.pc.Swapped? && (s.pc.previous.Some? ==> BlankAt(s.sessions, s.pc.previous.value))
    requires pc.Superseded? && pc.request == s.pc.request
    ensures Inv(s.(pc := pc, held := held))
  {
    hide TasksOk;
    assert forall r: SessionId :: G.Starting(s.pc, r) <==> G.Starting(pc, r);
  }

  /** While no callback is under way, a session may change that could not clear another. */
  lemma Replace(s: State, i: SessionId, y: Session)
    requires Inv(s) && Quiet(s.tasks) && (s.pc.Cleared? || s.pc.Arming?)
    requires s.current == Some(i) || Weakens(At(s, i), y) || Spent(y)
    ensures Inv(Put(s, i, y))
  {
    hide Own;
  }

  /** The current session may be let go once nothing is left in it. */
  lemma ClearCurrent(s: State)
    requires Inv(s) && Quiet(s.tasks) && (s.pc.Firing? || s.pc.StopResetting?)
    requires s.current.Some? ==> BlankAt(s.sessions, s.current.value)
    ensures Inv(s.(current := None))
  {
    hide Own;
  }

  lemma FollowKeeps(s: State)
    requires Inv(s) && Quiet(s.tasks) && (s.pc.Swapped? || s.pc.Superseded? || s.pc.Cleared?)
    ensures Inv(ExecutorNext(s))
  {
    hide TasksOk, SessionsOk, Own, Invalidate;
    assert G.Starting(s.pc, s.pc.request);
    match s.pc {
      case Swapped(n, wants, previous) =>
        if previous.Some? {
          InvalidateKeeps(s, previous.value);
          F.InvalidateShape(s, previous.value);
          LeaveSwap(Invalidate(s, previous.value), Superseded(n, wants), {n});
        } else {
          LeaveSwap(s, Superseded(n, wants), {n});
        }
      case Superseded(n, wants) =>
        Move(s, Cleared(n, wants), s.held);
        SameInv(s.(pc := Cleared(n, wants)), ExecutorNext(s));
      case Cleared(n, wants) =>
        var estimator := if wants then Some(n) else None;
        var y := At(s, n).(rmfEstimator := estimator, failure := Some(n));
        Replace(s, n, y);
        Announce(Put(s, n, y), n, Call(Some(PathRequest(n)), estimator));
    }
  }

  lemma Announce(s: State, n: SessionId, call: Call)
    requires Inv(s) && s.pc.Cleared? && s.pc.request == n && call.owner == Some(PathRequest(n))
    ensures Inv(s.(wp := Some(n), pc := Calling(call)))
  {
    hide TasksOk, Spent;
    assert G.Starting(s.pc, n);
  }

  /** A path finds its own session in the controller. */
  lemma PathFindsItself(s: State)
    requires G.Inv(s) && s.pc.Calling?
    ensures s.pc.call.owner.Some? && s.pc.call.owner.value.PathRequest? && Lock(s) == Some(s.pc.call.owner.value.session)
  {
    hide G.IssuesOk, G.SessionsOk, G.TasksOk, G.CountsOk, G.LogOk, G.RequestsOk, G.Unused;
    assert G.Starting(s.pc, s.pc.call.owner.value.session);
  }

  lemma LockKeeps(s: State, call: Call)
    requires G.Inv(s) && Inv(s)
    requires (s.pc.Calling? && s.pc.call == call)
          || (s.pc.Idle? && (call.owner.Some? ==> call.owner.value.Errand?))
    ensures Inv(LockSession(s, call))
  {
    hide G.Inv, TasksOk, SessionsOk, Own, Lock;
    if s.pc.Calling? {
      PathFindsItself(s);
      assert G.Starting(s.pc, call.owner.value.session);
    }
    var session := Lock(s);
    if session.Some? {
      Move(s, Arming(call, session.value), s.held + {session.value});
    } else if call.owner.Some? {
      Move(s, Firing(Begin(Complete(call.owner.value), None)), s.held);
    } else {
      ReturnKeeps(s);
    }
  }

  lemma ArmKeeps(s: State, goal: Goal, accepted: bool)
    requires G.Inv(s) && Inv(s) && s.pc.Arming? && Quiet(s.tasks)
    ensures Inv(Arm(s, goal, accepted))
  {
    hide G.Inv, SessionsOk, PcOk, TasksOk, WpOk, Own, Live;
    var (call, i) := (s.pc.call, s.pc.session);
    PathArmsItself(s);
    var y := Armed(At(s, i), goal, call.owner, call.estimator);
    ArmReplaces(s, goal);
    ArmMoves(Put(s, i, y), goal);
    SameInv(Put(s, i, y).(pc := Sending(i, goal)), Arm(s, goal, accepted));
  }

  lemma ArmReplaces(s: State, goal: Goal)
    requires G.Inv(s) && Inv(s) && s.pc.Arming? && Quiet(s.tasks)
    ensures Inv(Put(s, s.pc.session, Armed(At(s, s.pc.session), goal, s.pc.call.owner, s.pc.call.estimator)))
  {
    hide G.Inv, PcOk, TasksOk, WpOk, Own;
    PathArmsItself(s);
    var i := s.pc.session;
    Replace(s, i, Armed(At(s, i), goal, s.pc.call.owner, s.pc.call.estimator));
  }

  lemma ArmMoves(s: State, goal: Goal)
    requires Inv(s) && s.pc.Arming?
    ensures Inv(s.(pc := Sending(s.pc.session, goal)))
  {
    hide SessionsOk, TasksOk;
    Move(s, Sending(s.pc.session, goal), s.held);
  }

  lemma PathArmsItself(s: State)
    requires G.Inv(s) && Inv(s) && s.pc.Arming?
    ensures var owner := s.pc.call.owner;
      owner.Some? && owner.value.PathRequest? ==>
        owner.value.session == s.pc.session && s.current == Some(s.pc.session)
  {
    hide G.IssuesOk, G.SessionsOk, G.TasksOk, G.CountsOk, G.LogOk, G.RequestsOk, SessionsOk, TasksOk;
    var owner := s.pc.call.owner;
    if owner.Some? && owner.value.PathRequest? {
      assert G.Starting(s.pc, owner.value.session);
    }
  }

  lemma AnswerKeeps(s: State)
    requires G.Inv(s) && Inv(s) && s.pc.Sending?
    ensures Inv(NavigationProtocol.Answer(s))
  {
    hide G.Inv, Inv, Own, Begin;
    var i := s.pc.session;
    var x := At(s, i);
    var s1 := Put(s, i, x.(done := true));
    ReturnKeeps(s);
    if !(s.pc.goal in s.issued && s.issued[s.pc.goal].accepted) {
      StoreKeeps(s, i, x.(done := true));
      if Completion(x).Some? {
        RejectFires(s, s1);
        SameInv(s1.(pc := Firing(Begin(Completion(x).value, x.goal))), NavigationProtocol.Answer(s));
      } else {
        ReturnKeeps(s1);
        SameInv(Return(s1), NavigationProtocol.Answer(s));
      }
    }
  }

  lemma RejectFires(s: State, s1: State)
    requires G.Inv(s) && Inv(s) && s.pc.Sending? && Completion(At(s, s.pc.session)).Some?
    requires s1 == Put(s, s.pc.session, At(s, s.pc.session).(done := true)) && Inv(s1)
    ensures Inv(s1.(pc := Firing(Begin(Completion(At(s, s.pc.session)).value, At(s, s.pc.session).goal))))
  {
    hide G.Inv, TasksOk;
    var i := s.pc.session;
    var callback := Completion(At(s, i)).value;
    ClearsItsOwn(s, i, callback);
    Move(s1, Firing(Begin(callback, At(s, i).goal)), s1.held);
  }

  lemma FiringKeeps(s: State)
    requires Inv(s) && s.pc.Firing? && Quiet(s.tasks)
    ensures Inv(ExecutorNext(s))
  {
    hide SessionsOk, TasksOk, Own, Invalidate;
    var chain := s.pc.chain;
    match chain.stage {
      case Invalidating =>
        var own := Own(chain.callback);
        InvalidateKeeps(s, own);
        F.InvalidateShape(s, own);
        assert Alive(s, own);
        Move(Invalidate(s, own), Firing(chain.(stage := Resetting)), s.held);
      case Resetting =>
        ClearCurrent(s);
        Move(s.(current := None), Firing(chain.(stage := Finishing)), s.held);
      case Finishing =>
        ReturnKeeps(s);
        SameInv(Return(s), ExecutorNext(s));
    }
  }

  lemma StoppingKeeps(s: State)
    requires Inv(s) && Quiet(s.tasks)
    requires s.pc.StopReading? || s.pc.StopInvalidating? || s.pc.StopResetting?
    ensures Inv(ExecutorNext(s))
  {
    hide SessionsOk, TasksOk, Own, Invalidate;
    match s.pc {
      case StopReading =>
        if s.current.Some? {
          Move(s, StopInvalidating(s.current.value), {s.current.value});
        } else {
          Move(s, StopResetting, s.held);
        }
      case StopInvalidating(i) =>
        InvalidateKeeps(s, i);
        F.InvalidateShape(s, i);
        Move(Invalidate(s, i), StopResetting, s.held);
      case StopResetting =>
        ClearCurrent(s);
        Move(s.(current := None), StopClearing, s.held);
    }
  }

  lemma RestingKeeps(s: State)
    requires Inv(s) && Quiet(s.tasks) && G.Resting(s.pc)
    ensures Inv(ExecutorNext(s))
  {
    hide Inv, Invalidate, CancelSession;
    ReturnKeeps(s);
    match s.pc {
      case StopReading => StoppingKeeps(s);
      case StopInvalidating(_) => StoppingKeeps(s);
      case StopResetting => StoppingKeeps(s);
      case Idle =>
      case StopCancelling(i) =>
        InvalidateKeeps(s, i);
        CancelInvalidates(s, i);
        F.CancelFrame(s, i);
        Pause(CancelSession(s, i), StopReading, {});
      case StopClearing => SameInv(Return(s), ExecutorNext(s));
      case Cancelling(i) =>
        InvalidateKeeps(s, i);
        CancelInvalidates(s, i);
        F.CancelFrame(s, i);
        ReturnKeeps(CancelSession(s, i));
      case Draining(i) => Pause(s, Snapshotting(i), s.held);
      case Snapshotting(i) =>
        var taken := Drained(At(s, i));
        if taken.Some? {
          var x := At(s, i).(pending := None);
          StoreKeeps(s, i, x);
          Pause(Put(s, i, x), Estimating(taken.value.0, taken.value.1), s.held);
        }
      case Estimating(request, feedback) => SameInv(Return(s), ExecutorNext(s));
    }
  }

  /** To a point that relies on nothing. */
  lemma Pause(s: State, pc: Pc, held: set<SessionId>)
    requires Inv(s) && G.Resting(s.pc)
    requires pc.StopReading? || pc.StopCancelling? || pc.Cancelling? || pc.Draining? || pc.Snapshotting? || pc.Estimating?
    ensures Inv(s.(pc := pc, held := held))
  {
    hide SessionsOk, TasksOk;
    Move(s, pc, held);
  }

  lemma ExecutorKeeps(s: State)
    requires G.Inv(s) && Inv(s) && Quiet(s.tasks)
    ensures Inv(ExecutorNext(s))
  {
    hide G.Inv, Inv, Alive, Lock;
    match s.pc {
      case Swapped(_, _, _) => FollowKeeps(s);
      case Superseded(_, _) => FollowKeeps(s);
      case Cleared(_, _) => FollowKeeps(s);
      case Calling(call) => LockKeeps(s, call);
      case Arming(_, _) =>
      case Sending(_, _) => AnswerKeeps(s);
      case Firing(_) => FiringKeeps(s);
      case _ => RestingKeeps(s);
    }
  }

  lemma FollowBegins(s: State, wants: bool)
    requires Inv(s) && s.pc.Idle? && Quiet(s.tasks)
    ensures Inv(Next(s, FollowNewPath(wants)))
  {
    hide Own;
  }

  lemma BeginKeeps(s: State, e: Step)
    requires G.Inv(s) && Inv(s) && Enabled(s, e) && s.pc.Idle? && Quiet(s.tasks)
    requires e.FollowNewPath? || e.Stop? || e.Cancel? || e.Drain? || e.Execute? || e.TakeFailure?
    ensures Inv(Next(s, e))
  {
    hide G.Inv, Inv, Alive, Lock;
    match e {
      case FollowNewPath(wants) => FollowBegins(s, wants);
      case Execute(owner) => LockKeeps(s, Call(owner, None));
      case Stop =>
        Pause(s, StopReading, s.held);
        SameInv(s.(pc := StopReading), s.(pc := StopReading, log := s.log + [Stopped]));
        if Lock(s).Some? {
          var i := Lock(s).value;
          Pause(s, StopCancelling(i), {i});
          SameInv(s.(pc := StopCancelling(i), held := {i}), Next(s, e));
        }
      case Cancel =>
        if Lock(s).Some? {
          Pause(s, Cancelling(Lock(s).value), {Lock(s).value});
        }
      case Drain =>
        if s.current.Some? {
          Pause(s, Draining(s.current.value), {s.current.value});
        }
      case TakeFailure => SameInv(s, Next(s, e));
    }
  }

  lemma NextKeeps(s: State, e: Step)
    requires G.Inv(s) && Inv(s) && Enabled(s, e) && InOneStep(s, e)
    ensures Inv(Next(s, e))
  {
    hide G.Inv, Inv, ExecutorNext, TaskNext, Alive, Lock;
    match e {
      case ArmGoal(goal, accepted) => ArmKeeps(s, goal, accepted);
      case Continue => ExecutorKeeps(s);
      case Advance(t) => TaskKeeps(s, t);
      case FeedbackArrives(t, feedback) =>
        SetTask(s, t, GotFeedback(feedback));
        SameInv(s.(tasks := s.tasks[t := GotFeedback(feedback)]), Next(s, e));
      case StatusArrives(t, statuses) => SetTask(s, t, GotStatus(statuses));
      case _ => BeginKeeps(s, e);
    }
  }

  lemma {:induction false} InvHolds(assumed: Assumptions, s: State, run: seq<Step>)
    requires assumed.acceptedOnly && assumed.atomicCallbacks && IsRun(assumed, s, run)
    requires G.Inv(s) && G.StatusesOk(s) && Inv(s)
    ensures G.Inv(Final(assumed, s, run)) && G.StatusesOk(Final(assumed, s, run)) && Inv(Final(assumed, s, run))
    decreases |run|
  {
    hide G.Inv, G.StatusesOk, Inv, Next, InOneStep, HonestRobot;
    if run != [] {
      G.HonestKeeps(s, run[0]);
      NextKeeps(s, run[0]);
      InvHolds(assumed, Next(s, run[0]), run[1..]);
    }
  }

  lemma InvStarts()
    ensures G.Inv(INITIAL) && G.StatusesOk(INITIAL) && Inv(INITIAL)
  {
  }
}
