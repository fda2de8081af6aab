/**
 * Exactly when the path handle keeps hold of the session of every path that is starting or
 * live: a completion or failure callback clears the session pointer without looking at
 * which session it holds. Assumes acceptedOnly; callbacks need not be atomic.
 */
module HeldPath {
  import opened Common
  import opened NavigationSession
  import opened NavigationProtocol
  import opened F = ProtocolFrame
  import G = GoalAccounting
  import C = CurrentPath

  /** The goal of the path is live in its session. */
  predicate PathLive(s: State, r: SessionId) {
    && r < |s.sessions| && Live(s.sessions[r])
    && s.sessions[r].goal.value in s.issued && G.OfPath(s.issued[s.sessions[r].goal.value])
  }

  /** RMF still counts on the session of the path. */
  predicate Needed(s: State, r: SessionId) {
    G.Starting(s.pc, r) || PathLive(s, r)
  }

  /** The session is the one a new path has just replaced, and is about to invalidate. */
  predicate Leaving(s: State, r: SessionId) {
    s.pc.Swapped? && s.pc.previous == Some(r)
  }

  /** The path handle holds the session of every path that is starting or live. */
  ghost predicate Held(s: State) {
    forall r: SessionId | Needed(s, r) && !Leaving(s, r) :: s.current == Some(r)
  }

  /** A callback clears the session pointer in this step. */
  predicate Resets(s: State, e: Step) {
    || (e.Advance? && e.task in s.tasks && s.tasks[e.task].CallingBack? && s.tasks[e.task].chain.stage.Resetting?)
    || (e.Continue? && s.pc.Firing? && s.pc.chain.stage.Resetting?)
  }

  /** A callback clears the session pointer while it holds the session of a path that is starting or live. */
  predicate LetsGo(s: State, e: Step) {
    Resets(s, e) && s.current.Some? && Needed(s, s.current.value)
  }

  // ----- what holds in any case -----

  /** While RMF is in a call, the pointer is what the call left it, or null. */
  ghost predicate PcOk(s: State) {
    && (forall r: SessionId | G.Starting(s.pc, r) :: s.current.Some? ==> s.current == Some(r))
    && StopOk(s)
  }

  predicate StopOk(s: State) {
    match s.pc
    case StopInvalidating(i) => s.current.Some? ==> s.current == Some(i)
    case StopResetting => s.current.Some? ==> C.BlankAt(s.sessions, s.current.value)
    case _ => true
  }

  ghost predicate Inv(s: State) {
    PcOk(s) && C.WpOk(s.current, s.wp, s.pc)
  }

  /** Unless a path begins, the session pointer stays or is cleared. */
  lemma CurrentShrinks(s: State, e: Step)
    requires Enabled(s, e) && !e.FollowNewPath?
    ensures Next(s, e).current == s.current || Next(s, e).current == None
    ensures Next(s, e).current != s.current ==> Resets(s, e) || (e.Continue? && s.pc.StopResetting?)
  {
    hide TaskNext, ExecutorNext, Lock, LockSession, Release, Live;
    match e {
      case Continue => ExecutorShrinks(s);
      case Advance(t) => TaskShrinks(s, t);
      case Execute(owner) => LockKeepsCurrent(s, Call(owner, None));
      case ArmGoal(_, _) => ArmShape(s, e);
      case _ =>
    }
  }

  /** What arming does to the session it arms, and leaves alone. */
  lemma ArmShape(s: State, e: Step)
    requires Enabled(s, e) && e.ArmGoal?
    ensures var (s', i) := (Next(s, e), s.pc.session);
      && s'.current == s.current && s'.wp == s.wp && s'.pc.Sending?
      && s'.issued == s.issued[e.goal := Issue(i, s.pc.call.owner, e.accepted)]
      && s'.sessions == if i < |s.sessions| then
           s.sessions[i := Armed(s.sessions[i], e.goal, s.pc.call.owner, s.pc.call.estimator)] else s.sessions
  {
    hide Live;
  }

  lemma LockKeepsCurrent(s: State, call: Call)
    ensures var s' := LockSession(s, call);
      s'.current == s.current && s'.wp == s.wp && s'.sessions == s.sessions
      && (s'.pc.Idle? || s'.pc.Firing? || (s'.pc.Arming? && s'.pc.call == call))
  {
    hide Lock;
  }

  lemma TaskShrinks(s: State, t: nat)
    requires t in s.tasks
    ensures var s' := TaskNext(s, t);
      s'.current == s.current || (Resets(s, Advance(t)) && s'.current == None)
  {
    if Resets(s, Advance(t)) {
      ResetByTask(s, t);
    } else {
      TaskKeepsCurrent(s, t);
    }
  }

  lemma ResetByTask(s: State, t: nat)
    requires t in s.tasks && Resets(s, Advance(t))
    ensures var s' := TaskNext(s, t); s'.current == None && s'.sessions == s.sessions && s'.pc == s.pc && s'.issued == s.issued
  {
  }

  lemma ResetByExecutor(s: State)
    requires Resets(s, Continue)
    ensures var s' := ExecutorNext(s); s'.current == None && s'.sessions == s.sessions && s'.pc.Firing? && s'.issued == s.issued
  {
  }

  lemma ExecutorShrinks(s: State)
    ensures var s' := ExecutorNext(s);
      s'.current == s.current || ((Resets(s, Continue) || s.pc.StopResetting?) && s'.current == None)
  {
    hide Invalidate, ChainNext;
    match s.pc {
      case Swapped(_, _, previous) =>
        if previous.Some? {
          InvalidateShape(s, previous.value);
        }
      case Firing(chain) =>
        if chain.stage.Resetting? {
          ResetByExecutor(s);
        } else {
          ChainFrame(s, chain);
        }
      case StopResetting =>
      case _ => ExecutorKeepsCurrent(s);
    }
  }

  // ----- needs do not arise from nowhere -----

  lemma LiveBefore(s: State, e: Step, r: SessionId)
    requires G.Inv(s) && Enabled(s, e) && !e.ArmGoal? && PathLive(Next(s, e), r)
    ensures PathLive(s, r)
  {
    hide Next, NoNewGoals;
    var s' := Next(s, e);
    NextDrops(s, e);
    DropsAt(s.sessions, s'.sessions, r);
    G.StatusesCarryOver(s, e);
  }

  lemma DropsAt(sessions: seq<Session>, sessions': seq<Session>, r: SessionId)
    requires NoNewGoals(sessions, sessions') && Carries(sessions', r)
    ensures Carries(sessions, r) && sessions'[r].goal == sessions[r].goal && (sessions[r].done ==> sessions'[r].done)
  {
  }

  lemma ArmedBefore(s: State, e: Step, r: SessionId)
    requires G.Inv(s) && Enabled(s, e) && e.ArmGoal? && PathLive(Next(s, e), r)
    ensures Needed(s, r)
  {
    hide G.IssuesOk, G.TasksOk, G.CountsOk, G.LogOk, G.RequestsOk, G.PcOk, Next;
    ArmShape(s, e);
    if r < |s.sessions| {
      assert G.SessionOk(s.sessions[r], r, s.issued, s.place);
    }
  }

  /** What is needed after a step was needed before it, unless it is the path that begins. */
  lemma NeededBefore(s: State, e: Step, r: SessionId)
    requires G.Inv(s) && Enabled(s, e) && Needed(Next(s, e), r)
    ensures Needed(s, r) || (e.FollowNewPath? && r == |s.sessions|)
  {
    hide G.Inv, Next, PathLive;
    if PathLive(Next(s, e), r) {
      if e.ArmGoal? {
        ArmedBefore(s, e, r);
      } else {
        LiveBefore(s, e, r);
      }
    } else {
      StartingBefore(s, e, r);
    }
  }

  lemma StartingBefore(s: State, e: Step, r: SessionId)
    requires Enabled(s, e) && G.Starting(Next(s, e).pc, r)
    ensures G.Starting(s.pc, r) || (e.FollowNewPath? && r == |s.sessions|)
  {
    hide TaskNext, ExecutorNext, Lock, LockSession, Release, Put;
    match e {
      case Continue => ExecutorStarting(s, r);
      case Advance(t) => TaskFrame(s, t);
      case Execute(owner) => LockKeepsCurrent(s, Call(owner, None));
      case _ =>
    }
  }

  lemma ExecutorStarting(s: State, r: SessionId)
    requires G.Starting(ExecutorNext(s).pc, r) && !s.pc.Arming?
    ensures G.Starting(s.pc, r)
  {
    hide ExecutorNext;
    match s.pc {
      case Swapped(_, _, _) => StartStep(s);
      case Superseded(_, _) => StartStep(s);
      case Cleared(_, _) => StartStep(s);
      case Calling(call) =>
        CallingStep(s);
        LockKeepsCurrent(s, call);
      case _ => NotStarting(s);
    }
  }

  lemma CallingStep(s: State)
    requires s.pc.Calling?
    ensures ExecutorNext(s) == LockSession(s, s.pc.call)
  {
  }

  lemma StartStep(s: State)
    requires s.pc.Swapped? || s.pc.Superseded? || s.pc.Cleared?
    ensures var pc := ExecutorNext(s).pc;
      || (pc.Superseded? && pc.request == s.pc.request) || (pc.Cleared? && pc.request == s.pc.request)
      || (pc.Calling? && pc.call.owner == Some(PathRequest(s.pc.request)))
    ensures ExecutorNext(s).wp == if s.pc.Cleared? then Some(s.pc.request) else s.wp
  {
    hide Invalidate;
    if s.pc.Swapped? && s.pc.previous.Some? {
      InvalidateShape(s, s.pc.previous.value);
    }
  }

  lemma NotStarting(s: State)
    requires !s.pc.Swapped? && !s.pc.Superseded? && !s.pc.Cleared? && !s.pc.Calling? && !s.pc.Arming?
    ensures var s' := ExecutorNext(s);
      && s'.wp == s.wp && !s'.pc.Swapped? && !s'.pc.Superseded? && !s'.pc.Cleared? && !s'.pc.Calling? && !s'.pc.Arming?
      && (s'.pc.StopInvalidating? ==> s.pc.StopReading? && s.current == Some(s'.pc.session))
      && (s'.pc.StopResetting? ==> (s.pc.StopReading? && s.current.None?) || s.pc.StopInvalidating?)
  {
    hide Invalidate, CancelSession, ChainNext, Answer, Drained, At, Put;
    match s.pc {
      case StopCancelling(i) => CancelFrame(s, i);
      case StopInvalidating(i) => InvalidateShape(s, i);
      case Cancelling(i) => CancelFrame(s, i);
      case Sending(_, _) => AnswerEnds(s);
      case Firing(chain) => ChainFrame(s, chain);
      case Snapshotting(i) => PutFrame(s, i, At(s, i).(pending := None));
      case _ =>
    }
  }

  lemma AnswerEnds(s: State)
    requires s.pc.Sending?
    ensures Answer(s).wp == s.wp && (Answer(s).pc.Idle? || Answer(s).pc.Firing?)
  {
    hide Completion, Begin;
    AnswerFrame(s);
  }

  // ----- the invariant -----

  lemma PcKeeps(s: State, e: Step)
    requires Inv(s) && G.Inv(s) && Enabled(s, e)
    ensures PcOk(Next(s, e))
  {
    hide G.Inv, Next, C.Blank;
    var s' := Next(s, e);
    if e.FollowNewPath? {
      FollowShape(s, e);
    } else {
      CurrentShrinks(s, e);
      forall r: SessionId | G.Starting(s'.pc, r) ensures s'.current.Some? ==> s'.current == Some(r) {
        StartingBefore(s, e, r);
      }
      StopKeeps(s, e);
    }
  }

  lemma FollowShape(s: State, e: Step)
    requires Enabled(s, e) && e.FollowNewPath?
    ensures var (s', n) := (Next(s, e), |s.sessions|);
      s'.current == Some(n) && s'.pc == Swapped(n, e.wantsArrivals, s.current) && s'.wp == s.wp
  {
  }

  lemma StopKeeps(s: State, e: Step)
    requires StopOk(s) && Enabled(s, e) && !e.FollowNewPath?
    requires Next(s, e).current == s.current || Next(s, e).current == None
    ensures StopOk(Next(s, e))
  {
    hide Next, StopOk;
    if e.Continue? {
      StopStep(s);
    } else if e.Advance? {
      StopTask(s, e.task);
    } else {
      OtherStop(s, e);
    }
  }

  lemma StopTask(s: State, t: nat)
    requires StopOk(s) && t in s.tasks
    requires Next(s, Advance(t)).current == s.current || Next(s, Advance(t)).current == None
    ensures StopOk(Next(s, Advance(t)))
  {
    hide TaskNext, C.BlankAt, G.Starting;
    TaskFrame(s, t);
    if s.pc.StopResetting? && s.current.Some? {
      BlankStays(s, t, s.current.value);
    }
  }

  lemma StopStep(s: State)
    requires StopOk(s) && Enabled(s, Continue)
    requires Next(s, Continue).current == s.current || Next(s, Continue).current == None
    ensures StopOk(Next(s, Continue))
  {
    hide ExecutorNext, Invalidate;
    match s.pc {
      case Swapped(_, _, _) => StartStep(s);
      case Superseded(_, _) => StartStep(s);
      case Cleared(_, _) => StartStep(s);
      case Calling(call) =>
        CallingStep(s);
        LockKeepsCurrent(s, call);
      case _ =>
        NotStarting(s);
        if s.pc.StopInvalidating? {
          InvalidatingStep(s);
        }
    }
  }

  lemma InvalidatingStep(s: State)
    requires s.pc.StopInvalidating?
    ensures C.BlankAt(ExecutorNext(s).sessions, s.pc.session)
  {
    hide Invalidate;
    InvalidateShape(s, s.pc.session);
  }

  lemma OtherStop(s: State, e: Step)
    requires StopOk(s) && Enabled(s, e) && !e.Continue? && !e.Advance? && !e.FollowNewPath?
    ensures StopOk(Next(s, e))
  {
    hide Lock, LockSession, Live;
    match e {
      case Execute(owner) => LockKeepsCurrent(s, Call(owner, None));
      case ArmGoal(_, _) => ArmShape(s, e);
      case _ =>
    }
  }

  lemma PutKeepsBlank(s: State, j: SessionId, y: Session, i: SessionId)
    requires C.BlankAt(s.sessions, i) && (C.Blank(At(s, j)) ==> C.Blank(y))
    ensures C.BlankAt(Put(s, j, y).sessions, i)
  {
  }

  lemma BlankStays(s: State, t: nat, i: SessionId)
    requires t in s.tasks && C.BlankAt(s.sessions, i)
    ensures C.BlankAt(TaskNext(s, t).sessions, i)
  {
    hide Lock, Alive, Invalidate, Verdict, Taken, C.BlankAt, Put;
    match s.tasks[t] {
      case CallingBack(_, chain) =>
        var own := Own(chain.callback);
        InvalidateShape(s, own);
        BlankAfterInvalidate(s, own, i);
      case Deciding(j, statuses) => DecideBlank(s, t, j, statuses, i);
      case Matched(j, feedback, _) => PutKeepsBlank(s, j, At(s, j).(reason := feedback.reason), i);
      case Targeting(_, feedback, j) => PutKeepsBlank(s, j, At(s, j).(target := feedback.index), i);
      case Buffering(_, feedback, j) => PutKeepsBlank(s, j, At(s, j).(pending := Some(feedback)), i);
      case _ =>
    }
  }

  lemma BlankAfterInvalidate(s: State, own: SessionId, i: SessionId)
    requires C.BlankAt(s.sessions, i)
    ensures C.BlankAt(Invalidate(s, own).sessions, i)
  {
    hide Invalidate;
    InvalidateShape(s, own);
  }

  lemma DecideBlank(s: State, t: nat, j: SessionId, statuses: seq<Status>, i: SessionId)
    requires C.BlankAt(s.sessions, i)
    ensures C.BlankAt(Decide(s, t, j, statuses).sessions, i)
  {
    hide FirstAbout, Taken, Put, C.BlankAt;
    var x := At(s, j);
    if Verdict(x, statuses).Some? {
      var s0 := Commit(s, Taken(x, statuses), x.goal.value, InTask(t));
      CommitFrame(s, Taken(x, statuses), x.goal.value, InTask(t));
      PutKeepsBlank(s0, j, Invalidated(x), i);
    }
  }

  lemma WpKeeps(s: State, e: Step)
    requires Inv(s) && G.Inv(s) && Enabled(s, e)
    ensures C.WpOk(Next(s, e).current, Next(s, e).wp, Next(s, e).pc)
  {
    hide G.Inv, Next;
    var s' := Next(s, e);
    if e.FollowNewPath? {
      FollowShape(s, e);
    } else {
      CurrentShrinks(s, e);
      WpShape(s, e);
      assert s.pc.Swapped? || s.pc.Superseded? || s.pc.Cleared? ==> G.Starting(s.pc, s.pc.request);
    }
  }

  /** The weak pointer changes only where a path is shown to the controller. */
  lemma WpShape(s: State, e: Step)
    requires Enabled(s, e) && !e.FollowNewPath?
    ensures var s' := Next(s, e);
      if e.Continue? && (s.pc.Swapped? || s.pc.Superseded? || s.pc.Cleared?) then
        if s.pc.Cleared? then s'.wp == Some(s.pc.request)
        else s'.wp == s.wp && (s'.pc.Superseded? || s'.pc.Cleared?) && s'.pc.request == s.pc.request
      else s'.wp == s.wp && (s.pc.Swapped? || s.pc.Superseded? || s.pc.Cleared? ==> s'.pc == s.pc)
  {
    hide TaskNext, ExecutorNext, Lock, LockSession, Release, Put;
    match e {
      case Continue =>
        if s.pc.Swapped? || s.pc.Superseded? || s.pc.Cleared? {
          StartStep(s);
          if !s.pc.Cleared? {
            StartKind(s);
          }
        } else if s.pc.Calling? {
          CallingStep(s);
          LockKeepsCurrent(s, s.pc.call);
        } else {
          NotStarting(s);
        }
      case Advance(t) => TaskFrame(s, t);
      case Execute(owner) => LockKeepsCurrent(s, Call(owner, None));
      case ArmGoal(_, _) => ArmShape(s, e);
      case _ =>
    }
  }

  lemma StartKind(s: State)
    requires s.pc.Swapped? || s.pc.Superseded?
    ensures ExecutorNext(s).pc.Superseded? || ExecutorNext(s).pc.Cleared?
  {
    hide Invalidate;
  }

  // ----- exactly when every path is held -----

  lemma HeldStep(s: State, e: Step)
    requires G.Inv(s) && Inv(s) && Enabled(s, e) && Held(s) && !LetsGo(s, e)
    ensures Held(Next(s, e))
  {
    hide G.Inv, Next, PathLive, Resets;
    var s' := Next(s, e);
    forall r: SessionId | Needed(s', r) && !Leaving(s', r) ensures s'.current == Some(r) {
      NeededBefore(s, e, r);
      if e.FollowNewPath? {
        FollowShape(s, e);
      } else {
        CurrentShrinks(s, e);
        if Leaving(s, r) {
          LeftBefore(s, e, r);
        }
        if e.Continue? && s.pc.StopResetting? {
          BlankIsNotNeeded(s);
        }
      }
    }
  }

  lemma BlankIsNotNeeded(s: State)
    requires PcOk(s) && s.pc.StopResetting? && s.current.Some?
    ensures !Needed(s, s.current.value)
  {
  }

  /** The session being replaced is no longer needed when it stops being that. */
  lemma LeftBefore(s: State, e: Step, r: SessionId)
    requires G.Inv(s) && Enabled(s, e) && Leaving(s, r) && Needed(Next(s, e), r)
    ensures Leaving(Next(s, e), r)
  {
    hide G.Inv, Next, Needed, TaskNext;
    if e.Continue? {
      LeftIsNotNeeded(s, r);
    } else {
      SwappedStays(s, e);
    }
  }

  lemma SwappedStays(s: State, e: Step)
    requires Enabled(s, e) && s.pc.Swapped? && !e.Continue?
    ensures Next(s, e).pc == s.pc
  {
    hide TaskNext;
    if e.Advance? {
      TaskFrame(s, e.task);
    }
  }

  lemma LeftIsNotNeeded(s: State, r: SessionId)
    requires G.Inv(s) && Leaving(s, r)
    ensures !Needed(ExecutorNext(s), r) && Next(s, Continue) == ExecutorNext(s)
  {
    hide G.IssuesOk, G.SessionsOk, G.TasksOk, G.CountsOk, G.LogOk, G.RequestsOk, G.Unused, Invalidate;
    InvalidateShape(s, r);
  }

  /** Letting go of a needed session leaves it unheld. */
  lemma LetsGoLoses(s: State, e: Step)
    requires G.Inv(s) && Inv(s) && Enabled(s, e) && LetsGo(s, e)
    ensures !Held(Next(s, e))
  {
    hide G.IssuesOk, G.SessionsOk, G.TasksOk, G.CountsOk, G.LogOk, G.RequestsOk, G.Unused, TaskNext, ExecutorNext;
    var (c, s') := (s.current.value, Next(s, e));
    if e.Advance? {
      ResetByTask(s, e.task);
    } else {
      ResetByExecutor(s);
    }
    assert s.pc.Swapped? ==> G.Starting(s.pc, s.pc.request);
    assert Needed(s', c) && !Leaving(s', c);
  }

  lemma {:induction false} HeldIffFrom(assumed: Assumptions, s: State, run: seq<Step>)
    requires assumed.acceptedOnly && IsRun(assumed, s, run)
    requires G.Inv(s) && G.StatusesOk(s) && Inv(s) && Held(s)
    ensures Always(assumed, Held, s, run) <==> !Sometime(assumed, LetsGo, s, run)
    decreases |run|
  {
    hide G.Inv, G.StatusesOk, Inv, Held, LetsGo, Next, HonestRobot, InOneStep;
    if run != [] {
      if LetsGo(s, run[0]) {
        LetsGoLoses(s, run[0]);
      } else {
        G.HonestKeeps(s, run[0]);
        InvKeeps(s, run[0]);
        HeldStep(s, run[0]);
        HeldIffFrom(assumed, Next(s, run[0]), run[1..]);
      }
    }
  }

  lemma InvKeeps(s: State, e: Step)
    requires G.Inv(s) && Inv(s) && Enabled(s, e)
    ensures Inv(Next(s, e))
  {
    hide G.Inv, PcOk, Next;
    PcKeeps(s, e);
    WpKeeps(s, e);
  }

  lemma {:induction false} InvHolds(assumed: Assumptions, s: State, run: seq<Step>)
    requires assumed.acceptedOnly && IsRun(assumed, s, run) && G.Inv(s) && G.StatusesOk(s) && Inv(s)
    ensures G.Inv(Final(assumed, s, run)) && Inv(Final(assumed, s, run))
    decreases |run|
  {
    hide G.Inv, G.StatusesOk, Inv, Next, HonestRobot, InOneStep;
    if run != [] {
      G.HonestKeeps(s, run[0]);
      InvKeeps(s, run[0]);
      InvHolds(assumed, Next(s, run[0]), run[1..]);
    }
  }

  lemma Starts()
    ensures G.Inv(INITIAL) && G.StatusesOk(INITIAL) && Inv(INITIAL) && Held(INITIAL)
  {
  }

  /**
   * On every run with an honest robot, the path handle holds the session of every path that
   * is starting or live, at all times outside the swap, if and only if no callback ever
   * clears the session pointer while it holds such a session.
   */
  lemma PathsAreHeldIff(assumed: Assumptions, run: seq<Step>)
    requires assumed.acceptedOnly && IsRun(assumed, INITIAL, run)
    ensures Always(assumed, Held, INITIAL, run) <==> !Sometime(assumed, LetsGo, INITIAL, run)
  {
    hide G.Inv, G.StatusesOk, Inv, Held, LetsGo;
    Starts();
    HeldIffFrom(assumed, INITIAL, run);
  }

  /** A live path that is held is found by the controller. */
  lemma HeldIsFound(s: State, r: SessionId)
    requires G.Inv(s) && Inv(s) && Held(s) && PathLive(s, r) && !Leaving(s, r)
    ensures s.current == Some(r) && Lock(s) == Some(r)
  {
    hide G.IssuesOk, G.TasksOk, G.PcOk, G.CountsOk, G.LogOk, G.RequestsOk;
    assert Needed(s, r);
    assert G.SessionOk(s.sessions[r], r, s.issued, s.place);
    G.IssuedBusy(s, s.sessions[r].goal.value);
  }

  // ----- atomic callbacks -----

  /** A callback that is one step with its decision clears the pointer only of its own session. */
  lemma AtomicIsSafe(s: State, e: Step)
    requires G.Inv(s) && C.Inv(s) && Enabled(s, e)
    ensures !LetsGo(s, e)
  {
    hide G.Inv, C.SessionsOk, C.WpOk, Own;
    if Resets(s, e) {
      if e.Advance? {
        assert C.TaskOk(s.tasks[e.task], s.current, s.sessions);
        C.CallbackIsBusy(s, e.task);
      }
    }
  }

  lemma {:induction false} AtomicRuns(assumed: Assumptions, s: State, run: seq<Step>)
    requires assumed.acceptedOnly && assumed.atomicCallbacks && IsRun(assumed, s, run)
    requires G.Inv(s) && G.StatusesOk(s) && C.Inv(s)
    ensures !Sometime(assumed, LetsGo, s, run)
    decreases |run|
  {
    hide G.Inv, G.StatusesOk, C.Inv, LetsGo, Next, HonestRobot, InOneStep;
    if run != [] {
      AtomicIsSafe(s, run[0]);
      G.HonestKeeps(s, run[0]);
      C.NextKeeps(s, run[0]);
      AtomicRuns(assumed, Next(s, run[0]), run[1..]);
    }
  }

  /** With atomic callbacks no callback lets go of a session that is needed. */
  lemma AtomicCallbacksLetNothingGo(assumed: Assumptions, run: seq<Step>)
    requires assumed.acceptedOnly && assumed.atomicCallbacks && IsRun(assumed, INITIAL, run)
    ensures !Sometime(assumed, LetsGo, INITIAL, run)
  {
    hide LetsGo;
    C.InvStarts();
    AtomicRuns(assumed, INITIAL, run);
  }
}
