/**
 * The drain calls the RMF estimator of the most recent path only, never after a stop, and
 * only with feedback about the goal that path issued, however the Zenoh callbacks
 * interleave. Neither acceptedOnly nor atomicCallbacks is assumed.
 */
module EstimatorSafety {
  import opened Common
  import opened NavigationSession
  import opened NavigationProtocol

  /** The path RMF asked for last, unless it has asked to stop since. */
  function LastCall(log: seq<Record>): Option<SessionId> {
    if log == [] then None
    else
      match log[|log| - 1]
      case Followed(request) => Some(request)
      case Stopped => None
      case _ => LastCall(log[..|log| - 1])
  }

  /** The feedback came in as a message, about the goal that the path issued. */
  ghost predicate Belongs(issued: map<Goal, Issue>, log: seq<Record>, request: SessionId, feedback: Feedback) {
    && feedback.goal in issued && issued[feedback.goal].owner == Some(PathRequest(request))
    && Heard(feedback) in log
  }

  /** A message came in about some goal that was issued on the session. */
  ghost predicate Concerns(issued: map<Goal, Issue>, log: seq<Record>, i: SessionId, feedback: Feedback) {
    feedback.goal in issued && issued[feedback.goal].session == i && Heard(feedback) in log
  }

  /** The reported target and failure reason of a session are initial, or were reported for it. */
  ghost predicate Reported(x: Session, i: SessionId, issued: map<Goal, Issue>, log: seq<Record>) {
    && (x.target != 0 ==> exists feedback :: Belongs(issued, log, i, feedback) && feedback.index == x.target)
    && (x.reason != 0 ==> exists feedback :: Concerns(issued, log, i, feedback) && feedback.reason == x.reason)
  }

  /** Every call of an RMF estimator so far came at the right time with the right feedback. */
  ghost predicate Timely(issued: map<Goal, Issue>, log: seq<Record>) {
    forall k | 0 <= k < |log| && log[k].Estimated? ::
      LastCall(log[..k]) == Some(log[k].request) && Belongs(issued, log[..k], log[k].request, log[k].feedback)
  }

  // ----- the invariant -----

  ghost predicate SessionOk(x: Session, i: SessionId, issued: map<Goal, Issue>, log: seq<Record>) {
    && (x.goal.Some? ==> x.goal.value in issued && issued[x.goal.value].session == i)
    && Reported(x, i, issued, log)
    && (x.rmfEstimator.Some? ==> x.rmfEstimator == Some(i))
    && (x.estimator.Some? ==> x.estimator == Some(i))
    && (x.estimator.Some? && x.goal.Some? ==> issued[x.goal.value].owner == Some(PathRequest(i)))
    && (x.pending.Some? ==> Belongs(issued, log, i, x.pending.value))
  }

  ghost predicate SessionsOk(sessions: seq<Session>, issued: map<Goal, Issue>, log: seq<Record>) {
    forall i | 0 <= i < |sessions| :: SessionOk(sessions[i], i, issued, log)
  }

  ghost predicate TaskOk(task: Task, issued: map<Goal, Issue>, log: seq<Record>) {
    match task
    case GotFeedback(feedback) => Heard(feedback) in log
    case Checking(_, feedback) => Heard(feedback) in log
    case Copying(_, feedback) => Heard(feedback) in log
    case Matched(i, feedback, estimator) =>
      Concerns(issued, log, i, feedback) && (estimator.Some? ==> Belongs(issued, log, estimator.value, feedback))
    case Entering(_, feedback, buffer) => Belongs(issued, log, buffer, feedback)
    case Targeting(_, feedback, buffer) => Belongs(issued, log, buffer, feedback)
    case Buffering(_, feedback, buffer) => Belongs(issued, log, buffer, feedback)
    case _ => true
  }

  ghost predicate TasksOk(tasks: map<nat, Task>, issued: map<Goal, Issue>, log: seq<Record>) {
    forall t | t in tasks :: TaskOk(tasks[t], issued, log)
  }

  /** The callbacks of a path name that path, and the controller points at its session. */
  predicate CallOk(call: Call, at: Option<SessionId>) {
    && (call.estimator.Some? ==> call.owner == Some(PathRequest(call.estimator.value)))
    && (call.owner.Some? && call.owner.value.PathRequest? ==> at == Some(call.owner.value.session))
  }

  ghost predicate PcOk(pc: Pc, wp: Option<SessionId>, issued: map<Goal, Issue>, log: seq<Record>) {
    match pc
    case Calling(call) => CallOk(call, wp)
    case Arming(call, i) => CallOk(call, Some(i))
    case Draining(i) => LastCall(log) == Some(i)
    case Snapshotting(i) => LastCall(log) == Some(i)
    case Estimating(request, feedback) => LastCall(log) == Some(request) && Belongs(issued, log, request, feedback)
    case _ => true
  }

  predicate Stopping(pc: Pc) {
    pc.StopCancelling? || pc.StopReading? || pc.StopInvalidating? || pc.StopResetting?
  }

  ghost predicate CurrentOk(current: Option<SessionId>, pc: Pc, log: seq<Record>) {
    current.Some? && !Stopping(pc) ==> LastCall(log) == current
  }

  ghost predicate Inv(s: State) {
    && SessionsOk(s.sessions, s.issued, s.log)
    && TasksOk(s.tasks, s.issued, s.log)
    && PcOk(s.pc, s.wp, s.issued, s.log)
    && CurrentOk(s.current, s.pc, s.log)
    && Timely(s.issued, s.log)
  }

  // ----- the log and the issued goals only grow -----

  ghost predicate Grown(issued: map<Goal, Issue>, issued': map<Goal, Issue>, log: seq<Record>, log': seq<Record>) {
    && (forall g | g in issued :: g in issued' && issued'[g] == issued[g])
    && log <= log'
  }

  lemma SessionGrows(x: Session, i: SessionId,
                     issued: map<Goal, Issue>, issued': map<Goal, Issue>, log: seq<Record>, log': seq<Record>)
    requires Grown(issued, issued', log, log') && SessionOk(x, i, issued, log)
    ensures SessionOk(x, i, issued', log')
  {
  }

  lemma TaskGrows(task: Task,
                  issued: map<Goal, Issue>, issued': map<Goal, Issue>, log: seq<Record>, log': seq<Record>)
    requires Grown(issued, issued', log, log') && TaskOk(task, issued, log)
    ensures TaskOk(task, issued', log')
  {
  }

  lemma TimelyGrows(issued: map<Goal, Issue>, issued': map<Goal, Issue>, log: seq<Record>, r: Record)
    requires Grown(issued, issued', log, log) && Timely(issued, log)
    requires r.Estimated? ==> LastCall(log) == Some(r.request) && Belongs(issued', log, r.request, r.feedback)
    ensures Timely(issued', log) && Timely(issued', log + [r])
  {
    var log' := log + [r];
    forall k | 0 <= k < |log'| && log'[k].Estimated?
      ensures LastCall(log'[..k]) == Some(log'[k].request)
           && Belongs(issued', log'[..k], log'[k].request, log'[k].feedback)
    {
      assert log'[..k] == log[..k];
      if k == |log| {
        assert log'[..k] == log;
      } else {
        assert log[k].Estimated?;
      }
    }
    forall k | 0 <= k < |log| && log[k].Estimated?
      ensures LastCall(log[..k]) == Some(log[k].request)
           && Belongs(issued', log[..k], log[k].request, log[k].feedback)
    {
      assert log'[k].Estimated? && log'[..k] == log[..k];
    }
  }

  lemma LastCallGrows(log: seq<Record>, r: Record)
    ensures LastCall(log + [r]) ==
            if r.Followed? then Some(r.request) else if r.Stopped? then None else LastCall(log)
  {
    assert (log + [r])[..|log|] == log;
  }

  /** Appending a record that is neither a call of RMF nor of its estimator. */
  lemma Say(s: State, r: Record)
    requires Inv(s) && !r.Followed? && !r.Stopped? && !r.Estimated?
    ensures Inv(s.(log := s.log + [r]))
  {
    hide SessionOk, TaskOk, Timely, LastCall;
    LastCallGrows(s.log, r);
    TimelyGrows(s.issued, s.issued, s.log, r);
    forall i | 0 <= i < |s.sessions| ensures SessionOk(s.sessions[i], i, s.issued, s.log + [r]) {
      SessionGrows(s.sessions[i], i, s.issued, s.issued, s.log, s.log + [r]);
    }
    forall t | t in s.tasks ensures TaskOk(s.tasks[t], s.issued, s.log + [r]) {
      TaskGrows(s.tasks[t], s.issued, s.issued, s.log, s.log + [r]);
    }
  }

  /** Replacing one session. */
  lemma Store(s: State, i: SessionId, x: Session)
    requires Inv(s) && SessionOk(x, i, s.issued, s.log)
    ensures Inv(Put(s, i, x))
  {
    hide SessionOk, TasksOk, PcOk, CurrentOk, Timely;
  }

  lemma ReleaseKeeps(s: State, i: SessionId)
    requires Inv(s)
    ensures Inv(Release(s, i)) && Release(s, i).issued == s.issued && s.log <= Release(s, i).log
    ensures Release(s, i).pc == s.pc && Release(s, i).wp == s.wp && Release(s, i).sessions == s.sessions
  {
    hide Inv;
    if Live(At(s, i)) {
      Say(s, Withdrawn(At(s, i).goal.value));
      PlaceIsFree(s.(log := s.log + [Withdrawn(At(s, i).goal.value)]), Release(s, i).place);
    }
  }

  /** The bookkeeping of places plays no part here. */
  lemma PlaceIsFree(s: State, place: map<Goal, Place>)
    requires Inv(s)
    ensures Inv(s.(place := place))
  {
    hide SessionsOk, TasksOk, PcOk, CurrentOk, Timely;
  }

  lemma CloseKeeps(s: State, goal: Goal, r: Record)
    requires Inv(s) && !r.Followed? && !r.Stopped? && !r.Estimated?
    ensures Inv(Close(s, goal, r))
  {
    hide Inv;
    Say(s, r);
    PlaceIsFree(s.(log := s.log + [r]), Close(s, goal, r).place);
  }

  lemma InvalidatedOk(s: State, i: SessionId)
    requires Inv(s)
    ensures SessionOk(Invalidated(At(s, i)), i, s.issued, s.log)
  {
    hide TasksOk, PcOk, CurrentOk, Timely;
  }

  lemma InvalidateKeeps(s: State, i: SessionId)
    requires Inv(s)
    ensures Inv(Invalidate(s, i)) && Invalidate(s, i).issued == s.issued && s.log <= Invalidate(s, i).log
    ensures Invalidate(s, i).tasks == s.tasks
  {
    hide Inv;
    ReleaseKeeps(s, i);
    InvalidatedOk(Release(s, i), i);
    Store(Release(s, i), i, Invalidated(At(s, i)));
  }

  /** Clearing the current session, and the flags, is always safe. */
  lemma ClearKeeps(s: State, pendingFailure: bool, held: set<SessionId>)
    requires Inv(s)
    ensures Inv(s.(current := None)) && Inv(s.(pendingFailure := pendingFailure)) && Inv(s.(held := held))
  {
    hide SessionsOk, TasksOk, PcOk, Timely;
  }

  lemma ChainKeeps(s: State, chain: Chain)
    requires Inv(s)
    ensures Inv(ChainNext(s, chain)) && ChainNext(s, chain).tasks == s.tasks
  {
    hide Inv, Alive;
    match chain.stage {
      case Invalidating => InvalidateKeeps(s, Own(chain.callback));
      case Resetting => ClearKeeps(s, false, {});
      case Finishing =>
        match chain.callback {
          case Complete(owner) =>
            if chain.goal.Some? {
              CloseKeeps(s, chain.goal.value, Fired(owner, chain.goal.value));
            } else {
              Say(s, Bypassed(owner));
            }
          case Fail(i) =>
            if chain.goal.Some? {
              CloseKeeps(s, chain.goal.value, Failed(i, chain.goal.value));
              ClearKeeps(Close(s, chain.goal.value, Failed(i, chain.goal.value)), true, {});
            } else {
              ClearKeeps(s, true, {});
            }
        }
    }
  }

  // ----- Zenoh callbacks -----

  lemma SetTask(s: State, t: nat, task: Task)
    requires Inv(s) && TaskOk(task, s.issued, s.log)
    ensures Inv(s.(tasks := s.tasks[t := task]))
  {
    hide SessionsOk, TaskOk, PcOk, CurrentOk, Timely;
  }

  lemma EndKeeps(s: State, t: nat)
    requires Inv(s)
    ensures Inv(End(s, t))
  {
    hide SessionsOk, TaskOk, PcOk, CurrentOk, Timely;
  }

  lemma CommitKeeps(s: State, callback: Option<Callback>, goal: Goal, place: Place)
    requires Inv(s)
    ensures Inv(Commit(s, callback, goal, place))
  {
    hide Inv;
    if callback.Some? {
      PlaceIsFree(s, s.place[goal := place]);
    } else {
      CloseKeeps(s, goal, Unheard(goal));
    }
  }

  lemma DecideKeeps(s: State, t: nat, i: SessionId, statuses: seq<Status>)
    requires Inv(s)
    ensures Inv(Decide(s, t, i, statuses))
  {
    hide Inv, TaskOk, FirstAbout, Taken;
    var x := At(s, i);
    EndKeeps(s, t);
    if Verdict(x, statuses).Some? {
      var callback := Taken(x, statuses);
      var s0 := Commit(s, callback, x.goal.value, InTask(t));
      var s1 := Put(s0, i, Invalidated(x));
      CommitKeeps(s, callback, x.goal.value, InTask(t));
      InvalidatedOk(s0, i);
      Store(s0, i, Invalidated(x));
      EndKeeps(s1, t);
      if callback.Some? {
        Harmless(CallingBack(i, Begin(callback.value, x.goal)), s1);
        SetTask(s1, t, CallingBack(i, Begin(callback.value, x.goal)));
      }
    }
  }

  lemma Harmless(task: Task, s: State)
    requires task.Deciding? || task.CallingBack? || task.GotStatus?
    ensures TaskOk(task, s.issued, s.log)
  {
  }

  /** Feedback that is about the goal of a session, copied with its estimator, belongs to that session. */
  lemma CopyKeeps(s: State, i: SessionId, feedback: Feedback)
    requires Inv(s) && At(s, i).goal == Some(feedback.goal) && Heard(feedback) in s.log
    ensures TaskOk(Matched(i, feedback, At(s, i).estimator), s.issued, s.log)
  {
    assert i < |s.sessions| && SessionOk(s.sessions[i], i, s.issued, s.log);
  }

  lemma SessionAt(s: State, i: SessionId)
    requires Inv(s)
    ensures SessionOk(At(s, i), i, s.issued, s.log)
  {
    hide SessionOk, TasksOk, PcOk, CurrentOk, Timely;
    if i >= |s.sessions| {
      FreshIsOk(i, s.issued, s.log);
    }
  }

  lemma FreshIsOk(i: SessionId, issued: map<Goal, Issue>, log: seq<Record>)
    ensures SessionOk(FRESH, i, issued, log)
  {
  }

  lemma FeedbackKeeps(s: State, t: nat)
    requires Inv(s) && t in s.tasks && !s.tasks[t].Deciding? && !s.tasks[t].CallingBack? && !s.tasks[t].GotStatus?
    ensures Inv(TaskNext(s, t))
  {
    hide SessionsOk, PcOk, CurrentOk, Timely, Alive, Lock;
    var task := s.tasks[t];
    EndKeeps(s, t);
    assert TaskOk(task, s.issued, s.log);
    match task {
      case GotFeedback(feedback) =>
        if Lock(s).Some? {
          SetTask(s, t, Checking(Lock(s).value, feedback));
        }
      case Checking(i, feedback) => SetTask(s, t, Copying(i, feedback));
      case Copying(i, feedback) =>
        if At(s, i).goal == Some(feedback.goal) {
          CopyKeeps(s, i, feedback);
          SetTask(s, t, Matched(i, feedback, At(s, i).estimator));
        }
      case Matched(i, feedback, estimator) =>
        SessionAt(s, i);
        var s1 := Put(s, i, At(s, i).(reason := feedback.reason));
        Store(s, i, At(s, i).(reason := feedback.reason));
        EndKeeps(s1, t);
        if estimator.Some? {
          SetTask(s1, t, Entering(i, feedback, estimator.value));
        }
      case Entering(i, feedback, j) => SetTask(s, t, Targeting(i, feedback, j));
      case Targeting(i, feedback, j) =>
        SessionAt(s, j);
        Store(s, j, At(s, j).(target := feedback.index));
        SetTask(Put(s, j, At(s, j).(target := feedback.index)), t, Buffering(i, feedback, j));
      case Buffering(i, feedback, j) =>
        SessionAt(s, j);
        Store(s, j, At(s, j).(pending := Some(feedback)));
        EndKeeps(Put(s, j, At(s, j).(pending := Some(feedback))), t);
    }
  }

  lemma TaskKeeps(s: State, t: nat)
    requires Inv(s) && t in s.tasks
    ensures Inv(TaskNext(s, t))
  {
    hide Inv, Alive, Lock, TaskOk, ChainNext;
    match s.tasks[t] {
      case GotStatus(statuses) =>
        EndKeeps(s, t);
        if Lock(s).Some? {
          Harmless(Deciding(Lock(s).value, statuses), s);
          SetTask(s, t, Deciding(Lock(s).value, statuses));
        }
      case Deciding(i, statuses) => DecideKeeps(s, t, i, statuses);
      case CallingBack(i, chain) =>
        ChainKeeps(s, chain);
        var s1 := ChainNext(s, chain);
        EndKeeps(s1, t);
        var task := CallingBack(i, chain.(stage := NavigationProtocol.After(chain.stage)));
        Harmless(task, s1);
        SetTask(s1, t, task);
      case _ => FeedbackKeeps(s, t);
    }
  }

  // ----- the RMF executor -----

  /** Moving the executor on. */
  lemma Move(s: State, pc: Pc, held: set<SessionId>)
    requires Inv(s) && PcOk(pc, s.wp, s.issued, s.log)
    requires Stopping(s.pc) && !Stopping(pc) ==> s.current.None?
    ensures Inv(s.(pc := pc, held := held))
  {
    hide SessionsOk, TasksOk, PcOk, LastCall, Timely;
  }

  lemma LockKeeps(s: State, call: Call)
    requires Inv(s) && CallOk(call, s.wp) && !Stopping(s.pc)
    ensures Inv(LockSession(s, call))
  {
    hide SessionsOk, TasksOk, CurrentOk, Timely, Alive;
    var session := Lock(s);
    if session.Some? {
      Move(s, Arming(call, session.value), s.held + {session.value});
    } else if call.owner.Some? {
      Move(s, Firing(Begin(Complete(call.owner.value), None)), s.held);
    } else {
      Move(s, Idle, {});
    }
  }

  lemma ArmKeeps(s: State, goal: Goal, accepted: bool)
    requires Inv(s) && s.pc.Arming? && goal !in s.issued
    ensures Inv(Arm(s, goal, accepted))
  {
    hide LastCall, Timely, Live;
    var (call, i) := (s.pc.call, s.pc.session);
    ReleaseKeeps(s, i);
    var s0 := Release(s, i);
    var issue := Issue(i, call.owner, accepted);
    var issued := s0.issued[goal := issue];
    IssueKeeps(s0, goal, issue);
    var s1 := s0.(issued := issued);
    SessionAt(s1, i);
    Store(s1, i, Armed(At(s1, i), goal, call.owner, call.estimator));
    var s2 := Put(s1, i, Armed(At(s1, i), goal, call.owner, call.estimator));
    Move(s2, Sending(i, goal), s2.held);
    PlaceIsFree(s2.(pc := Sending(i, goal)), s0.place[goal := InSession]);
  }

  lemma IssueKeeps(s: State, goal: Goal, issue: Issue)
    requires Inv(s) && goal !in s.issued && s.pc.Arming?
    ensures Inv(s.(issued := s.issued[goal := issue]))
  {
    hide SessionOk, TaskOk, LastCall, Timely;
    var issued := s.issued[goal := issue];
    TimelyGrows(s.issued, issued, s.log, Replanned);
    forall i | 0 <= i < |s.sessions| ensures SessionOk(s.sessions[i], i, issued, s.log) {
      SessionGrows(s.sessions[i], i, s.issued, issued, s.log, s.log);
    }
    forall t | t in s.tasks ensures TaskOk(s.tasks[t], issued, s.log) {
      TaskGrows(s.tasks[t], s.issued, issued, s.log, s.log);
    }
  }

  lemma AnswerKeeps(s: State)
    requires Inv(s) && s.pc.Sending?
    ensures Inv(NavigationProtocol.Answer(s))
  {
    hide SessionsOk, TasksOk, CurrentOk, LastCall, Timely;
    var i := s.pc.session;
    var x := At(s, i);
    Move(s, Idle, {});
    SessionAt(s, i);
    var s0 := if Live(x) then Commit(s, Completion(x), x.goal.value, InExecutor) else s;
    if Live(x) {
      CommitKeeps(s, Completion(x), x.goal.value, InExecutor);
      CommitIsQuiet(s, Completion(x), x.goal.value, InExecutor);
    }
    SessionAt(s0, i);
    Store(s0, i, x.(done := true));
    var s1 := Put(s0, i, x.(done := true));
    if Completion(x).Some? {
      Move(s1, Firing(Begin(Completion(x).value, x.goal)), s1.held);
    } else {
      Move(s1, Idle, {});
    }
  }

  lemma CommitIsQuiet(s: State, callback: Option<Callback>, goal: Goal, place: Place)
    ensures var s1 := Commit(s, callback, goal, place);
      s1.sessions == s.sessions && s1.pc == s.pc && s1.issued == s.issued
  {
  }

  lemma StopKeeps(s: State)
    requires Inv(s)
    requires Stopping(s.pc) || s.pc.StopClearing? || s.pc.Cancelling?
    ensures Inv(ExecutorNext(s))
  {
    hide SessionsOk, TasksOk, CurrentOk, LastCall, Timely, Alive;
    match s.pc {
      case StopCancelling(i) =>
        InvalidateKeeps(s, i);
        CancelInvalidates(s, i);
        Move(CancelSession(s, i), StopReading, {});
      case StopReading =>
        if s.current.Some? {
          Move(s, StopInvalidating(s.current.value), {s.current.value});
        } else {
          Move(s, StopResetting, s.held);
        }
      case StopInvalidating(i) =>
        InvalidateKeeps(s, i);
        Move(Invalidate(s, i), StopResetting, Invalidate(s, i).held);
      case StopResetting =>
        ClearKeeps(s, false, {});
        Move(s.(current := None), StopClearing, s.held);
      case StopClearing =>
        ClearKeeps(s, false, {});
        Move(s.(pendingFailure := false), Idle, {});
      case Cancelling(i) =>
        InvalidateKeeps(s, i);
        CancelInvalidates(s, i);
        Move(CancelSession(s, i), Idle, {});
    }
  }

  lemma FollowKeeps(s: State)
    requires Inv(s)
    requires s.pc.Swapped? || s.pc.Superseded? || s.pc.Cleared?
    ensures Inv(ExecutorNext(s))
  {
    hide SessionsOk, TasksOk, CurrentOk, LastCall, Timely, Alive;
    match s.pc {
      case Swapped(n, wants, previous) =>
        if previous.Some? {
          InvalidateKeeps(s, previous.value);
          Move(Invalidate(s, previous.value), Superseded(n, wants), {n});
        } else {
          Move(s, Superseded(n, wants), {n});
        }
      case Superseded(n, wants) =>
        ClearKeeps(s, false, {});
        Move(s.(pendingFailure := false), Cleared(n, wants), s.held);
      case Cleared(n, wants) =>
        var estimator := if wants then Some(n) else None;
        var x := At(s, n).(rmfEstimator := estimator, failure := Some(n));
        SessionAt(s, n);
        Store(s, n, x);
        Announce(Put(s, n, x), n, Call(Some(PathRequest(n)), estimator));
    }
  }

  lemma Announce(s: State, n: SessionId, call: Call)
    requires Inv(s) && CallOk(call, Some(n)) && s.pc.Cleared?
    ensures Inv(s.(wp := Some(n), pc := Calling(call)))
  {
    hide SessionsOk, TasksOk, LastCall, Timely;
  }

  lemma DrainKeeps(s: State)
    requires Inv(s)
    requires s.pc.Draining? || s.pc.Snapshotting? || s.pc.Estimating?
    ensures Inv(ExecutorNext(s))
  {
    hide SessionsOk, TasksOk, CurrentOk, LastCall, Timely, Alive;
    Move(s, Idle, {});
    match s.pc {
      case Draining(i) => Move(s, Snapshotting(i), s.held);
      case Snapshotting(i) =>
        SessionAt(s, i);
        var taken := Drained(At(s, i));
        if taken.Some? {
          var x := At(s, i).(pending := None);
          Store(s, i, x);
          Move(Put(s, i, x), Estimating(taken.value.0, taken.value.1), s.held);
        }
      case Estimating(request, feedback) =>
        EstimateKeeps(s, request, feedback);
        Move(s.(log := s.log + [Estimated(request, feedback)], pc := Idle), Idle, {});
    }
  }

  lemma EstimateKeeps(s: State, request: SessionId, feedback: Feedback)
    requires Inv(s) && s.pc == Pc.Estimating(request, feedback)
    ensures Inv(s.(log := s.log + [Estimated(request, feedback)], pc := Idle))
  {
    hide SessionOk, TaskOk, LastCall, Timely;
    var r := Estimated(request, feedback);
    LastCallGrows(s.log, r);
    TimelyGrows(s.issued, s.issued, s.log, r);
    forall i | 0 <= i < |s.sessions| ensures SessionOk(s.sessions[i], i, s.issued, s.log + [r]) {
      SessionGrows(s.sessions[i], i, s.issued, s.issued, s.log, s.log + [r]);
    }
    forall t | t in s.tasks ensures TaskOk(s.tasks[t], s.issued, s.log + [r]) {
      TaskGrows(s.tasks[t], s.issued, s.issued, s.log, s.log + [r]);
    }
  }

  lemma ExecutorKeeps(s: State)
    requires Inv(s)
    ensures Inv(ExecutorNext(s))
  {
    hide SessionsOk, TasksOk, CurrentOk, LastCall, Timely, Alive;
    match s.pc {
      case Swapped(_, _, _) => FollowKeeps(s);
      case Superseded(_, _) => FollowKeeps(s);
      case Cleared(_, _) => FollowKeeps(s);
      case Calling(call) => LockKeeps(s, call);
      case Sending(_, _) => AnswerKeeps(s);
      case Firing(chain) =>
        ChainKeeps(s, chain);
        var s1 := ChainNext(s, chain);
        Move(s1, Idle, {});
        Move(s1, Firing(chain.(stage := NavigationProtocol.After(chain.stage))), s1.held);
      case Draining(_) => DrainKeeps(s);
      case Snapshotting(_) => DrainKeeps(s);
      case Estimating(_, _) => DrainKeeps(s);
      case Idle =>
      case Arming(_, _) =>
      case _ => StopKeeps(s);
    }
  }

  /** A call of RMF is logged when it begins; it may move the executor. */
  lemma CallKeeps(s: State, r: Record, sessions: seq<Session>, current: Option<SessionId>, pc: Pc, held: set<SessionId>)
    requires Inv(s) && s.pc.Idle? && SessionsOk(sessions, s.issued, s.log)
    requires if r.Followed? then pc.Swapped? && current == Some(r.request) else r.Stopped? && Stopping(pc)
    ensures Inv(s.(sessions := sessions, current := current, pc := pc, held := held, log := s.log + [r]))
  {
    hide SessionOk, TaskOk, LastCall, Timely;
    LastCallGrows(s.log, r);
    TimelyGrows(s.issued, s.issued, s.log, r);
    forall i | 0 <= i < |sessions| ensures SessionOk(sessions[i], i, s.issued, s.log + [r]) {
      SessionGrows(sessions[i], i, s.issued, s.issued, s.log, s.log + [r]);
    }
    forall t | t in s.tasks ensures TaskOk(s.tasks[t], s.issued, s.log + [r]) {
      TaskGrows(s.tasks[t], s.issued, s.issued, s.log, s.log + [r]);
    }
  }

  lemma BeginKeeps(s: State, e: Step)
    requires Inv(s) && Enabled(s, e) && s.pc.Idle?
    requires e.FollowNewPath? || e.Stop? || e.Cancel? || e.Drain? || e.Execute? || e.TakeFailure?
    ensures Inv(Next(s, e))
  {
    hide SessionOk, TasksOk, LastCall, Timely, Alive, Lock;
    match e {
      case FollowNewPath(wants) =>
        var n := |s.sessions|;
        FreshIsOk(n, s.issued, s.log);
        CallKeeps(s, Followed(n), s.sessions + [FRESH], Some(n), Swapped(n, wants, s.current),
          {n} + (if s.current.Some? then {s.current.value} else {}));
      case Stop =>
        var session := Lock(s);
        if session.Some? {
          CallKeeps(s, Stopped, s.sessions, s.current, StopCancelling(session.value), {session.value});
        } else {
          CallKeeps(s, Stopped, s.sessions, s.current, StopReading, s.held);
        }
      case Execute(owner) => LockKeeps(s, Call(owner, None));
      case Cancel =>
        if Lock(s).Some? {
          Move(s, Cancelling(Lock(s).value), {Lock(s).value});
        }
      case Drain =>
        if s.current.Some? {
          Move(s, Draining(s.current.value), {s.current.value});
        }
      case TakeFailure =>
        ClearKeeps(s, false, {});
        Say(s.(pendingFailure := false), Replanned);
    }
  }

  lemma NextKeeps(s: State, e: Step)
    requires Inv(s) && Enabled(s, e)
    ensures Inv(Next(s, e))
  {
    hide Inv, ExecutorNext, TaskNext, Alive, Lock, TaskOk;
    match e {
      case ArmGoal(goal, accepted) => ArmKeeps(s, goal, accepted);
      case Continue => ExecutorKeeps(s);
      case Advance(t) => TaskKeeps(s, t);
      case FeedbackArrives(t, feedback) =>
        var s1 := s.(log := s.log + [Heard(feedback)]);
        Say(s, Heard(feedback));
        Arrives(feedback, s1);
        SetTask(s1, t, GotFeedback(feedback));
      case StatusArrives(t, statuses) =>
        Harmless(GotStatus(statuses), s);
        SetTask(s, t, GotStatus(statuses));
      case _ => BeginKeeps(s, e);
    }
  }

  lemma Arrives(feedback: Feedback, s: State)
    requires Heard(feedback) in s.log
    ensures TaskOk(GotFeedback(feedback), s.issued, s.log)
  {
  }

  lemma {:induction false} InvHolds(assumed: Assumptions, s: State, run: seq<Step>)
    requires Inv(s) && IsRun(assumed, s, run)
    ensures Inv(Final(assumed, s, run))
    decreases |run|
  {
    hide Inv, Next;
    if run != [] {
      NextKeeps(s, run[0]);
      InvHolds(assumed, Next(s, run[0]), run[1..]);
    }
  }

  lemma EstimatorInv(assumed: Assumptions, run: seq<Step>)
    requires IsRun(assumed, INITIAL, run)
    ensures Inv(Final(assumed, INITIAL, run))
  {
    InvHolds(assumed, INITIAL, run);
  }

  /**
   * On every run, every call of an RMF estimator is that of the path asked for last, with
   * no stop since, and delivers a message received about the goal which that path issued.
   */
  lemma EstimatorIsNeverStale(assumed: Assumptions, run: seq<Step>)
    requires IsRun(assumed, INITIAL, run)
    ensures var s := Final(assumed, INITIAL, run); Timely(s.issued, s.log)
  {
    InvHolds(assumed, INITIAL, run);
  }

  /**
   * On every run, the target index and the failure reason a session shows are initial or
   * came in a message about a goal issued on that session; the target, about its own path.
   */
  lemma ReportsAreOwn(assumed: Assumptions, run: seq<Step>, i: SessionId)
    requires IsRun(assumed, INITIAL, run) && i < |Final(assumed, INITIAL, run).sessions|
    ensures var s := Final(assumed, INITIAL, run); Reported(s.sessions[i], i, s.issued, s.log)
  {
    InvHolds(assumed, INITIAL, run);
    hide TasksOk, PcOk, CurrentOk, Timely, Reported;
    var s := Final(assumed, INITIAL, run);
    assert SessionOk(s.sessions[i], i, s.issued, s.log);
  }
}
