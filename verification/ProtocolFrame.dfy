/** What the steps of the protocol leave alone. */
module ProtocolFrame {
  import opened Common
  import opened NavigationSession
  import opened NavigationProtocol

  /** The goals issued, the messages under way and the pointers of the executor stay. */
  ghost predicate SameContext(s: State, s': State) {
    s'.tasks == s.tasks && s'.issued == s.issued && s'.pc == s.pc && s'.held == s.held && s'.wp == s.wp
  }

  lemma PutFrame(s: State, i: SessionId, x: Session)
    ensures var s1 := Put(s, i, x);
      && SameContext(s, s1) && s1.current == s.current && s1.pendingFailure == s.pendingFailure
      && s1.place == s.place && s1.log == s.log
  {
  }

  lemma CommitFrame(s: State, callback: Option<Callback>, goal: Goal, place: Place)
    ensures var s1 := Commit(s, callback, goal, place);
      && SameContext(s, s1) && s1.current == s.current && s1.pendingFailure == s.pendingFailure
      && s1.sessions == s.sessions
  {
  }

  lemma InvalidateShape(s: State, i: SessionId)
    ensures var s1 := Invalidate(s, i);
      && s1.sessions == (if i < |s.sessions| then s.sessions[i := Invalidated(s.sessions[i])] else s.sessions)
      && SameContext(s, s1) && s1.current == s.current && s1.pendingFailure == s.pendingFailure
  {
    hide Live;
    if Live(At(s, i)) {
      assert Release(s, i).sessions == s.sessions;
    } else {
      assert Release(s, i) == s;
    }
  }

  lemma ChainFrame(s: State, chain: Chain)
    ensures SameContext(s, ChainNext(s, chain))
    ensures !chain.stage.Resetting? ==> ChainNext(s, chain).current == s.current
  {
    hide Invalidate, Alive, Own;
    match chain.stage {
      case Invalidating => InvalidateShape(s, Own(chain.callback));
      case Resetting =>
      case Finishing =>
    }
  }

  lemma AnswerFrame(s: State)
    requires s.pc.Sending?
    ensures var s1 := Answer(s);
      && s1.tasks == s.tasks && s1.issued == s.issued && s1.wp == s.wp && s1.current == s.current
      && s1.pendingFailure == s.pendingFailure
  {
    hide Completion, Begin, Put, Commit, At;
    var x := At(s, s.pc.session);
    if Live(x) {
      var s0 := Commit(s, Completion(x), x.goal.value, InExecutor);
      CommitFrame(s, Completion(x), x.goal.value, InExecutor);
      PutFrame(s0, s.pc.session, x.(done := true));
    } else {
      PutFrame(s, s.pc.session, x.(done := true));
    }
  }

  lemma AnswerEnds(s: State)
    requires s.pc.Sending?
    ensures Answer(s).pc.Idle? || Answer(s).pc.Firing?
  {
    hide Completion, Begin, Put, Commit, At;
  }

  /** The executor leaves the Zenoh callbacks and the issued goals alone. */
  lemma ExecutorFrame(s: State)
    ensures ExecutorNext(s).tasks == s.tasks && ExecutorNext(s).issued == s.issued
  {
    hide Invalidate, CancelSession, ChainNext, Answer, Lock, Drained, Put, At;
    match s.pc {
      case Swapped(_, _, previous) =>
        if previous.Some? {
          InvalidateShape(s, previous.value);
        }
      case Cleared(n, wants) =>
        PutFrame(s, n, At(s, n).(rmfEstimator := if wants then Some(n) else None, failure := Some(n)));
      case StopCancelling(i) => CancelFrame(s, i);
      case Cancelling(i) => CancelFrame(s, i);
      case StopInvalidating(i) => InvalidateShape(s, i);
      case Snapshotting(i) => PutFrame(s, i, At(s, i).(pending := None));
      case Sending(_, _) => AnswerFrame(s);
      case Firing(chain) => ChainFrame(s, chain);
      case _ =>
    }
  }

  lemma CancelFrame(s: State, i: SessionId)
    ensures SameContext(s, CancelSession(s, i)) && CancelSession(s, i).current == s.current
    ensures CancelSession(s, i).pendingFailure == s.pendingFailure
  {
    hide Invalidate, CancelSession;
    CancelInvalidates(s, i);
    InvalidateShape(s, i);
  }

  lemma DecideFrame(s: State, t: nat, i: SessionId, statuses: seq<Status>)
    ensures var s1 := Decide(s, t, i, statuses);
      && s1.issued == s.issued && s1.pc == s.pc && s1.held == s.held && s1.wp == s.wp
      && s1.current == s.current && s1.pendingFailure == s.pendingFailure && OnlyTask(s, s1, t)
      && (t in s1.tasks ==> s1.tasks[t].CallingBack?)
  {
    hide FirstAbout, Taken, Begin, Put, Commit, At;
    var x := At(s, i);
    if Verdict(x, statuses).Some? {
      var s0 := Commit(s, Taken(x, statuses), x.goal.value, InTask(t));
      CommitFrame(s, Taken(x, statuses), x.goal.value, InTask(t));
      PutFrame(s0, i, Invalidated(x));
    }
  }

  /** At most one Zenoh callback changes. */
  ghost predicate OnlyTask(s: State, s': State, t: nat) {
    && (forall u | u in s'.tasks && u != t :: u in s.tasks && s'.tasks[u] == s.tasks[u])
    && (forall u | u in s.tasks && u != t :: u in s'.tasks)
  }

  ghost predicate TaskOnly(s: State, s': State, t: nat) {
    s'.issued == s.issued && s'.pc == s.pc && s'.held == s.held && s'.wp == s.wp && OnlyTask(s, s', t)
  }

  lemma SetOrEnd(s: State, s': State, t: nat, task: Task)
    requires s'.issued == s.issued && s'.pc == s.pc && s'.held == s.held && s'.wp == s.wp
    requires s'.tasks == s.tasks[t := task] || s'.tasks == s.tasks - {t}
    ensures TaskOnly(s, s', t) && (t in s'.tasks ==> s'.tasks[t] == task)
  {
  }

  lemma MessageFrame(s: State, t: nat)
    requires t in s.tasks && !s.tasks[t].Deciding? && !s.tasks[t].CallingBack?
    ensures var s1 := TaskNext(s, t);
      && TaskOnly(s, s1, t) && s1.pendingFailure == s.pendingFailure && s1.log == s.log
      && (t in s1.tasks ==>
            !s1.tasks[t].CallingBack?
            && (StatusesOf(s1.tasks[t]) == [] || StatusesOf(s1.tasks[t]) == StatusesOf(s.tasks[t])))
  {
    hide Lock, Alive, At, Put, TaskOnly;
    var s1 := TaskNext(s, t);
    var task := if t in s1.tasks then s1.tasks[t] else s.tasks[t];
    match s.tasks[t] {
      case Matched(i, feedback, _) => PutFrame(s, i, At(s, i).(reason := feedback.reason));
      case Targeting(_, feedback, j) => PutFrame(s, j, At(s, j).(target := feedback.index));
      case Buffering(_, feedback, j) => PutFrame(s, j, At(s, j).(pending := Some(feedback)));
      case _ =>
    }
    SetOrEnd(s, s1, t, task);
  }

  /** A Zenoh callback leaves the executor, the issued goals and the other callbacks alone. */
  lemma TaskFrame(s: State, t: nat)
    requires t in s.tasks
    ensures var s1 := TaskNext(s, t);
      && TaskOnly(s, s1, t)
      && (t in s1.tasks ==> StatusesOf(s1.tasks[t]) == [] || StatusesOf(s1.tasks[t]) == StatusesOf(s.tasks[t]))
  {
    hide Decide, ChainNext;
    match s.tasks[t] {
      case Deciding(i, statuses) => DecideFrame(s, t, i, statuses);
      case CallingBack(i, chain) =>
        ChainFrame(s, chain);
        SetOrEnd(s, TaskNext(s, t), t, CallingBack(i, chain.(stage := After(chain.stage))));
      case _ => MessageFrame(s, t);
    }
  }

  // ----- the log only grows -----

  lemma InvalidateLog(s: State, i: SessionId)
    ensures s.log <= Invalidate(s, i).log && s.log <= CancelSession(s, i).log
  {
  }

  lemma ChainLog(s: State, chain: Chain)
    ensures s.log <= ChainNext(s, chain).log
  {
    hide Invalidate, Alive;
    if chain.stage.Invalidating? {
      InvalidateLog(s, Own(chain.callback));
    }
  }

  lemma CommitLog(s: State, callback: Option<Callback>, goal: Goal, place: Place)
    ensures s.log <= Commit(s, callback, goal, place).log
  {
  }

  lemma AnswerLog(s: State)
    requires s.pc.Sending?
    ensures s.log <= Answer(s).log
  {
    hide Completion, Begin, Put, Commit, At;
    var x := At(s, s.pc.session);
    if Live(x) {
      var s0 := Commit(s, Completion(x), x.goal.value, InExecutor);
      CommitLog(s, Completion(x), x.goal.value, InExecutor);
      PutFrame(s0, s.pc.session, x.(done := true));
    } else {
      PutFrame(s, s.pc.session, x.(done := true));
    }
  }

  lemma ExecutorLog(s: State)
    ensures s.log <= ExecutorNext(s).log
  {
    hide Invalidate, CancelSession, ChainNext, Answer, Lock, Drained, Put, At;
    match s.pc {
      case Swapped(_, _, previous) =>
        if previous.Some? {
          InvalidateLog(s, previous.value);
        }
      case Cleared(n, wants) =>
        PutFrame(s, n, At(s, n).(rmfEstimator := if wants then Some(n) else None, failure := Some(n)));
      case StopCancelling(i) => InvalidateLog(s, i);
      case Cancelling(i) => InvalidateLog(s, i);
      case StopInvalidating(i) => InvalidateLog(s, i);
      case Snapshotting(i) => PutFrame(s, i, At(s, i).(pending := None));
      case Sending(_, _) => AnswerLog(s);
      case Firing(chain) => ChainLog(s, chain);
      case _ =>
    }
  }

  lemma TaskLog(s: State, t: nat)
    requires t in s.tasks
    ensures s.log <= TaskNext(s, t).log
  {
    hide Lock, Alive, At, Put, ChainNext, Commit, FirstAbout, Taken;
    match s.tasks[t] {
      case Deciding(i, statuses) =>
        var x := At(s, i);
        if Verdict(x, statuses).Some? {
          var s0 := Commit(s, Taken(x, statuses), x.goal.value, InTask(t));
          CommitLog(s, Taken(x, statuses), x.goal.value, InTask(t));
          PutFrame(s0, i, Invalidated(x));
        }
      case CallingBack(_, chain) => ChainLog(s, chain);
      case Matched(i, feedback, _) => PutFrame(s, i, At(s, i).(reason := feedback.reason));
      case Targeting(_, feedback, j) => PutFrame(s, j, At(s, j).(target := feedback.index));
      case Buffering(_, feedback, j) => PutFrame(s, j, At(s, j).(pending := Some(feedback)));
      case _ =>
    }
  }

  // ----- no step but arming gives a session a goal -----

  predicate Carries(sessions: seq<Session>, i: SessionId) {
    i < |sessions| && sessions[i].goal.Some?
  }

  /** Sessions keep their goals or lose them, and none goes away. */
  ghost predicate NoNewGoals(sessions: seq<Session>, sessions': seq<Session>) {
    && |sessions| <= |sessions'|
    && forall i: SessionId | Carries(sessions', i) ::
         Carries(sessions, i) && sessions'[i].goal == sessions[i].goal && (sessions[i].done ==> sessions'[i].done)
  }

  lemma PutDrops(s: State, i: SessionId, y: Session)
    requires y.goal.None? || (y.goal == At(s, i).goal && (At(s, i).done ==> y.done))
    ensures NoNewGoals(s.sessions, Put(s, i, y).sessions)
  {
  }

  lemma NothingDrops(sessions: seq<Session>)
    ensures NoNewGoals(sessions, sessions)
  {
  }

  lemma InvalidateDrops(s: State, i: SessionId)
    ensures NoNewGoals(s.sessions, Invalidate(s, i).sessions)
  {
    hide Live;
    InvalidateShape(s, i);
  }

  lemma CancelDrops(s: State, i: SessionId)
    ensures NoNewGoals(s.sessions, CancelSession(s, i).sessions)
  {
    hide Invalidate, CancelSession, NoNewGoals;
    CancelInvalidates(s, i);
    InvalidateDrops(s, i);
    NothingDrops(s.sessions);
  }

  lemma ChainDrops(s: State, chain: Chain)
    ensures NoNewGoals(s.sessions, ChainNext(s, chain).sessions)
  {
    hide Invalidate, Alive, NoNewGoals;
    NothingDrops(s.sessions);
    if chain.stage.Invalidating? {
      InvalidateDrops(s, Own(chain.callback));
    }
  }

  lemma TaskDrops(s: State, t: nat)
    requires t in s.tasks
    ensures NoNewGoals(s.sessions, TaskNext(s, t).sessions)
  {
    hide ChainNext, Alive, Lock, Verdict, Taken, NoNewGoals;
    NothingDrops(s.sessions);
    match s.tasks[t] {
      case CallingBack(i, chain) => ChainDrops(s, chain);
      case Matched(i, feedback, _) => PutDrops(s, i, At(s, i).(reason := feedback.reason));
      case Targeting(_, feedback, j) => PutDrops(s, j, At(s, j).(target := feedback.index));
      case Buffering(_, feedback, j) => PutDrops(s, j, At(s, j).(pending := Some(feedback)));
      case Deciding(i, _) => PutDrops(s, i, Invalidated(At(s, i)));
      case _ =>
    }
  }

  lemma AnswerDrops(s: State)
    requires s.pc.Sending?
    ensures NoNewGoals(s.sessions, Answer(s).sessions)
  {
    hide Live, Completion, NoNewGoals;
    var i := s.pc.session;
    NothingDrops(s.sessions);
    PutDrops(s, i, At(s, i).(done := true));
  }

  lemma ExecutorDrops(s: State)
    ensures NoNewGoals(s.sessions, ExecutorNext(s).sessions)
  {
    hide Answer, ChainNext, Lock, Drained, NoNewGoals, Invalidate, CancelSession, At;
    NothingDrops(s.sessions);
    match s.pc {
      case Swapped(_, _, previous) =>
        if previous.Some? {
          InvalidateDrops(s, previous.value);
        }
      case Cleared(n, wants) =>
        PutDrops(s, n, At(s, n).(rmfEstimator := if wants then Some(n) else None, failure := Some(n)));
      case Sending(_, _) => AnswerDrops(s);
      case Firing(chain) => ChainDrops(s, chain);
      case StopCancelling(i) => CancelDrops(s, i);
      case StopInvalidating(i) => InvalidateDrops(s, i);
      case Cancelling(i) => CancelDrops(s, i);
      case Snapshotting(i) => PutDrops(s, i, At(s, i).(pending := None));
      case _ =>
    }
  }

  lemma NextDrops(s: State, e: Step)
    requires Enabled(s, e) && !e.ArmGoal?
    ensures NoNewGoals(s.sessions, Next(s, e).sessions)
  {
    hide TaskNext, ExecutorNext, Alive, Lock;
    match e {
      case Continue => ExecutorDrops(s);
      case Advance(t) => TaskDrops(s, t);
      case _ =>
    }
  }

  // ----- who lets go of the current session -----

  lemma TaskKeepsCurrent(s: State, t: nat)
    requires t in s.tasks && !(s.tasks[t].CallingBack? && s.tasks[t].chain.stage.Resetting?)
    ensures TaskNext(s, t).current == s.current && TaskNext(s, t).pc == s.pc
  {
    hide Alive, Lock, Invalidate, Decide, ChainNext;
    match s.tasks[t] {
      case CallingBack(_, chain) => ChainFrame(s, chain);
      case Deciding(i, statuses) => DecideFrame(s, t, i, statuses);
      case _ =>
    }
  }

  lemma ExecutorKeepsCurrent(s: State)
    requires !s.pc.Swapped? && !s.pc.Firing? && !s.pc.StopResetting?
    ensures ExecutorNext(s).current == s.current
  {
    hide Lock, Invalidate, CancelSession, Answer, Drained, At, Put;
    match s.pc {
      case StopCancelling(i) => CancelFrame(s, i);
      case StopInvalidating(i) => InvalidateShape(s, i);
      case Cancelling(i) => CancelFrame(s, i);
      case Sending(_, _) => AnswerFrame(s);
      case Cleared(n, wants) =>
        PutFrame(s, n, At(s, n).(rmfEstimator := if wants then Some(n) else None, failure := Some(n)));
      case Snapshotting(i) => PutFrame(s, i, At(s, i).(pending := None));
      case _ =>
    }
  }
}
