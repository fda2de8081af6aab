/**
 * The failure flag between the Zenoh status thread and the update tick. It says that the
 * path asked for last has failed, exactly as long as no failure callback strays: one taken
 * for a dock or an action, or for a path that RMF has replaced or stopped. Assumes
 * acceptedOnly; callbacks need not be atomic.
 */
module FailureFlag {
  import opened Common
  import opened NavigationSession
  import opened NavigationProtocol
  import opened F = ProtocolFrame
  import G = GoalAccounting
  import E = EstimatorSafety

  /** The goal is the path's own. */
  predicate OwnGoal(issued: map<Goal, Issue>, i: SessionId, g: Goal) {
    g in issued && issued[g].owner == Some(PathRequest(i))
  }

  /**
   * The own goal of the path asked for last has failed, and no replan, path or stop came
   * since.
   */
  function Outstanding(issued: map<Goal, Issue>, log: seq<Record>): bool {
    if log == [] then false
    else
      var (rest, r) := (log[..|log| - 1], log[|log| - 1]);
      if r.Followed? || r.Stopped? || r.Replanned? then false
      else FailsLast(issued, rest, r) || Outstanding(issued, rest)
  }

  /** The record says that the own goal of the path asked for last failed. */
  predicate FailsLast(issued: map<Goal, Issue>, log: seq<Record>, r: Record) {
    r.Failed? && E.LastCall(log) == Some(r.session) && OwnGoal(issued, r.session, r.goal)
  }

  lemma OutstandingGrows(issued: map<Goal, Issue>, log: seq<Record>, r: Record)
    ensures Outstanding(issued, log + [r]) ==
            if r.Followed? || r.Stopped? || r.Replanned? then false
            else FailsLast(issued, log, r) || Outstanding(issued, log)
  {
    assert (log + [r])[..|log|] == log;
  }

  /** Every replan answered a failure that was outstanding. */
  ghost predicate Justified(issued: map<Goal, Issue>, log: seq<Record>) {
    forall k | 0 <= k < |log| && log[k].Replanned? :: Outstanding(issued, log[..k])
  }

  lemma JustifiedGrows(issued: map<Goal, Issue>, log: seq<Record>, r: Record)
    requires Justified(issued, log) && (r.Replanned? ==> Outstanding(issued, log))
    ensures Justified(issued, log + [r])
  {
    hide Outstanding;
    forall k | 0 <= k < |log + [r]| && (log + [r])[k].Replanned? ensures Outstanding(issued, (log + [r])[..k]) {
      assert (log + [r])[..k] == log[..k];
      assert log[..|log|] == log;
      assert k < |log| ==> log[k].Replanned?;
    }
  }

  /** Issuing another goal says nothing about failures already logged. */
  lemma {:induction false} IssuingIsSilent(issued: map<Goal, Issue>, g: Goal, issue: Issue, log: seq<Record>)
    requires G.LogOk(log, issued) && g !in issued
    ensures Outstanding(issued[g := issue], log) == Outstanding(issued, log)
  {
    if log != [] {
      var rest := log[..|log| - 1];
      assert G.RecordOk(log[|log| - 1], issued);
      assert G.LogOk(rest, issued) by { PrefixOk(log, issued, |log| - 1); }
      IssuingIsSilent(issued, g, issue, rest);
    }
  }

  lemma PrefixOk(log: seq<Record>, issued: map<Goal, Issue>, k: nat)
    requires G.LogOk(log, issued) && k <= |log|
    ensures G.LogOk(log[..k], issued)
  {
    hide G.RecordOk;
  }

  lemma IssuingJustifies(issued: map<Goal, Issue>, g: Goal, issue: Issue, log: seq<Record>)
    requires G.LogOk(log, issued) && g !in issued && Justified(issued, log)
    ensures Justified(issued[g := issue], log)
  {
    hide Outstanding, G.LogOk;
    forall k | 0 <= k < |log| && log[k].Replanned? ensures Outstanding(issued[g := issue], log[..k]) {
      PrefixOk(log, issued, k);
      IssuingIsSilent(issued, g, issue, log[..k]);
    }
  }

  // ----- when the flag is right -----

  /** A new path has begun and has not cleared the flag yet. */
  predicate Beginning(pc: Pc) {
    pc.Swapped? || pc.Superseded?
  }

  predicate InStop(pc: Pc) {
    E.Stopping(pc) || pc.StopClearing?
  }

  /** RMF is in a call that is about to clear the flag. */
  predicate Clearing(pc: Pc) {
    Beginning(pc) || InStop(pc)
  }

  /** Unless a call is about to clear it, the flag is up exactly when a failure is outstanding. */
  ghost predicate FlagRight(s: State) {
    !Clearing(s.pc) ==> (s.pendingFailure <==> Outstanding(s.issued, s.log))
  }

  /** The callback whose stage the step runs. */
  function ChainOf(s: State, e: Step): Option<Chain> {
    if e.Advance? && e.task in s.tasks && s.tasks[e.task].CallingBack? then Some(s.tasks[e.task].chain)
    else if e.Continue? && s.pc.Firing? then Some(s.pc.chain)
    else None
  }

  /** The step ends a failure callback: it raises the flag. */
  predicate Raises(s: State, e: Step) {
    && ChainOf(s, e).Some?
    && ChainOf(s, e).value.callback.Fail? && ChainOf(s, e).value.stage.Finishing? && ChainOf(s, e).value.goal.Some?
  }

  /** The failure raised is not that of the own goal of the path asked for last. */
  predicate Misses(s: State, chain: Chain)
    requires chain.callback.Fail? && chain.goal.Some?
  {
    !(E.LastCall(s.log) == Some(chain.callback.session) && OwnGoal(s.issued, chain.callback.session, chain.goal.value))
  }

  /** Such a failure is raised while the flag is down and no call is about to clear it. */
  predicate Strays(s: State, e: Step) {
    Raises(s, e) && Misses(s, ChainOf(s, e).value) && !s.pendingFailure && !Clearing(s.pc)
  }

  // ----- what holds in any case -----

  ghost predicate Inv(s: State) {
    && (Beginning(s.pc) ==> !Outstanding(s.issued, s.log))
    && (InStop(s.pc) ==> !Outstanding(s.issued, s.log) && E.LastCall(s.log) == None)
    && (forall r: SessionId | G.Starting(s.pc, r) :: E.LastCall(s.log) == Some(r))
  }

  predicate Neutral(r: Record) {
    !r.Followed? && !r.Stopped? && !r.Replanned? && !r.Failed?
  }

  /** The log grows by at most one record that says nothing about failures or calls. */
  ghost predicate Hushed(log: seq<Record>, log': seq<Record>) {
    log' == log || exists r :: Neutral(r) && log' == log + [r]
  }

  lemma HushedKeeps(issued: map<Goal, Issue>, log: seq<Record>, log': seq<Record>)
    requires Hushed(log, log')
    ensures E.LastCall(log') == E.LastCall(log) && Outstanding(issued, log') == Outstanding(issued, log)
    ensures Justified(issued, log) ==> Justified(issued, log')
  {
    hide Justified, Outstanding, E.LastCall;
    if log' != log {
      var r :| Neutral(r) && log' == log + [r];
      E.LastCallGrows(log, r);
      OutstandingGrows(issued, log, r);
      if Justified(issued, log) {
        JustifiedGrows(issued, log, r);
      }
    }
  }

  /** All that is followed of the flag. */
  ghost predicate Same(s: State, s': State) {
    && (Inv(s) ==> Inv(s')) && (FlagRight(s) ==> FlagRight(s'))
    && (Justified(s.issued, s.log) ==> Justified(s'.issued, s'.log))
  }

  /** The executor stays at a point of the same kind. */
  ghost predicate SameKind(pc: Pc, pc': Pc) {
    Beginning(pc') == Beginning(pc) && InStop(pc') == InStop(pc) && forall r: SessionId | G.Starting(pc', r) :: G.Starting(pc, r)
  }

  /** A step that says nothing, keeps the flag and moves between points of one kind. */
  lemma HushedStep(s: State, s': State)
    requires Hushed(s.log, s'.log) && s'.pendingFailure == s.pendingFailure && s'.issued == s.issued
    requires SameKind(s.pc, s'.pc)
    ensures Same(s, s')
  {
    hide Outstanding, E.LastCall, Justified, Hushed, G.Starting;
    HushedKeeps(s.issued, s.log, s'.log);
  }

  // ----- the steps that say nothing -----

  lemma SameIsHushed(log: seq<Record>)
    ensures Hushed(log, log)
  {
  }

  lemma SayHushed(log: seq<Record>, r: Record)
    requires Neutral(r)
    ensures Hushed(log, log + [r])
  {
  }

  lemma InvalidateHushed(s: State, i: SessionId)
    ensures Hushed(s.log, Invalidate(s, i).log) && Hushed(s.log, CancelSession(s, i).log)
  {
    if Live(At(s, i)) {
      assert Neutral(Withdrawn(At(s, i).goal.value));
    }
  }

  lemma CommitHushed(s: State, callback: Option<Callback>, goal: Goal, place: Place)
    ensures Hushed(s.log, Commit(s, callback, goal, place).log)
  {
    assert Neutral(Unheard(goal));
  }

  /** Every stage of a callback but the end of a failure. */
  lemma ChainHushed(s: State, chain: Chain)
    requires !(chain.callback.Fail? && chain.stage.Finishing?)
    ensures Hushed(s.log, ChainNext(s, chain).log) && ChainNext(s, chain).pendingFailure == s.pendingFailure
  {
    hide Invalidate, Alive, Own;
    match chain.stage {
      case Invalidating =>
        InvalidateHushed(s, Own(chain.callback));
        InvalidateShape(s, Own(chain.callback));
      case Resetting =>
      case Finishing =>
        if chain.goal.Some? {
          assert Neutral(Fired(chain.callback.owner, chain.goal.value));
        } else {
          assert Neutral(Bypassed(chain.callback.owner));
        }
    }
  }

  lemma AnswerHushed(s: State)
    requires s.pc.Sending?
    ensures Hushed(s.log, Answer(s).log) && (Answer(s).pc.Idle? || Answer(s).pc.Firing?)
  {
    hide Hushed, Begin, Put, Commit, At, Completion;
    var x := At(s, s.pc.session);
    SameIsHushed(s.log);
    if Live(x) {
      var s0 := Commit(s, Completion(x), x.goal.value, InExecutor);
      CommitHushed(s, Completion(x), x.goal.value, InExecutor);
      PutFrame(s0, s.pc.session, x.(done := true));
    } else {
      PutFrame(s, s.pc.session, x.(done := true));
    }
  }

  lemma LockHushed(s: State, call: Call)
    ensures var s' := LockSession(s, call);
      && s'.log == s.log && s'.pendingFailure == s.pendingFailure && s'.issued == s.issued
      && (s'.pc.Idle? || s'.pc.Firing? || (s'.pc.Arming? && s'.pc.call == call))
  {
    hide Lock;
  }

  // ----- the executor -----

  lemma FollowKeeps(s: State)
    requires s.pc.Swapped? || s.pc.Superseded? || s.pc.Cleared?
    requires Inv(s)
    ensures Same(s, ExecutorNext(s))
  {
    hide Hushed, Outstanding, E.LastCall, Justified, Invalidate, Put, At;
    SameIsHushed(s.log);
    match s.pc {
      case Swapped(n, _, previous) =>
        if previous.Some? {
          InvalidateHushed(s, previous.value);
          InvalidateShape(s, previous.value);
        }
        HushedStep(s, ExecutorNext(s));
      case Superseded(_, _) =>
      case Cleared(n, wants) =>
        PutFrame(s, n, At(s, n).(rmfEstimator := if wants then Some(n) else None, failure := Some(n)));
        HushedStep(s, ExecutorNext(s));
    }
  }

  lemma CancelKeeps(s: State, i: SessionId)
    requires s.pc.StopCancelling? || s.pc.Cancelling?
    requires s.pc.session == i
    ensures Same(s, ExecutorNext(s))
  {
    hide Hushed, Same, CancelSession;
    InvalidateHushed(s, i);
    CancelFrame(s, i);
    HushedStep(s, ExecutorNext(s));
  }

  lemma StopKeeps(s: State)
    requires InStop(s.pc) || s.pc.Cancelling?
    requires Inv(s)
    ensures Same(s, ExecutorNext(s))
  {
    hide Hushed, Outstanding, E.LastCall, Justified, Invalidate, CancelSession;
    SameIsHushed(s.log);
    match s.pc {
      case StopCancelling(i) => CancelKeeps(s, i);
      case Cancelling(i) => CancelKeeps(s, i);
      case StopInvalidating(i) =>
        InvalidateHushed(s, i);
        InvalidateShape(s, i);
        HushedStep(s, ExecutorNext(s));
      case StopClearing =>
      case _ => HushedStep(s, ExecutorNext(s));
    }
  }

  lemma PlainKeeps(s: State)
    requires s.pc.Idle? || s.pc.Arming? || s.pc.Calling? || s.pc.Sending?
          || s.pc.Draining? || s.pc.Snapshotting? || s.pc.Estimating?
    ensures !s.pc.Arming? ==> Same(s, ExecutorNext(s))
  {
    hide Hushed, Same, Answer, LockSession, Drained, At, Put;
    SameIsHushed(s.log);
    match s.pc {
      case Calling(call) =>
        LockHushed(s, call);
        HushedStep(s, ExecutorNext(s));
      case Sending(_, _) =>
        AnswerHushed(s);
        AnswerFrame(s);
        HushedStep(s, ExecutorNext(s));
      case Estimating(request, feedback) =>
        SayHushed(s.log, Estimated(request, feedback));
        HushedStep(s, ExecutorNext(s));
      case Snapshotting(i) =>
        PutFrame(s, i, At(s, i).(pending := None));
        HushedStep(s, ExecutorNext(s));
      case Arming(_, _) =>
      case _ => HushedStep(s, ExecutorNext(s));
    }
  }

  lemma FiringHushed(s: State)
    requires s.pc.Firing? && !(s.pc.chain.callback.Fail? && s.pc.chain.stage.Finishing?)
    ensures Same(s, ExecutorNext(s))
  {
    hide Hushed, Same, ChainNext;
    ChainHushed(s, s.pc.chain);
    ChainFrame(s, s.pc.chain);
    HushedStep(s, ExecutorNext(s));
  }

  // ----- Zenoh callbacks -----

  lemma TaskHushed(s: State, t: nat)
    requires t in s.tasks
    requires s.tasks[t].CallingBack? ==>
      !(s.tasks[t].chain.callback.Fail? && s.tasks[t].chain.stage.Finishing?)
    ensures Same(s, TaskNext(s, t))
  {
    hide Hushed, Same, ChainNext, Decide, FirstAbout, Taken, Commit, Put, TaskNext;
    SameIsHushed(s.log);
    match s.tasks[t] {
      case Deciding(i, statuses) => DecideHushed(s, t, i, statuses);
      case CallingBack(_, _) => CallbackHushed(s, t);
      case _ =>
        MessageFrame(s, t);
        HushedStep(s, TaskNext(s, t));
    }
  }

  lemma CallbackHushed(s: State, t: nat)
    requires t in s.tasks && s.tasks[t].CallingBack?
    requires !(s.tasks[t].chain.callback.Fail? && s.tasks[t].chain.stage.Finishing?)
    ensures Same(s, TaskNext(s, t))
  {
    hide Hushed, Same, ChainNext;
    ChainHushed(s, s.tasks[t].chain);
    ChainFrame(s, s.tasks[t].chain);
    HushedStep(s, TaskNext(s, t));
  }

  lemma DecideHushed(s: State, t: nat, i: SessionId, statuses: seq<Status>)
    requires t in s.tasks && s.tasks[t] == Deciding(i, statuses)
    ensures Same(s, TaskNext(s, t))
  {
    hide Hushed, Same, FirstAbout, Taken, Commit, Put;
    SameIsHushed(s.log);
    DecideFrame(s, t, i, statuses);
    var x := At(s, i);
    if Verdict(x, statuses).Some? {
      var s0 := Commit(s, Taken(x, statuses), x.goal.value, InTask(t));
      CommitHushed(s, Taken(x, statuses), x.goal.value, InTask(t));
      PutFrame(s0, i, Invalidated(x));
    }
    HushedStep(s, TaskNext(s, t));
  }

  // ----- raising the flag -----

  /** A session whose failure callback runs belongs to no path that is beginning. */
  lemma RaisesForIssued(s: State, e: Step)
    requires G.Inv(s) && Enabled(s, e) && Raises(s, e)
    ensures var chain := ChainOf(s, e).value;
      chain.goal.value in s.issued && !G.Starting(s.pc, chain.callback.session)
      && s.issued[chain.goal.value].session == chain.callback.session
  {
    hide G.IssuesOk, G.SessionsOk, G.CountsOk, G.LogOk, G.RequestsOk;
    var chain := ChainOf(s, e).value;
    if e.Advance? {
      assert G.TaskOk(s.tasks[e.task], e.task, s.issued, s.place);
    }
    G.IssuedBusy(s, chain.goal.value);
  }

  lemma RaiseShape(s: State, e: Step)
    requires Enabled(s, e) && Raises(s, e)
    ensures var (s', chain) := (Next(s, e), ChainOf(s, e).value);
      && s'.log == s.log + [Failed(chain.callback.session, chain.goal.value)] && s'.pendingFailure
      && s'.issued == s.issued && (s'.pc == s.pc || (s.pc.Firing? && s'.pc.Idle?))
  {
    hide Live;
  }

  /** The flag is still right after a raise exactly when the failure does not stray. */
  lemma RaiseKeeps(s: State, e: Step)
    requires G.Inv(s) && Inv(s) && Enabled(s, e) && Raises(s, e)
    ensures Inv(Next(s, e))
    ensures FlagRight(s) ==> (FlagRight(Next(s, e)) <==> !Strays(s, e))
    ensures Justified(s.issued, s.log) ==> Justified(Next(s, e).issued, Next(s, e).log)
  {
    hide G.Inv, Next, Outstanding, E.LastCall, Justified, Raises, ChainOf;
    ChainIsFailure(s, e);
    var chain := ChainOf(s, e).value;
    var r := Failed(chain.callback.session, chain.goal.value);
    RaisesForIssued(s, e);
    RaiseShape(s, e);
    OutstandingGrows(s.issued, s.log, r);
    E.LastCallGrows(s.log, r);
    if Justified(s.issued, s.log) {
      JustifiedGrows(s.issued, s.log, r);
    }
    assert Beginning(s.pc) ==> G.Starting(s.pc, s.pc.request);
  }

  lemma ChainIsFailure(s: State, e: Step)
    requires Raises(s, e)
    ensures ChainOf(s, e).Some? && ChainOf(s, e).value.callback.Fail? && ChainOf(s, e).value.goal.Some?
  {
  }

  // ----- every step -----

  lemma ExecutorKeeps(s: State)
    requires Inv(s) && Enabled(s, Continue)
    requires s.pc.Firing? ==> !(s.pc.chain.callback.Fail? && s.pc.chain.stage.Finishing?)
    ensures Same(s, ExecutorNext(s))
  {
    hide Inv, Same, ExecutorNext;
    match s.pc {
      case Swapped(_, _, _) => FollowKeeps(s);
      case Superseded(_, _) => FollowKeeps(s);
      case Cleared(_, _) => FollowKeeps(s);
      case StopCancelling(_) => StopKeeps(s);
      case StopReading => StopKeeps(s);
      case StopInvalidating(_) => StopKeeps(s);
      case StopResetting => StopKeeps(s);
      case StopClearing => StopKeeps(s);
      case Cancelling(_) => StopKeeps(s);
      case Firing(_) => FiringHushed(s);
      case _ => PlainKeeps(s);
    }
  }

  lemma ArmKeeps(s: State, e: Step)
    requires G.Inv(s) && Enabled(s, e) && e.ArmGoal?
    ensures Same(s, Next(s, e))
  {
    hide Hushed, Outstanding, E.LastCall, Justified, G.IssuesOk, G.SessionsOk, G.TasksOk, G.PcOk, G.CountsOk,
      G.LogOk, G.RequestsOk, Next;
    var s' := Next(s, e);
    var issue := Issue(s.pc.session, s.pc.call.owner, e.accepted);
    ArmShape(s, e);
    IssuingIsSilent(s.issued, e.goal, issue, s.log);
    if Justified(s.issued, s.log) {
      IssuingJustifies(s.issued, e.goal, issue, s.log);
    }
    HushedKeeps(s'.issued, s.log, s'.log);
  }

  lemma ArmShape(s: State, e: Step)
    requires Enabled(s, e) && e.ArmGoal?
    ensures var s' := Next(s, e);
      && s'.issued == s.issued[e.goal := Issue(s.pc.session, s.pc.call.owner, e.accepted)]
      && s'.pc.Sending? && s'.pendingFailure == s.pendingFailure && Hushed(s.log, s'.log)
  {
    if Live(At(s, s.pc.session)) {
      assert Neutral(Withdrawn(At(s, s.pc.session).goal.value));
    }
  }

  /** RMF asks for something, or takes the failure. */
  lemma BeginKeeps(s: State, e: Step)
    requires Inv(s) && Enabled(s, e) && s.pc.Idle?
    requires e.FollowNewPath? || e.Stop? || e.Cancel? || e.Drain? || e.Execute? || e.TakeFailure?
    ensures Inv(Next(s, e)) && (FlagRight(s) ==> FlagRight(Next(s, e)))
    ensures FlagRight(s) && Justified(s.issued, s.log) ==> Justified(Next(s, e).issued, Next(s, e).log)
  {
    hide Hushed, Outstanding, E.LastCall, Justified, Lock, LockSession;
    SameIsHushed(s.log);
    match e {
      case FollowNewPath(_) =>
        E.LastCallGrows(s.log, Followed(|s.sessions|));
        OutstandingGrows(s.issued, s.log, Followed(|s.sessions|));
        if Justified(s.issued, s.log) {
          JustifiedGrows(s.issued, s.log, Followed(|s.sessions|));
        }
      case Stop =>
        E.LastCallGrows(s.log, Stopped);
        OutstandingGrows(s.issued, s.log, Stopped);
        if Justified(s.issued, s.log) {
          JustifiedGrows(s.issued, s.log, Stopped);
        }
      case TakeFailure =>
        OutstandingGrows(s.issued, s.log, Replanned);
        if FlagRight(s) && Justified(s.issued, s.log) && s.pendingFailure {
          JustifiedGrows(s.issued, s.log, Replanned);
        }
      case Execute(owner) =>
        LockHushed(s, Call(owner, None));
        HushedStep(s, Next(s, e));
      case Cancel => HushedStep(s, Next(s, e));
      case Drain => HushedStep(s, Next(s, e));
    }
  }

  /** A failure callback that ends was taken for a goal. */
  lemma FailuresHaveGoals(s: State, e: Step)
    requires G.Inv(s) && Enabled(s, e) && ChainOf(s, e).Some?
    requires ChainOf(s, e).value.callback.Fail? && ChainOf(s, e).value.stage.Finishing?
    ensures Raises(s, e)
  {
    hide G.IssuesOk, G.SessionsOk, G.CountsOk, G.LogOk, G.RequestsOk;
    if e.Advance? {
      assert G.TaskOk(s.tasks[e.task], e.task, s.issued, s.place);
    }
  }

  /** A step keeps the flag right exactly when it does not stray. */
  lemma FlagStep(s: State, e: Step)
    requires G.Inv(s) && Inv(s) && Enabled(s, e)
    ensures Inv(Next(s, e))
    ensures FlagRight(s) ==> (FlagRight(Next(s, e)) <==> !Strays(s, e))
    ensures FlagRight(s) && Justified(s.issued, s.log) ==> Justified(Next(s, e).issued, Next(s, e).log)
  {
    hide G.Inv, Outstanding, E.LastCall, Justified, ExecutorNext, TaskNext, Hushed, Lock;
    if ChainOf(s, e).Some? && ChainOf(s, e).value.callback.Fail? && ChainOf(s, e).value.stage.Finishing? {
      FailuresHaveGoals(s, e);
      RaiseKeeps(s, e);
    } else {
      match e {
        case Continue => ExecutorKeeps(s);
        case Advance(t) => TaskHushed(s, t);
        case ArmGoal(_, _) => ArmKeeps(s, e);
        case FeedbackArrives(_, feedback) =>
          SayHushed(s.log, NavigationProtocol.Heard(feedback));
          HushedStep(s, Next(s, e));
        case StatusArrives(_, _) =>
          SameIsHushed(s.log);
          HushedStep(s, Next(s, e));
        case _ => BeginKeeps(s, e);
      }
    }
  }

  // ----- runs -----

  lemma {:induction false} FlagIffFrom(assumed: Assumptions, s: State, run: seq<Step>)
    requires assumed.acceptedOnly && IsRun(assumed, s, run)
    requires G.Inv(s) && G.StatusesOk(s) && Inv(s) && FlagRight(s)
    ensures Always(assumed, FlagRight, s, run) <==> !Sometime(assumed, Strays, s, run)
    decreases |run|
  {
    hide G.Inv, G.StatusesOk, Inv, FlagRight, Strays, Justified, Next, HonestRobot, InOneStep;
    if run != [] {
      FlagStep(s, run[0]);
      G.HonestKeeps(s, run[0]);
      if !Strays(s, run[0]) {
        FlagIffFrom(assumed, Next(s, run[0]), run[1..]);
      }
    }
  }

  lemma Starts()
    ensures G.Inv(INITIAL) && G.StatusesOk(INITIAL) && Inv(INITIAL) && FlagRight(INITIAL)
    ensures Justified(INITIAL.issued, INITIAL.log)
  {
  }

  /**
   * On every run with an honest robot, the flag is up exactly when a failure of the path
   * asked for last is outstanding, at all times outside the calls that clear it, if and only
   * if no other failure is ever raised while the flag is down outside such a call.
   */
  lemma FlagIsRightIff(assumed: Assumptions, run: seq<Step>)
    requires assumed.acceptedOnly && IsRun(assumed, INITIAL, run)
    ensures Always(assumed, FlagRight, INITIAL, run) <==> !Sometime(assumed, Strays, INITIAL, run)
  {
    hide G.Inv, G.StatusesOk, Inv, FlagRight, Strays;
    Starts();
    FlagIffFrom(assumed, INITIAL, run);
  }

  lemma {:induction false} JustifiedFrom(assumed: Assumptions, s: State, run: seq<Step>)
    requires assumed.acceptedOnly && IsRun(assumed, s, run) && !Sometime(assumed, Strays, s, run)
    requires G.Inv(s) && G.StatusesOk(s) && Inv(s) && FlagRight(s) && Justified(s.issued, s.log)
    ensures var s' := Final(assumed, s, run); FlagRight(s') && Justified(s'.issued, s'.log)
    decreases |run|
  {
    hide G.Inv, G.StatusesOk, Inv, FlagRight, Strays, Justified, Next, HonestRobot, InOneStep;
    if run != [] {
      FlagStep(s, run[0]);
      G.HonestKeeps(s, run[0]);
      JustifiedFrom(assumed, Next(s, run[0]), run[1..]);
    }
  }

  /**
   * Then every replan answers a failure of the own goal of the path asked for last, and none
   * is lost: while RMF is in no call the flag says whether one is outstanding.
   */
  lemma ReplansAreJustified(assumed: Assumptions, run: seq<Step>)
    requires assumed.acceptedOnly && IsRun(assumed, INITIAL, run) && !Sometime(assumed, Strays, INITIAL, run)
    ensures var s := Final(assumed, INITIAL, run);
      && Justified(s.issued, s.log)
      && (s.pc.Idle? ==> (s.pendingFailure <==> Outstanding(s.issued, s.log)))
  {
    hide G.Inv, G.StatusesOk, Inv, Strays, Outstanding, Justified;
    Starts();
    JustifiedFrom(assumed, INITIAL, run);
  }

  /** At rest, the update tick makes RMF replan exactly when such a failure is outstanding. */
  lemma FailureIsReplanned(assumed: Assumptions, run: seq<Step>)
    requires assumed.acceptedOnly && IsRun(assumed, INITIAL, run) && !Sometime(assumed, Strays, INITIAL, run)
    requires Final(assumed, INITIAL, run).pc.Idle?
    ensures var s := Final(assumed, INITIAL, run);
      var s' := Next(s, TakeFailure);
      s'.log == s.log + (if Outstanding(s.issued, s.log) then [Replanned] else []) && !s'.pendingFailure
  {
    hide Strays, Outstanding, Justified;
    ReplansAreJustified(assumed, run);
  }
}
