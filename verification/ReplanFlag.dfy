/**
 * With atomic callbacks, the only failures that stray are those of docks and actions: an
 * aborted dock or action is reported as the failure of the path whose session it was armed
 * on. Assumes acceptedOnly and atomicCallbacks.
 */
module ReplanFlag {
  import opened Common
  import opened NavigationSession
  import opened NavigationProtocol
  import opened F = ProtocolFrame
  import opened X = FailureFlag
  import G = GoalAccounting
  import C = CurrentPath
  import E = EstimatorSafety

  /** A failure callback under way belongs to the path asked for last, unless a stop is. */
  predicate TaskOk(task: Task, pc: Pc, log: seq<Record>) {
    task.CallingBack? && task.chain.callback.Fail? ==>
      InStop(pc) || E.LastCall(log) == Some(task.chain.callback.session)
  }

  ghost predicate TasksOk(tasks: map<nat, Task>, pc: Pc, log: seq<Record>) {
    forall t | t in tasks :: TaskOk(tasks[t], pc, log)
  }

  /** All that is known of a reachable state. */
  ghost predicate All(s: State) {
    G.Inv(s) && G.StatusesOk(s) && C.Inv(s) && E.Inv(s) && TasksOk(s.tasks, s.pc, s.log)
  }

  /** The failure of a dock or an action is raised while the flag is down and no call is about to clear it. */
  predicate ErrandStrays(s: State, e: Step) {
    && Raises(s, e) && !s.pendingFailure && !Clearing(s.pc)
    && !OwnGoal(s.issued, ChainOf(s, e).value.callback.session, ChainOf(s, e).value.goal.value)
  }

  /** The failure callback of a session is stored only while its path is the last call, or is being stopped. */
  lemma FailsLastCall(s: State, i: SessionId)
    requires G.Inv(s) && C.Inv(s) && E.Inv(s)
    requires !s.pc.Swapped? && At(s, i).failure.Some? && At(s, i).goal.Some?
    ensures At(s, i).failure == Some(i)
    ensures InStop(s.pc) || E.LastCall(s.log) == Some(i)
  {
    hide E.SessionsOk, E.TasksOk, E.PcOk, E.Timely, E.LastCall, C.TasksOk, C.WpOk, C.PcOk;
    hide G.IssuesOk, G.TasksOk, G.PcOk, G.CountsOk, G.LogOk, G.RequestsOk;
    assert G.SessionOk(At(s, i), i, s.issued, s.place);
    assert s.current == Some(i);
  }

  lemma DecideKeeps(s: State, t: nat)
    requires All(s) && t in s.tasks && s.tasks[t].Deciding? && C.Quiet(s.tasks) && !s.pc.Swapped?
    ensures TasksOk(TaskNext(s, t).tasks, TaskNext(s, t).pc, TaskNext(s, t).log)
  {
    hide G.Inv, C.Inv, E.Inv, E.LastCall, FirstAbout, Hushed, InStop;
    var (i, statuses) := (s.tasks[t].session, s.tasks[t].statuses);
    var (x, s') := (At(s, i), TaskNext(s, t));
    DecideFrame(s, t, i, statuses);
    DecideLog(s, t);
    if Verdict(x, statuses).Some? && x.failure.Some? {
      FailsLastCall(s, i);
    }
    DecideTakes(s, t);
    forall u | u in s'.tasks ensures TaskOk(s'.tasks[u], s'.pc, s'.log) {
      assert u != t ==> s'.tasks[u] == s.tasks[u];
    }
  }

  lemma DecideLog(s: State, t: nat)
    requires t in s.tasks && s.tasks[t].Deciding?
    ensures E.LastCall(TaskNext(s, t).log) == E.LastCall(s.log)
  {
    hide Hushed, Outstanding, Justified, Decide, E.LastCall;
    DecideHushedLog(s, t);
    HushedKeeps(s.issued, s.log, TaskNext(s, t).log);
  }

  lemma DecideHushedLog(s: State, t: nat)
    requires t in s.tasks && s.tasks[t].Deciding?
    ensures Hushed(s.log, TaskNext(s, t).log)
  {
    hide Hushed, FirstAbout, Taken, Commit, Put;
    SameIsHushed(s.log);
    var x := At(s, s.tasks[t].session);
    if Verdict(x, s.tasks[t].statuses).Some? {
      var s0 := Commit(s, Taken(x, s.tasks[t].statuses), x.goal.value, InTask(t));
      CommitHushed(s, Taken(x, s.tasks[t].statuses), x.goal.value, InTask(t));
      PutFrame(s0, s.tasks[t].session, Invalidated(x));
    }
  }

  /** A failure callback that is taken out is the one the session held, for a goal it held. */
  lemma DecideTakes(s: State, t: nat)
    requires t in s.tasks && s.tasks[t].Deciding?
    ensures var (x, s') := (At(s, s.tasks[t].session), TaskNext(s, t));
      t in s'.tasks && s'.tasks[t].CallingBack? && s'.tasks[t].chain.callback.Fail? ==>
        Verdict(x, s.tasks[t].statuses).Some? && x.failure == Some(s'.tasks[t].chain.callback.session)
  {
    hide FirstAbout, Commit, Put;
    var x := At(s, s.tasks[t].session);
    if Verdict(x, s.tasks[t].statuses).Some? {
      var s0 := Commit(s, Taken(x, s.tasks[t].statuses), x.goal.value, InTask(t));
      CommitFrame(s, Taken(x, s.tasks[t].statuses), x.goal.value, InTask(t));
      PutFrame(s0, s.tasks[t].session, Invalidated(x));
    }
  }

  /** A callback under way neither asks RMF for anything nor moves the executor. */
  lemma CallbackKeeps(s: State, t: nat)
    requires TasksOk(s.tasks, s.pc, s.log) && t in s.tasks && s.tasks[t].CallingBack?
    ensures TasksOk(TaskNext(s, t).tasks, TaskNext(s, t).pc, TaskNext(s, t).log)
  {
    hide E.LastCall, InStop, ChainNext;
    var (chain, s') := (s.tasks[t].chain, TaskNext(s, t));
    ChainFrame(s, chain);
    ChainSaysNoCall(s, chain);
    assert TaskOk(s.tasks[t], s.pc, s.log);
    forall u | u in s'.tasks ensures TaskOk(s'.tasks[u], s'.pc, s'.log) {
      assert u != t ==> s'.tasks[u] == s.tasks[u];
      assert u in s.tasks;
    }
  }

  lemma ChainSaysNoCall(s: State, chain: Chain)
    ensures E.LastCall(ChainNext(s, chain).log) == E.LastCall(s.log)
  {
    hide Hushed, Outstanding, Justified, E.LastCall;
    if chain.callback.Fail? && chain.stage.Finishing? {
      if chain.goal.Some? {
        E.LastCallGrows(s.log, Failed(chain.callback.session, chain.goal.value));
      }
    } else {
      ChainHushed(s, chain);
      HushedKeeps(s.issued, s.log, ChainNext(s, chain).log);
    }
  }

  /** No other step begins a callback. */
  lemma QuietStays(s: State, e: Step)
    requires Enabled(s, e) && C.Quiet(s.tasks) && !(e.Advance? && s.tasks[e.task].Deciding?)
    ensures C.Quiet(Next(s, e).tasks)
  {
    hide TaskNext, ExecutorNext, LockSession, Lock, Release, Put;
    match e {
      case Continue => ExecutorFrame(s);
      case Advance(t) => MessageFrame(s, t);
      case Execute(owner) => G.LockStatuses(s, Call(owner, None));
      case ArmGoal(_, _) => G.StatusesCarryOver(s, e);
      case _ =>
    }
  }

  lemma TasksKeep(s: State, e: Step)
    requires All(s) && Enabled(s, e) && InOneStep(s, e)
    ensures TasksOk(Next(s, e).tasks, Next(s, e).pc, Next(s, e).log)
  {
    hide G.Inv, G.StatusesOk, C.Inv, E.Inv, E.LastCall, TaskNext, ExecutorNext, InStop;
    if e.Advance? && s.tasks[e.task].CallingBack? {
      CallbackKeeps(s, e.task);
    } else if e.Advance? && s.tasks[e.task].Deciding? {
      DecideKeeps(s, e.task);
    } else {
      QuietStays(s, e);
    }
  }

  /** With atomic callbacks, what strays is what is raised for a dock or an action. */
  lemma StraysAreErrands(s: State, e: Step)
    requires All(s) && Enabled(s, e)
    ensures Strays(s, e) <==> ErrandStrays(s, e)
  {
    hide G.Inv, G.StatusesOk, C.SessionsOk, C.TasksOk, C.WpOk, E.Inv, E.LastCall;
    if Raises(s, e) && e.Advance? {
      assert TaskOk(s.tasks[e.task], s.pc, s.log);
    }
  }

  lemma {:induction false} FlagIffFrom(assumed: Assumptions, s: State, run: seq<Step>)
    requires assumed.acceptedOnly && assumed.atomicCallbacks && IsRun(assumed, s, run)
    requires All(s) && X.Inv(s) && FlagRight(s)
    ensures Always(assumed, FlagRight, s, run) <==> !Sometime(assumed, ErrandStrays, s, run)
    decreases |run|
  {
    hide All, X.Inv, FlagRight, Strays, ErrandStrays, Justified, Next, HonestRobot, InOneStep;
    if run != [] {
      StraysAreErrands(s, run[0]);
      FlagStepOf(s, run[0]);
      AllKeeps(s, run[0]);
      if !Strays(s, run[0]) {
        FlagIffFrom(assumed, Next(s, run[0]), run[1..]);
      }
    }
  }

  lemma FlagStepOf(s: State, e: Step)
    requires All(s) && X.Inv(s) && Enabled(s, e) && FlagRight(s)
    ensures X.Inv(Next(s, e)) && (FlagRight(Next(s, e)) <==> !Strays(s, e))
  {
    hide G.Inv, G.StatusesOk, C.Inv, E.Inv, TasksOk, X.Inv, FlagRight, Strays, Next;
    FlagStep(s, e);
  }

  lemma AllKeeps(s: State, e: Step)
    requires All(s) && Enabled(s, e) && InOneStep(s, e) && HonestRobot(s, e)
    ensures All(Next(s, e))
  {
    hide G.Inv, G.StatusesOk, C.Inv, E.Inv, TasksOk, Next, InOneStep, HonestRobot;
    G.HonestKeeps(s, e);
    C.NextKeeps(s, e);
    E.NextKeeps(s, e);
    TasksKeep(s, e);
  }

  lemma Starts()
    ensures All(INITIAL) && X.Inv(INITIAL) && FlagRight(INITIAL)
  {
  }

  /**
   * On every run with both assumptions, the flag is right at all times outside the calls that
   * clear it, if and only if no failure of a dock or an action is raised while the flag is
   * down outside such a call.
   */
  lemma FlagIsRightIffNoErrandFails(assumed: Assumptions, run: seq<Step>)
    requires assumed.acceptedOnly && assumed.atomicCallbacks && IsRun(assumed, INITIAL, run)
    ensures Always(assumed, FlagRight, INITIAL, run) <==> !Sometime(assumed, ErrandStrays, INITIAL, run)
  {
    hide All, X.Inv, FlagRight, ErrandStrays;
    Starts();
    FlagIffFrom(assumed, INITIAL, run);
  }
}
