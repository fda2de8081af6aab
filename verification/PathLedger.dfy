/**
 * What a live path can count on: it is not stranded, exactly where no callback lets go of
 * its session, and with atomic callbacks every decision about it reaches RMF at once.
 */
module PathLedger {
  import opened Common
  import opened NavigationSession
  import opened NavigationProtocol
  import G = GoalAccounting
  import C = CurrentPath
  import E = EstimatorSafety
  import H = HeldPath
  import R = ResolveOnce

  lemma InvsHold(assumed: Assumptions, run: seq<Step>)
    requires assumed.acceptedOnly && assumed.atomicCallbacks && IsRun(assumed, INITIAL, run)
    ensures G.Inv(Final(assumed, INITIAL, run)) && C.Inv(Final(assumed, INITIAL, run))
  {
    hide Next, G.Inv, G.StatusesOk, C.Inv;
    C.InvStarts();
    C.InvHolds(assumed, INITIAL, run);
  }

  // ----- no path is stranded -----

  /** The goal of path i is live. */
  ghost predicate PathIsLive(s: State, g: Goal, i: SessionId) {
    R.LiveIn(s, g, i) && R.GoalOf(s, i, g)
  }

  /**
   * On every run in which no callback lets go of a session that is needed, the session of a
   * live path is the one the path handle holds and the one the controller finds, except
   * inside the swap that replaces it. With atomic callbacks every run is such a run.
   */
  lemma NoPathIsStranded(assumed: Assumptions, run: seq<Step>, g: Goal, i: SessionId)
    requires assumed.acceptedOnly && IsRun(assumed, INITIAL, run)
    requires !Sometime(assumed, H.LetsGo, INITIAL, run) || assumed.atomicCallbacks
    requires var s := Final(assumed, INITIAL, run); PathIsLive(s, g, i) && !H.Leaving(s, i)
    ensures var s := Final(assumed, INITIAL, run); s.current == Some(i) && Lock(s) == Some(i)
  {
    hide G.Inv, G.StatusesOk, H.Inv, H.Held, H.LetsGo;
    if assumed.atomicCallbacks {
      H.AtomicCallbacksLetNothingGo(assumed, run);
    }
    H.PathsAreHeldIff(assumed, run);
    AlwaysAtTheEnd(assumed, H.Held, INITIAL, run);
    H.Starts();
    H.InvHolds(assumed, INITIAL, run);
    LiveIsPathLive(Final(assumed, INITIAL, run), g, i);
    H.HeldIsFound(Final(assumed, INITIAL, run), i);
  }

  /**
   * So with that the only path that can be live outside a call is the one RMF asked for
   * last, with no stop since: a new path ends the one before it, and a stop ends it.
   */
  lemma OnlyLastPathRuns(assumed: Assumptions, run: seq<Step>, g: Goal, i: SessionId)
    requires assumed.acceptedOnly && IsRun(assumed, INITIAL, run)
    requires !Sometime(assumed, H.LetsGo, INITIAL, run) || assumed.atomicCallbacks
    requires var s := Final(assumed, INITIAL, run); PathIsLive(s, g, i) && s.pc.Idle?
    ensures E.LastCall(Final(assumed, INITIAL, run).log) == Some(i)
  {
    hide Next, PathIsLive, E.SessionsOk, E.TasksOk, E.Timely, E.LastCall;
    NoPathIsStranded(assumed, run, g, i);
    E.EstimatorInv(assumed, run);
  }

  lemma LiveIsPathLive(s: State, g: Goal, i: SessionId)
    requires G.Inv(s) && PathIsLive(s, g, i)
    ensures H.PathLive(s, i)
  {
    hide G.SessionsOk, G.TasksOk, G.PcOk, G.CountsOk, G.LogOk, G.RequestsOk;
    assert G.IssueOk(s.issued[g], |s.sessions|);
  }

  lemma LivePathIsCurrent(s: State, g: Goal, i: SessionId)
    requires G.Inv(s) && C.Inv(s) && PathIsLive(s, g, i) && !s.pc.Swapped?
    ensures s.current == Some(i) && Lock(s) == Some(i)
    ensures s.sessions[i].completion == Some(PathRequest(i)) && s.sessions[i].failure == Some(i)
  {
    hide G.IssuesOk, G.TasksOk, G.PcOk, G.CountsOk, G.LogOk, G.RequestsOk, C.PcOk, C.TasksOk;
    assert G.SessionOk(s.sessions[i], i, s.issued, s.place);
    G.IssuedBusy(s, g);
  }

  // ----- a decision reaches RMF -----

  function Advances(t: nat, n: nat): seq<Step> {
    if n == 0 then [] else [Advance(t)] + Advances(t, n - 1)
  }

  /** The steps of one status message, from its arrival to the end of the callback it takes out. */
  function Delivery(t: nat, statuses: seq<Status>): seq<Step> {
    [StatusArrives(t, statuses)] + Advances(t, 5)
  }

  lemma RunCons(assumed: Assumptions, s: State, e: Step, rest: seq<Step>)
    requires Allowed(assumed, s, e) && IsRun(assumed, Next(s, e), rest)
    ensures IsRun(assumed, s, [e] + rest) && Final(assumed, s, [e] + rest) == Final(assumed, Next(s, e), rest)
  {
    hide Next, Allowed;
    assert ([e] + rest)[1..] == rest;
  }

  /** While one callback is handled and no other is under way, its next step may be taken. */
  lemma MayAdvance(assumed: Assumptions, s: State, t: nat, tasks: map<nat, Task>, task: Task)
    requires C.Quiet(tasks) && s.tasks == tasks[t := task] && !s.pc.Swapped?
    ensures Allowed(assumed, s, Advance(t))
  {
  }

  lemma MayArrive(assumed: Assumptions, s: State, t: nat, statuses: seq<Status>)
    requires C.Quiet(s.tasks) && t !in s.tasks && !s.pc.Swapped? && AboutAccepted(s.issued, statuses)
    ensures Allowed(assumed, s, StatusArrives(t, statuses))
  {
  }

  lemma Decides(s: State, t: nat, i: SessionId, g: Goal, statuses: seq<Status>)
    requires t in s.tasks && s.tasks[t] == Deciding(i, statuses) && i < |s.sessions|
    requires var x := s.sessions[i];
      && x.goal == Some(g) && x.completion == Some(PathRequest(i)) && x.failure == Some(i)
      && Verdict(x, statuses).Some?
    ensures var x := s.sessions[i];
      Taken(x, statuses).Some? &&
      TaskNext(s, t) == s.(
        sessions := s.sessions[i := Invalidated(x)], place := s.place[g := InTask(t)],
        tasks := s.tasks[t := CallingBack(i, Chain(Taken(x, statuses).value, Some(g), Invalidating))])
    ensures Taken(s.sessions[i], statuses).value ==
            if Verdict(s.sessions[i], statuses).value.Succeeded? then Complete(PathRequest(i)) else Fail(i)
  {
    hide FirstAbout;
  }

  lemma InvalidatesAgain(s: State, t: nat, i: SessionId, callback: Callback, g: Goal, x: Session)
    requires t in s.tasks && s.tasks[t] == CallingBack(i, Chain(callback, Some(g), Invalidating))
    requires Own(callback) == i && i < |s.sessions| && s.sessions[i] == Invalidated(x)
    ensures TaskNext(s, t) == s.(tasks := s.tasks[t := CallingBack(i, Chain(callback, Some(g), Resetting))])
  {
    assert s.sessions[i := Invalidated(s.sessions[i])] == s.sessions;
  }

  lemma Finishes(s: State, t: nat, i: SessionId, callback: Callback, g: Goal)
    requires t in s.tasks && s.tasks[t] == CallingBack(i, Chain(callback, Some(g), Finishing))
    ensures var s' := TaskNext(s, t);
      && s'.tasks == s.tasks - {t} && s'.current == s.current
      && s'.log == s.log + [G.Outcome(callback, g)]
      && (callback.Fail? ==> s'.pendingFailure)
      && s'.sessions == s.sessions && s'.wp == s.wp && s'.pc == s.pc && s'.held == s.held && s'.issued == s.issued
  {
  }

  /** The steps of the callback itself. */
  lemma CallbackDelivers(assumed: Assumptions, s: State, tasks: map<nat, Task>, t: nat,
                         i: SessionId, callback: Callback, g: Goal, x: Session)
    requires C.Quiet(tasks) && t !in tasks && !s.pc.Swapped?
    requires s.tasks == tasks[t := CallingBack(i, Chain(callback, Some(g), Invalidating))]
    requires Own(callback) == i && i < |s.sessions| && s.sessions[i] == Invalidated(x)
    ensures IsRun(assumed, s, Advances(t, 3))
    ensures var s' := Final(assumed, s, Advances(t, 3));
      && s'.tasks == tasks && s'.current == None
      && s'.log == s.log + [G.Outcome(callback, g)]
      && (callback.Fail? ==> s'.pendingFailure)
      && s'.sessions == s.sessions && s'.wp == s.wp && s'.pc == s.pc && s'.held == s.held && s'.issued == s.issued
  {
    hide Allowed, TaskNext, Own, Invalidated, C.Quiet, G.Outcome;
    var s4 := s.(tasks := s.tasks[t := CallingBack(i, Chain(callback, Some(g), Resetting))]);
    var s5 := s4.(current := None, tasks := s4.tasks[t := CallingBack(i, Chain(callback, Some(g), Finishing))]);
    MayAdvance(assumed, s, t, tasks, s.tasks[t]);
    MayAdvance(assumed, s4, t, tasks, s4.tasks[t]);
    MayAdvance(assumed, s5, t, tasks, s5.tasks[t]);
    InvalidatesAgain(s, t, i, callback, g, x);
    Resets(s4, t, i, callback, g);
    Finishes(s5, t, i, callback, g);
    assert s5.tasks - {t} == tasks;
    RunCons(assumed, s5, Advance(t), Advances(t, 0));
    RunCons(assumed, s4, Advance(t), Advances(t, 1));
    RunCons(assumed, s, Advance(t), Advances(t, 2));
  }

  lemma Resets(s: State, t: nat, i: SessionId, callback: Callback, g: Goal)
    requires t in s.tasks && s.tasks[t] == CallingBack(i, Chain(callback, Some(g), Resetting))
    ensures TaskNext(s, t) ==
            s.(current := None, tasks := s.tasks[t := CallingBack(i, Chain(callback, Some(g), Finishing))])
  {
  }

  lemma Locks(s: State, t: nat, i: SessionId, statuses: seq<Status>)
    requires t in s.tasks && s.tasks[t] == GotStatus(statuses) && s.current == Some(i) && s.wp == Some(i)
    ensures TaskNext(s, t) == s.(tasks := s.tasks[t := Deciding(i, statuses)])
  {
  }

  lemma DecidingDelivers(assumed: Assumptions, s: State, tasks: map<nat, Task>, t: nat,
                         i: SessionId, g: Goal, statuses: seq<Status>)
    requires C.Quiet(tasks) && t !in tasks && !s.pc.Swapped? && s.tasks == tasks[t := Deciding(i, statuses)]
    requires i < |s.sessions|
    requires var x := s.sessions[i];
      && x.goal == Some(g) && x.completion == Some(PathRequest(i)) && x.failure == Some(i)
      && Verdict(x, statuses).Some?
    ensures IsRun(assumed, s, Advances(t, 4))
    ensures RmfHears(s, Final(assumed, s, Advances(t, 4)), tasks, i, g, Verdict(s.sessions[i], statuses).value)
  {
    hide Allowed, Taken, Verdict, C.Quiet, TaskNext, IsRun, Final, Invalidated;
    var x := s.sessions[i];
    var callback := if Verdict(x, statuses).value.Succeeded? then Complete(PathRequest(i)) else Fail(i);
    var s3 := s.(sessions := s.sessions[i := Invalidated(x)], place := s.place[g := InTask(t)],
                 tasks := s.tasks[t := CallingBack(i, Chain(callback, Some(g), Invalidating))]);
    MayAdvance(assumed, s, t, tasks, s.tasks[t]);
    Decides(s, t, i, g, statuses);
    assert s3.tasks == tasks[t := s3.tasks[t]];
    CallbackDelivers(assumed, s3, tasks, t, i, callback, g, x);
    RunCons(assumed, s, Advance(t), Advances(t, 3));
  }

  /** RMF has heard of the outcome of the goal of path i, and the path handle holds no session. */
  ghost predicate RmfHears(s: State, s': State, tasks: map<nat, Task>, i: SessionId, g: Goal, code: Code) {
    && s'.current == None && s'.tasks == tasks
    && if code.Succeeded? then s'.log == s.log + [Fired(PathRequest(i), g)]
       else s'.log == s.log + [Failed(i, g)] && s'.pendingFailure
  }

  // ----- a decision has no other way -----

  lemma {:induction false} Prefix(assumed: Assumptions, s: State, run: seq<Step>, k: nat)
    requires IsRun(assumed, s, run) && k <= |run|
    ensures IsRun(assumed, s, run[..k])
    decreases k
  {
    hide Next, InOneStep, HonestRobot;
    if k > 0 {
      Prefix(assumed, Next(s, run[0]), run[1..], k - 1);
      assert run[..k][1..] == run[1..][..k - 1];
    }
  }

  /** The steps a callback under way still has to take. */
  function StepsLeft(stage: Stage): nat {
    match stage
    case Invalidating => 3
    case Resetting => 2
    case Finishing => 1
  }

  /** With atomic callbacks, the next steps of the run are those of the callback under way. */
  lemma {:induction false} CallbackGoesFirst(assumed: Assumptions, s: State, run: seq<Step>, t: nat)
    requires assumed.atomicCallbacks && IsRun(assumed, s, run) && t in s.tasks && s.tasks[t].CallingBack?
    requires |run| >= StepsLeft(s.tasks[t].chain.stage)
    ensures var k := StepsLeft(s.tasks[t].chain.stage); run[..k] == Advances(t, k)
    decreases StepsLeft(s.tasks[t].chain.stage)
  {
    hide TaskNext, IsRun;
    var k := StepsLeft(s.tasks[t].chain.stage);
    FirstStep(assumed, s, run);
    assert run[0] == Advance(t);
    if k > 1 {
      StageAdvances(s, t);
      CallbackGoesFirst(assumed, Next(s, run[0]), run[1..], t);
      assert run[..k] == [run[0]] + run[1..][..k - 1];
    } else {
      assert run[..k] == [run[0]] + [];
      assert Advances(t, 0) == [];
    }
  }

  lemma FirstStep(assumed: Assumptions, s: State, run: seq<Step>)
    requires IsRun(assumed, s, run) && run != []
    ensures Allowed(assumed, s, run[0]) && IsRun(assumed, Next(s, run[0]), run[1..])
  {
    hide Next;
  }

  lemma StageAdvances(s: State, t: nat)
    requires t in s.tasks && s.tasks[t].CallingBack? && !s.tasks[t].chain.stage.Finishing?
    ensures var tasks := Next(s, Advance(t)).tasks;
      t in tasks && tasks[t].CallingBack? && tasks[t].chain.stage == After(s.tasks[t].chain.stage)
  {
    hide ChainNext;
  }

  /**
   * On every run with both assumptions, once a status message decides the goal of a live
   * path the next steps are those of its callback, and at their end RMF has heard of it: its
   * completion was called, or its failure raised.
   */
  lemma DecisionsAreHeard(assumed: Assumptions, run: seq<Step>, more: seq<Step>, g: Goal, i: SessionId, t: nat)
    requires assumed.acceptedOnly && assumed.atomicCallbacks && IsRun(assumed, INITIAL, run)
    requires var s := Final(assumed, INITIAL, run);
      && IsRun(assumed, s, more) && |more| >= 4 && more[0] == Advance(t)
      && PathIsLive(s, g, i) && t in s.tasks && s.tasks[t].Deciding? && s.tasks[t].session == i
      && Verdict(s.sessions[i], s.tasks[t].statuses).Some?
    ensures var s := Final(assumed, INITIAL, run);
      && more[..4] == Advances(t, 4) && IsRun(assumed, s, more[..4])
      && RmfHears(s, Final(assumed, s, more[..4]), s.tasks - {t}, i, g,
                  Verdict(s.sessions[i], s.tasks[t].statuses).value)
  {
    hide G.Inv, C.Inv, Next, Verdict, C.Quiet, R.GoalOf;
    InvsHold(assumed, run);
    DecisionIsHeard(assumed, Final(assumed, INITIAL, run), more, g, i, t);
  }

  lemma DecisionIsHeard(assumed: Assumptions, s: State, more: seq<Step>, g: Goal, i: SessionId, t: nat)
    requires assumed.atomicCallbacks && G.Inv(s) && C.Inv(s) && IsRun(assumed, s, more) && |more| >= 4
    requires more[0] == Advance(t) && PathIsLive(s, g, i) && t in s.tasks && s.tasks[t].Deciding?
    requires s.tasks[t].session == i && Verdict(s.sessions[i], s.tasks[t].statuses).Some?
    ensures more[..4] == Advances(t, 4) && IsRun(assumed, s, more[..4])
    ensures RmfHears(s, Final(assumed, s, more[..4]), s.tasks - {t}, i, g,
                     Verdict(s.sessions[i], s.tasks[t].statuses).value)
  {
    hide G.Inv, C.Inv, Next, IsRun, Verdict, R.GoalOf, Taken;
    var statuses := s.tasks[t].statuses;
    FirstStep(assumed, s, more);
    OnlyTask(assumed, s, t);
    assert R.LiveIn(s, g, i);
    LivePathIsCurrent(s, g, i);
    var tasks := s.tasks - {t};
    assert s.tasks == tasks[t := Deciding(i, statuses)];
    DecidingDelivers(assumed, s, tasks, t, i, g, statuses);
    DecidesNext(s, t, i, g, statuses);
    CallbackGoesFirst(assumed, Next(s, more[0]), more[1..], t);
    assert more[..4] == [more[0]] + more[1..][..3];
  }

  lemma OnlyTask(assumed: Assumptions, s: State, t: nat)
    requires assumed.atomicCallbacks && t in s.tasks && s.tasks[t].Deciding? && Allowed(assumed, s, Advance(t))
    ensures !s.pc.Swapped? && C.Quiet(s.tasks - {t})
  {
  }

  lemma DecidesNext(s: State, t: nat, i: SessionId, g: Goal, statuses: seq<Status>)
    requires t in s.tasks && s.tasks[t] == Deciding(i, statuses) && i < |s.sessions|
    requires var x := s.sessions[i];
      && x.goal == Some(g) && x.completion == Some(PathRequest(i)) && x.failure == Some(i)
      && Verdict(x, statuses).Some?
    ensures var tasks := Next(s, Advance(t)).tasks;
      t in tasks && tasks[t].CallingBack? && tasks[t].chain.stage == Invalidating
  {
    hide TaskNext, Verdict, Taken;
    Decides(s, t, i, g, statuses);
  }

  /**
   * And from any reachable state outside the swap and outside a callback, a status message
   * that decides the goal of a live path can be handled to that end.
   */
  lemma DecisionCanReachRmf(assumed: Assumptions, run: seq<Step>, g: Goal, i: SessionId, t: nat, statuses: seq<Status>)
    requires assumed.acceptedOnly && assumed.atomicCallbacks && IsRun(assumed, INITIAL, run)
    requires var s := Final(assumed, INITIAL, run);
      && PathIsLive(s, g, i) && !s.pc.Swapped? && C.Quiet(s.tasks) && t !in s.tasks
      && AboutAccepted(s.issued, statuses) && Verdict(s.sessions[i], statuses).Some?
    ensures var s := Final(assumed, INITIAL, run);
      && IsRun(assumed, s, Delivery(t, statuses))
      && RmfHears(s, Final(assumed, s, Delivery(t, statuses)), s.tasks, i, g, Verdict(s.sessions[i], statuses).value)
  {
    hide G.Inv, C.Inv, Next, Verdict, C.Quiet, AboutAccepted, R.GoalOf, R.LiveIn;
    InvsHold(assumed, run);
    assert R.LiveIn(Final(assumed, INITIAL, run), g, i);
    MessageDelivers(assumed, Final(assumed, INITIAL, run), g, i, t, statuses);
  }

  lemma MessageDelivers(assumed: Assumptions, s: State, g: Goal, i: SessionId, t: nat, statuses: seq<Status>)
    requires G.Inv(s) && C.Inv(s) && PathIsLive(s, g, i) && !s.pc.Swapped? && C.Quiet(s.tasks) && t !in s.tasks
    requires AboutAccepted(s.issued, statuses) && Verdict(s.sessions[i], statuses).Some?
    ensures IsRun(assumed, s, Delivery(t, statuses))
    ensures RmfHears(s, Final(assumed, s, Delivery(t, statuses)), s.tasks, i, g, Verdict(s.sessions[i], statuses).value)
  {
    hide G.Inv, C.Inv, Allowed, Verdict, AboutAccepted, C.Quiet, TaskNext, IsRun, Final, R.GoalOf;
    LivePathIsCurrent(s, g, i);
    var s1 := s.(tasks := s.tasks[t := GotStatus(statuses)]);
    var s2 := s1.(tasks := s1.tasks[t := Deciding(i, statuses)]);
    MayArrive(assumed, s, t, statuses);
    MayAdvance(assumed, s1, t, s.tasks, s1.tasks[t]);
    Locks(s1, t, i, statuses);
    assert s2.tasks == s.tasks[t := s2.tasks[t]];
    DecidingDelivers(assumed, s2, s.tasks, t, i, g, statuses);
    RunCons(assumed, s1, Advance(t), Advances(t, 4));
    RunCons(assumed, s, StatusArrives(t, statuses), Advances(t, 5));
  }
}
