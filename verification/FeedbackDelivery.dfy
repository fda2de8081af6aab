/**
 * Arrival reports reach RMF. A message about the goal of the session held is handled and
 * drained to the RMF estimator of its path, and however the threads interleave a report is
 * never lost while that session is held: it is on its way, or delivered, or a later one
 * has taken its place. Nothing is assumed beyond what every run satisfies.
 */
module FeedbackDelivery {
  import opened Common
  import opened NavigationSession
  import opened NavigationProtocol
  import opened Schedules
  import E = EstimatorSafety
  import F = ProtocolFrame

  /** The path handle and the controller hold the session, its goal is live, and it wants arrivals. */
  predicate Wired(s: State, i: SessionId, g: Goal) {
    && i < |s.sessions| && s.current == Some(i) && s.wp == Some(i)
    && s.sessions[i].goal == Some(g) && !s.sessions[i].done
    && s.sessions[i].estimator == Some(i) && s.sessions[i].rmfEstimator == Some(i)
  }

  // ----- the controller points at the session held -----

  predicate Following(pc: Pc) {
    pc.Swapped? || pc.Superseded? || pc.Cleared?
  }

  predicate Shown(s: State) {
    && (s.current.Some? ==> s.current.value < |s.sessions|)
    && (s.wp.Some? ==> s.wp.value < |s.sessions|)
    && (Following(s.pc) ==> s.pc.request < |s.sessions|)
    && if Following(s.pc) then s.current.Some? ==> s.current == Some(s.pc.request)
       else s.current.Some? ==> s.wp == s.current
  }

  lemma FollowShows(s: State)
    requires Shown(s) && Following(s.pc)
    ensures Shown(ExecutorNext(s))
  {
    hide Invalidate, Alive, Put, At;
    match s.pc {
      case Swapped(_, _, previous) =>
        if previous.Some? {
          F.InvalidateShape(s, previous.value);
        }
      case Cleared(n, wants) =>
        var x := At(s, n).(rmfEstimator := if wants then Some(n) else None, failure := Some(n));
        F.PutFrame(s, n, x);
        F.ExecutorDrops(s);
      case _ =>
    }
  }

  /** Outside a new path the executor leaves the controller's pointer alone, and clears the other at most. */
  lemma RestLeaves(s: State)
    requires !Following(s.pc)
    ensures ExecutorNext(s).wp == s.wp && !Following(ExecutorNext(s).pc)
    ensures ExecutorNext(s).current == s.current || ExecutorNext(s).current.None?
  {
    hide Invalidate, CancelSession, ChainNext, Answer, Lock, Drained, Put, At;
    match s.pc {
      case StopCancelling(i) => F.CancelFrame(s, i);
      case Cancelling(i) => F.CancelFrame(s, i);
      case StopInvalidating(i) => F.InvalidateShape(s, i);
      case Snapshotting(i) => F.PutFrame(s, i, At(s, i).(pending := None));
      case Sending(_, _) =>
        F.AnswerFrame(s);
        F.AnswerEnds(s);
      case Firing(chain) =>
        F.ChainFrame(s, chain);
        ChainClears(s, chain);
      case _ =>
    }
  }

  lemma ExecutorShows(s: State)
    requires Shown(s)
    ensures Shown(ExecutorNext(s))
  {
    hide ExecutorNext;
    F.ExecutorDrops(s);
    if Following(s.pc) {
      FollowShows(s);
    } else {
      RestLeaves(s);
    }
  }

  lemma ChainClears(s: State, chain: Chain)
    ensures ChainNext(s, chain).current == s.current || ChainNext(s, chain).current.None?
  {
    hide Invalidate, Alive, Own;
    if chain.stage.Invalidating? {
      F.InvalidateShape(s, Own(chain.callback));
    }
  }

  lemma TaskShows(s: State, t: nat)
    requires Shown(s) && t in s.tasks
    ensures Shown(TaskNext(s, t))
  {
    hide TaskNext;
    F.TaskFrame(s, t);
    F.TaskDrops(s, t);
    if s.tasks[t].CallingBack? && s.tasks[t].chain.stage.Resetting? {
      assert TaskNext(s, t).current.None? by { ResetClears(s, t); }
    } else {
      F.TaskKeepsCurrent(s, t);
    }
  }

  lemma ResetClears(s: State, t: nat)
    requires t in s.tasks && s.tasks[t].CallingBack? && s.tasks[t].chain.stage.Resetting?
    ensures TaskNext(s, t).current.None?
  {
  }

  lemma CallShows(s: State, e: Step)
    requires Shown(s) && Enabled(s, e) && !e.Continue? && !e.Advance?
    ensures Shown(Next(s, e))
  {
    hide TaskNext, ExecutorNext, Lock, At, Armed;
    match e {
      case ArmGoal(g, accepted) => ArmShows(s, g, accepted);
      case _ =>
    }
  }

  lemma ArmShows(s: State, g: Goal, accepted: bool)
    requires Shown(s) && s.pc.Arming?
    ensures Shown(Arm(s, g, accepted))
  {
    hide At, Armed, Live;
  }

  lemma NextShows(s: State, e: Step)
    requires Shown(s) && Enabled(s, e)
    ensures Shown(Next(s, e))
  {
    hide TaskNext, ExecutorNext, Alive, Live, Lock, Put, Release, Shown;
    match e {
      case Continue => ExecutorShows(s);
      case Advance(t) => TaskShows(s, t);
      case _ => CallShows(s, e);
    }
  }

  lemma {:induction false} ShownHolds(assumed: Assumptions, s: State, run: seq<Step>)
    requires IsRun(assumed, s, run) && Shown(s)
    ensures Shown(Final(assumed, s, run))
    decreases |run|
  {
    hide Next, Shown, InOneStep, HonestRobot;
    if run != [] {
      NextShows(s, run[0]);
      ShownHolds(assumed, Next(s, run[0]), run[1..]);
    }
  }

  lemma RunIsShown(assumed: Assumptions, run: seq<Step>)
    requires IsRun(assumed, INITIAL, run)
    ensures Shown(Final(assumed, INITIAL, run))
  {
    ShownHolds(assumed, INITIAL, run);
  }

  // ----- one message, handled to the end -----

  /** A feedback message comes in and its callback runs to the end. */
  function Handling(t: nat, f: Feedback): seq<Step> {
    [FeedbackArrives(t, f), Advance(t), Advance(t), Advance(t), Advance(t), Advance(t), Advance(t), Advance(t)]
  }

  function With(s: State, t: nat, task: Task): State {
    s.(tasks := s.tasks[t := task])
  }

  function Buffered(x: Session, f: Feedback): Session {
    x.(reason := f.reason, target := f.index, pending := Some(f))
  }

  /** The session has what the message reports, and nothing else has changed. */
  function Handled(s: State, i: SessionId, f: Feedback): State
    requires i < |s.sessions|
  {
    s.(sessions := s.sessions[i := Buffered(s.sessions[i], f)], log := s.log + [Heard(f)])
  }

  lemma Locks(s: State, t: nat, i: SessionId, f: Feedback)
    requires Wired(s, i, f.goal)
    ensures TaskNext(With(s, t, GotFeedback(f)), t) == With(s, t, Checking(i, f))
  {
    var s1 := With(s, t, GotFeedback(f));
    assert Lock(s1) == Some(i);
    hide Lock;
    assert s1.tasks[t := Checking(i, f)] == With(s, t, Checking(i, f)).tasks;
  }

  lemma Looks(s: State, t: nat, i: SessionId, f: Feedback)
    requires Wired(s, i, f.goal)
    ensures TaskNext(With(s, t, Checking(i, f)), t) == With(s, t, Copying(i, f))
    ensures TaskNext(With(s, t, Copying(i, f)), t) == With(s, t, Matched(i, f, Some(i)))
  {
    hide Alive;
    assert With(s, t, Checking(i, f)).tasks[t := Copying(i, f)] == With(s, t, Copying(i, f)).tasks;
    assert With(s, t, Copying(i, f)).tasks[t := Matched(i, f, Some(i))] == With(s, t, Matched(i, f, Some(i))).tasks;
  }

  lemma Enters(s: State, t: nat, i: SessionId, f: Feedback)
    requires i < |s.sessions| && s.current == Some(i) && !s.sessions[i].done
    ensures TaskNext(With(s, t, Entering(i, f, i)), t) == With(s, t, Targeting(i, f, i))
  {
    assert Alive(With(s, t, Entering(i, f, i)), i);
    hide Alive;
    assert With(s, t, Entering(i, f, i)).tasks[t := Targeting(i, f, i)] == With(s, t, Targeting(i, f, i)).tasks;
  }

  lemma Reasons(s: State, t: nat, i: SessionId, f: Feedback)
    requires i < |s.sessions|
    ensures TaskNext(With(s, t, Matched(i, f, Some(i))), t) ==
            With(s.(sessions := s.sessions[i := s.sessions[i].(reason := f.reason)]), t, Entering(i, f, i))
  {
    hide Alive;
    assert With(s, t, Matched(i, f, Some(i))).tasks[t := Entering(i, f, i)] == With(s, t, Entering(i, f, i)).tasks;
  }

  lemma Targets(s: State, t: nat, i: SessionId, f: Feedback)
    requires i < |s.sessions|
    ensures TaskNext(With(s, t, Targeting(i, f, i)), t) ==
            With(s.(sessions := s.sessions[i := s.sessions[i].(target := f.index)]), t, Buffering(i, f, i))
  {
    hide Alive;
    assert With(s, t, Targeting(i, f, i)).tasks[t := Buffering(i, f, i)] == With(s, t, Buffering(i, f, i)).tasks;
  }

  lemma Buffers(s: State, t: nat, i: SessionId, f: Feedback)
    requires i < |s.sessions| && t !in s.tasks
    ensures TaskNext(With(s, t, Buffering(i, f, i)), t) ==
            s.(sessions := s.sessions[i := s.sessions[i].(pending := Some(f))])
  {
    hide Alive;
    assert With(s, t, Buffering(i, f, i)).tasks - {t} == s.tasks;
  }

  /** One step of the callback. */
  lemma Goes(assumed: Assumptions, s: State, t: nat, s1: State, task: Task, s2: State)
    requires Free(assumed, s) && s1.tasks == s.tasks && !s1.pc.Swapped? && !task.CallingBack?
    requires TaskNext(With(s1, t, task), t) == s2
    ensures Leads(assumed, With(s1, t, task), Advance(t), s2)
  {
    hide TaskNext, Free, Leads;
    FreeWith(assumed, s, With(s1, t, task), t, task);
    Schedules.Advances(assumed, With(s1, t, task), t, s2);
  }

  lemma MessageLeads(assumed: Assumptions, s: State, t: nat, f: Feedback, i: SessionId)
    requires Wired(s, i, f.goal) && t !in s.tasks && Free(assumed, s) && !s.pc.Swapped?
    ensures IsRun(assumed, s, Handling(t, f)) && Final(assumed, s, Handling(t, f)) == Handled(s, i, f)
  {
    hide TaskNext, IsRun, Final, Alive, Lock, Leads, Free;
    var x := s.sessions[i];
    var s0 := s.(log := s.log + [Heard(f)]);
    var s3 := s0.(sessions := s.sessions[i := x.(reason := f.reason)]);
    var s5 := s0.(sessions := s.sessions[i := x.(reason := f.reason, target := f.index)]);
    Locks(s0, t, i, f);
    Looks(s0, t, i, f);
    Reasons(s0, t, i, f);
    Enters(s3, t, i, f);
    Targets(s3, t, i, f);
    assert s3.sessions[i := s3.sessions[i].(target := f.index)] == s5.sessions;
    Buffers(s5, t, i, f);
    assert s5.sessions[i := s5.sessions[i].(pending := Some(f))] == Handled(s, i, f).sessions;
    Arrives(assumed, s, t, f, With(s0, t, GotFeedback(f)));
    Goes(assumed, s, t, s0, GotFeedback(f), With(s0, t, Checking(i, f)));
    Goes(assumed, s, t, s0, Checking(i, f), With(s0, t, Copying(i, f)));
    Goes(assumed, s, t, s0, Copying(i, f), With(s0, t, Matched(i, f, Some(i))));
    Goes(assumed, s, t, s0, Matched(i, f, Some(i)), With(s3, t, Entering(i, f, i)));
    Goes(assumed, s, t, s3, Entering(i, f, i), With(s3, t, Targeting(i, f, i)));
    Goes(assumed, s, t, s3, Targeting(i, f, i), With(s5, t, Buffering(i, f, i)));
    Goes(assumed, s, t, s5, Buffering(i, f, i), Handled(s, i, f));
    hide With, Handled;
    Path(assumed,
         [s, With(s0, t, GotFeedback(f)), With(s0, t, Checking(i, f)), With(s0, t, Copying(i, f)),
          With(s0, t, Matched(i, f, Some(i))), With(s3, t, Entering(i, f, i)), With(s3, t, Targeting(i, f, i)),
          With(s5, t, Buffering(i, f, i)), Handled(s, i, f)],
         Handling(t, f));
  }

  // ----- the drain -----

  const DRAINING: seq<Step> := [Drain, Continue, Continue, Continue]

  /** The report has been given to the RMF estimator, and the buffer is empty. */
  function Emptied(s: State, i: SessionId, f: Feedback): State
    requires i < |s.sessions|
  {
    s.(sessions := s.sessions[i := s.sessions[i].(pending := None)], held := {}, log := s.log + [Estimated(i, f)])
  }

  lemma DrainLeads(assumed: Assumptions, s: State, i: SessionId, f: Feedback)
    requires s.pc.Idle? && Free(assumed, s) && Wired(s, i, f.goal) && s.sessions[i].pending == Some(f)
    ensures IsRun(assumed, s, DRAINING) && Final(assumed, s, DRAINING) == Emptied(s, i, f)
  {
    hide IsRun, Final, Alive, Lock, Leads, Free, TaskNext;
    var s1 := s.(pc := Draining(i), held := {i});
    var s2 := s1.(pc := Snapshotting(i));
    var s3 := s2.(sessions := s.sessions[i := s.sessions[i].(pending := None)], pc := Estimating(i, f));
    SameFree(assumed, s, s1);
    SameFree(assumed, s, s2);
    SameFree(assumed, s, s3);
    Calls(assumed, s, Drain, s1);
    Continues(assumed, s1, s2);
    Continues(assumed, s2, s3);
    Continues(assumed, s3, Emptied(s, i, f));
    hide Emptied;
    Path(assumed, [s, s1, s2, s3, Emptied(s, i, f)], DRAINING);
  }

  // ----- several messages, and the drain -----

  /** A feedback message and the number of the callback that handles it. */
  datatype Report = Report(task: nat, feedback: Feedback)

  function HandlingAll(reports: seq<Report>): seq<Step> {
    if reports == [] then []
    else
      var last := reports[|reports| - 1];
      HandlingAll(reports[..|reports| - 1]) + Handling(last.task, last.feedback)
  }

  /** The messages came in. */
  function HeardAll(reports: seq<Report>): seq<Record> {
    if reports == [] then [] else HeardAll(reports[..|reports| - 1]) + [Heard(reports[|reports| - 1].feedback)]
  }

  /** Every message is about the goal, and is handled by a callback of its own. */
  predicate AreAbout(s: State, g: Goal, reports: seq<Report>) {
    forall k | 0 <= k < |reports| :: reports[k].feedback.goal == g && reports[k].task !in s.tasks
  }

  /** The state after the messages were handled: the last one counts. */
  function HandledAll(s: State, i: SessionId, reports: seq<Report>): State
    requires i < |s.sessions| && reports != []
  {
    var f := reports[|reports| - 1].feedback;
    s.(sessions := s.sessions[i := Buffered(s.sessions[i], f)], log := s.log + HeardAll(reports))
  }

  lemma {:induction false} MessagesLead(assumed: Assumptions, s: State, i: SessionId, g: Goal, reports: seq<Report>)
    requires Wired(s, i, g) && Free(assumed, s) && !s.pc.Swapped? && reports != [] && AreAbout(s, g, reports)
    ensures IsRun(assumed, s, HandlingAll(reports))
    ensures Final(assumed, s, HandlingAll(reports)) == HandledAll(s, i, reports)
    decreases |reports|
  {
    hide IsRun, Final, Free, Handling;
    var before, last := reports[..|reports| - 1], reports[|reports| - 1];
    if before == [] {
      MessageLeads(assumed, s, last.task, last.feedback, i);
      assert HandlingAll(reports) == [] + Handling(last.task, last.feedback) == Handling(last.task, last.feedback);
      assert HeardAll(before) == [] && HeardAll(reports) == [Heard(last.feedback)];
    } else {
      MessagesLead(assumed, s, i, g, before);
      var s1 := HandledAll(s, i, before);
      assert Free(assumed, s1) by { SameFree(assumed, s, s1); }
      MessageLeads(assumed, s1, last.task, last.feedback, i);
      Append(assumed, s, HandlingAll(before), Handling(last.task, last.feedback));
      assert Handled(s1, i, last.feedback).sessions == HandledAll(s, i, reports).sessions;
      assert Handled(s1, i, last.feedback).log == HandledAll(s, i, reports).log;
    }
  }

  /** The session held at rest has a live goal and wants arrivals. */
  predicate WantsArrivals(s: State, i: SessionId, g: Goal) {
    && s.current == Some(i) && i < |s.sessions| && s.sessions[i].goal == Some(g) && !s.sessions[i].done
    && s.sessions[i].estimator.Some? && s.sessions[i].rmfEstimator.Some?
  }

  /** In every reachable state at rest, such a session is the one the controller finds, and wired to its own path. */
  lemma WantedIsWired(assumed: Assumptions, run: seq<Step>, i: SessionId, g: Goal)
    requires IsRun(assumed, INITIAL, run)
    requires var s := Final(assumed, INITIAL, run); s.pc.Idle? && WantsArrivals(s, i, g)
    ensures Wired(Final(assumed, INITIAL, run), i, g)
  {
    hide Next, E.Timely, E.TasksOk, E.PcOk, E.CurrentOk, E.Reported;
    RunIsShown(assumed, run);
    E.EstimatorInv(assumed, run);
    var s := Final(assumed, INITIAL, run);
    assert E.SessionOk(s.sessions[i], i, s.issued, s.log);
  }

  lemma ReportsDrain(assumed: Assumptions, s: State, i: SessionId, g: Goal, reports: seq<Report>)
    requires s.pc.Idle? && Wired(s, i, g) && Free(assumed, s) && reports != [] && AreAbout(s, g, reports)
    ensures IsRun(assumed, s, HandlingAll(reports) + DRAINING)
    ensures Final(assumed, s, HandlingAll(reports) + DRAINING) ==
            Emptied(HandledAll(s, i, reports), i, reports[|reports| - 1].feedback)
  {
    hide IsRun, Final, Free, HandlingAll, HeardAll, Emptied;
    MessagesLead(assumed, s, i, g, reports);
    var s1 := HandledAll(s, i, reports);
    SameFree(assumed, s, s1);
    DrainLeads(assumed, s1, i, reports[|reports| - 1].feedback);
    Append(assumed, s, HandlingAll(reports), DRAINING);
  }

  /**
   * From every reachable state at rest in which the session held has a live goal and wants
   * arrivals, feedback messages about that goal that come in, are handled to the end one
   * after another, and are then drained, end with one call of the RMF estimator of that
   * path, with the last of them. Its target index and failure reason are what the session
   * then shows; nothing else is left behind.
   */
  lemma ReportsReachRmf(assumed: Assumptions, run: seq<Step>, i: SessionId, g: Goal, reports: seq<Report>)
    requires IsRun(assumed, INITIAL, run) && reports != []
    requires var s := Final(assumed, INITIAL, run);
      s.pc.Idle? && WantsArrivals(s, i, g) && Free(assumed, s) && AreAbout(s, g, reports)
    ensures var s, more := Final(assumed, INITIAL, run), HandlingAll(reports) + DRAINING;
      IsRun(assumed, s, more) &&
      var s', f := Final(assumed, s, more), reports[|reports| - 1].feedback;
      && s'.log == s.log + HeardAll(reports) + [Estimated(i, f)]
      && s'.sessions == s.sessions[i := s.sessions[i].(target := f.index, reason := f.reason, pending := None)]
      && s'.pc.Idle? && s'.tasks == s.tasks && s'.current == Some(i) && s'.pendingFailure == s.pendingFailure
  {
    hide IsRun, Final, Free, HandlingAll, HeardAll;
    WantedIsWired(assumed, run, i, g);
    ReportsDrain(assumed, Final(assumed, INITIAL, run), i, g, reports);
  }

  // ----- whatever else happens -----

  /** The callback is on its way with a report for session i. */
  predicate OnItsWay(s: State, t: nat, i: SessionId, f: Feedback) {
    t in s.tasks &&
    (|| s.tasks[t] == GotFeedback(f) || s.tasks[t] == Checking(i, f) || s.tasks[t] == Copying(i, f)
     || s.tasks[t] == Matched(i, f, Some(i)) || s.tasks[t] == Entering(i, f, i)
     || s.tasks[t] == Targeting(i, f, i) || s.tasks[t] == Buffering(i, f, i))
  }

  predicate Waiting(s: State, i: SessionId, f: Feedback) {
    i < |s.sessions| && s.sessions[i].pending == Some(f)
  }

  /** The report is in a callback, in the buffer, in the executor's hands, or delivered since the log had length n. */
  ghost predicate Kept(s: State, t: nat, i: SessionId, f: Feedback, n: nat) {
    || OnItsWay(s, t, i, f)
    || Waiting(s, i, f)
    || s.pc == Estimating(i, f)
    || exists k :: n <= k < |s.log| && s.log[k] == Estimated(i, f)
  }

  /** A callback puts another report in place of this one. */
  predicate Overtakes(s: State, e: Step, i: SessionId, f: Feedback) {
    && e.Advance? && e.task in s.tasks && s.tasks[e.task].Buffering? && s.tasks[e.task].buffer == i
    && Waiting(s, i, f) && s.tasks[e.task].feedback != f
  }

  ghost function WiredFor(i: SessionId, g: Goal): State -> bool {
    (s: State) => Wired(s, i, g)
  }

  ghost function OvertakesFor(i: SessionId, f: Feedback): (State, Step) -> bool {
    (s: State, e: Step) => Overtakes(s, e, i, f)
  }

  // ----- what each step does to it -----

  /** The session keeps its buffer, unless it is left without a goal. */
  predicate KeepsBuffer(sessions: seq<Session>, sessions': seq<Session>, i: SessionId) {
    i < |sessions| ==>
      i < |sessions'| && (sessions'[i].pending == sessions[i].pending || sessions'[i].goal.None?)
  }

  lemma PutKeepsBuffer(s: State, j: SessionId, x: Session, i: SessionId)
    requires i == j ==> x.pending == At(s, j).pending || x.goal.None?
    ensures KeepsBuffer(s.sessions, Put(s, j, x).sessions, i)
  {
  }

  lemma InvalidateKeepsBuffer(s: State, j: SessionId, i: SessionId)
    ensures KeepsBuffer(s.sessions, Invalidate(s, j).sessions, i)
    ensures KeepsBuffer(s.sessions, CancelSession(s, j).sessions, i)
  {
    hide CancelSession, Invalidate;
    F.InvalidateShape(s, j);
    CancelInvalidates(s, j);
  }

  lemma ChainKeepsBuffer(s: State, chain: Chain, i: SessionId)
    ensures KeepsBuffer(s.sessions, ChainNext(s, chain).sessions, i)
  {
    hide Invalidate, Alive, KeepsBuffer;
    SameKeepsBuffer(s.sessions, i);
    if chain.stage.Invalidating? {
      InvalidateKeepsBuffer(s, Own(chain.callback), i);
    }
  }

  lemma SameKeepsBuffer(sessions: seq<Session>, i: SessionId)
    ensures KeepsBuffer(sessions, sessions, i)
  {
  }

  /** A callback other than one that buffers a report leaves the buffer alone. */
  lemma TaskKeepsBuffer(s: State, t: nat, i: SessionId)
    requires t in s.tasks && !(s.tasks[t].Buffering? && s.tasks[t].buffer == i)
    ensures KeepsBuffer(s.sessions, TaskNext(s, t).sessions, i)
  {
    hide ChainNext, Alive, Lock, Verdict, Taken, KeepsBuffer;
    SameKeepsBuffer(s.sessions, i);
    match s.tasks[t] {
      case CallingBack(_, chain) => ChainKeepsBuffer(s, chain, i);
      case Matched(j, feedback, _) => PutKeepsBuffer(s, j, At(s, j).(reason := feedback.reason), i);
      case Targeting(_, feedback, j) => PutKeepsBuffer(s, j, At(s, j).(target := feedback.index), i);
      case Buffering(_, feedback, j) => PutKeepsBuffer(s, j, At(s, j).(pending := Some(feedback)), i);
      case Deciding(j, _) => PutKeepsBuffer(s, j, Invalidated(At(s, j)), i);
      case _ =>
    }
  }

  lemma AnswerKeepsBuffer(s: State, i: SessionId)
    requires s.pc.Sending?
    ensures KeepsBuffer(s.sessions, Answer(s).sessions, i)
  {
    hide Live, Completion, KeepsBuffer;
    var j := s.pc.session;
    SameKeepsBuffer(s.sessions, i);
    PutKeepsBuffer(s, j, At(s, j).(done := true), i);
  }

  /** And so does the executor, outside the drain. */
  lemma ExecutorKeepsBuffer(s: State, i: SessionId)
    requires !s.pc.Snapshotting?
    ensures KeepsBuffer(s.sessions, ExecutorNext(s).sessions, i)
  {
    hide Answer, ChainNext, Lock, Drained, KeepsBuffer, Invalidate, CancelSession, At;
    SameKeepsBuffer(s.sessions, i);
    match s.pc {
      case Swapped(_, _, previous) =>
        if previous.Some? {
          InvalidateKeepsBuffer(s, previous.value, i);
        }
      case Cleared(n, wants) =>
        PutKeepsBuffer(s, n, At(s, n).(rmfEstimator := if wants then Some(n) else None, failure := Some(n)), i);
      case Sending(_, _) => AnswerKeepsBuffer(s, i);
      case Firing(chain) => ChainKeepsBuffer(s, chain, i);
      case StopCancelling(j) => InvalidateKeepsBuffer(s, j, i);
      case StopInvalidating(j) => InvalidateKeepsBuffer(s, j, i);
      case Cancelling(j) => InvalidateKeepsBuffer(s, j, i);
      case _ =>
    }
  }

  /** The drain takes a report only to deliver it. */
  lemma SnapshotTakes(s: State, i: SessionId, f: Feedback)
    requires s.pc.Snapshotting? && Waiting(s, i, f) && s.sessions[i].rmfEstimator == Some(i)
    ensures Waiting(ExecutorNext(s), i, f) || ExecutorNext(s).pc == Estimating(i, f)
  {
  }

  lemma OwnStepKeeps(s: State, t: nat, i: SessionId, f: Feedback, n: nat)
    requires Wired(s, i, f.goal) && OnItsWay(s, t, i, f)
    ensures Kept(TaskNext(s, t), t, i, f, n)
  {
    assert Lock(s) == Some(i);
    assert Alive(s, i);
    hide Alive, Lock;
  }

  lemma BufferStays(s: State, e: Step, i: SessionId, g: Goal, f: Feedback)
    requires Enabled(s, e) && Wired(s, i, g) && Wired(Next(s, e), i, g) && Waiting(s, i, f) && !Overtakes(s, e, i, f)
    ensures Waiting(Next(s, e), i, f) || Next(s, e).pc == Estimating(i, f)
  {
    hide TaskNext, ExecutorNext, Alive, Lock, Live;
    match e {
      case Continue =>
        if s.pc.Snapshotting? {
          SnapshotTakes(s, i, f);
        } else {
          ExecutorKeepsBuffer(s, i);
        }
      case Advance(t) =>
        if s.tasks[t].Buffering? && s.tasks[t].buffer == i {
          BuffersTheSame(s, t, i, f);
        } else {
          TaskKeepsBuffer(s, t, i);
        }
      case _ =>
    }
  }

  lemma BuffersTheSame(s: State, t: nat, i: SessionId, f: Feedback)
    requires t in s.tasks && s.tasks[t].Buffering? && s.tasks[t].buffer == i && s.tasks[t].feedback == f && i < |s.sessions|
    ensures Waiting(TaskNext(s, t), i, f)
  {
  }

  lemma OtherStepKeeps(s: State, e: Step, t: nat, i: SessionId, f: Feedback)
    requires Enabled(s, e) && e != Advance(t) && OnItsWay(s, t, i, f)
    ensures OnItsWay(Next(s, e), t, i, f)
  {
    hide TaskNext, ExecutorNext, Alive, Lock;
    match e {
      case Continue => F.ExecutorFrame(s);
      case Advance(u) => F.TaskFrame(s, u);
      case _ =>
    }
  }

  lemma LogGrows(s: State, e: Step)
    requires Enabled(s, e)
    ensures s.log <= Next(s, e).log
  {
    hide TaskNext, ExecutorNext, Alive, Lock;
    match e {
      case Continue => F.ExecutorLog(s);
      case Advance(u) => F.TaskLog(s, u);
      case _ =>
    }
  }

  /** What the executor holds is delivered next. */
  lemma HandDelivers(s: State, e: Step, t: nat, i: SessionId, f: Feedback, n: nat)
    requires Enabled(s, e) && s.pc == Estimating(i, f) && n <= |s.log|
    ensures Kept(Next(s, e), t, i, f, n)
  {
    hide TaskNext, Alive, Lock;
    match e {
      case Continue => assert Next(s, e).log[|s.log|] == Estimated(i, f);
      case Advance(u) => F.TaskFrame(s, u);
      case _ =>
    }
  }

  lemma StepKeepsReport(s: State, e: Step, t: nat, i: SessionId, f: Feedback, n: nat)
    requires Enabled(s, e) && Wired(s, i, f.goal) && Wired(Next(s, e), i, f.goal) && n <= |s.log|
    requires Kept(s, t, i, f, n) && !Overtakes(s, e, i, f)
    ensures Kept(Next(s, e), t, i, f, n) && n <= |Next(s, e).log|
  {
    hide Next, Wired, Overtakes, Enabled, Waiting;
    LogGrows(s, e);
    if OnItsWay(s, t, i, f) {
      if e == Advance(t) {
        OwnStepKeeps(s, t, i, f, n);
        AdvanceIs(s, t);
      } else {
        OtherStepKeeps(s, e, t, i, f);
      }
    } else if Waiting(s, i, f) {
      BufferStays(s, e, i, f.goal, f);
    } else if s.pc == Estimating(i, f) {
      HandDelivers(s, e, t, i, f, n);
    } else {
      var k :| n <= k < |s.log| && s.log[k] == Estimated(i, f);
      assert Next(s, e).log[k] == Estimated(i, f);
    }
  }

  lemma AdvanceIs(s: State, t: nat)
    requires t in s.tasks
    ensures Next(s, Advance(t)) == TaskNext(s, t)
  {
    hide TaskNext;
  }

  /**
   * On every run, however the threads interleave: as long as the session held stays wired
   * for its goal, a report about it that is on its way is not lost. It is on its way still,
   * or waits in the buffer, or is in the executor's hands, or was delivered to the RMF
   * estimator of the path; or another report has overtaken it in the buffer.
   */
  lemma {:induction false} ReportsAreNotLost(assumed: Assumptions, s: State, run: seq<Step>, t: nat, i: SessionId, f: Feedback, n: nat)
    requires IsRun(assumed, s, run) && Kept(s, t, i, f, n) && n <= |s.log|
    requires Always(assumed, WiredFor(i, f.goal), s, run) && !Sometime(assumed, OvertakesFor(i, f), s, run)
    ensures Kept(Final(assumed, s, run), t, i, f, n)
    decreases |run|
  {
    hide Next, Kept, Wired, Overtakes, InOneStep, HonestRobot, Enabled;
    if run != [] {
      StepKeepsReport(s, run[0], t, i, f, n);
      ReportsAreNotLost(assumed, Next(s, run[0]), run[1..], t, i, f, n);
    }
  }
}
