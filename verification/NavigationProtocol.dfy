/**
 * The path handle and the navigation controller as one transition system. A step is one
 * critical section, or one atomic load or store, of the RMF executor or of one Zenoh
 * callback in flight.
 *
 * RMF calls and the update tick are serial, so the executor has a single control point.
 * Goal ids are fresh when they are issued. The other two hypotheses are chosen per run:
 * see Assumptions.
 *
 * A session is numbered by its request: session i belongs to the i-th non-empty path.
 */
module NavigationProtocol {
  import opened Common
  import opened NavigationSession

  /** A goal as it was issued. accepted is the answer its send will get. */
  datatype Issue = Issue(session: SessionId, owner: Option<Owner>, accepted: bool)

  /** The callbacks handed to the controller with a path. */
  datatype Call = Call(owner: Option<Owner>, estimator: Option<SessionId>)

  datatype Stage = Invalidating | Resetting | Finishing

  /** A session callback part way through, and the goal it was taken for. */
  datatype Chain = Chain(callback: Callback, goal: Option<Goal>, stage: Stage)

  /** What the RMF executor does next. */
  datatype Pc =
    | Idle
    // a new path
    | Swapped(request: SessionId, wantsArrivals: bool, previous: Option<SessionId>)  // invalidates the old session
    | Superseded(request: SessionId, wantsArrivals: bool)   // clears the pending failure
    | Cleared(request: SessionId, wantsArrivals: bool)      // fills the session, shows it to the controller
    | Calling(call: Call)                                   // locks the weak pointer
    // a path, dock or action in the controller
    | Arming(call: Call, session: SessionId)
    | Sending(session: SessionId, goal: Goal)               // after the answer, rejects if it must
    | Firing(chain: Chain)
    // stop and cancel
    | StopCancelling(session: SessionId)
    | StopReading
    | StopInvalidating(session: SessionId)
    | StopResetting
    | StopClearing
    | Cancelling(session: SessionId)
    // the drain of the update tick
    | Draining(session: SessionId)                          // checks done
    | Snapshotting(session: SessionId)
    | Estimating(request: SessionId, feedback: Feedback)    // calls the RMF estimator

  /** What a Zenoh callback in flight does next; session is the reference it holds. */
  datatype Task =
    | GotFeedback(feedback: Feedback)                       // locks the weak pointer
    | Checking(session: SessionId, feedback: Feedback)      // checks done
    | Copying(session: SessionId, feedback: Feedback)       // copies the estimator and the goal
    | Matched(session: SessionId, feedback: Feedback, estimator: Option<SessionId>)  // stores the reason
    | Entering(session: SessionId, feedback: Feedback, buffer: SessionId)   // the estimator checks done
    | Targeting(session: SessionId, feedback: Feedback, buffer: SessionId)  // stores the target index
    | Buffering(session: SessionId, feedback: Feedback, buffer: SessionId)  // buffers the feedback
    | GotStatus(statuses: seq<Status>)                      // locks the weak pointer
    | Deciding(session: SessionId, statuses: seq<Status>)
    | CallingBack(session: SessionId, chain: Chain)

  /** What an observer of the callbacks, and of the calls of RMF, sees. */
  datatype Record =
    | Followed(request: SessionId)
    | Stopped
    | Fired(owner: Owner, goal: Goal)              // a completion was called
    | Bypassed(owner: Owner)                       // a completion was called, but nothing had been sent
    | Failed(session: SessionId, goal: Goal)       // the failure flag was raised
    | Withdrawn(goal: Goal)                        // a live goal was invalidated or replaced
    | Unheard(goal: Goal)                          // resolved, but its callback was null
    | Heard(feedback: Feedback)                    // a feedback message came in
    | Estimated(request: SessionId, feedback: Feedback)  // the RMF estimator of the request was called
    | Replanned

  /** Where the resolution of a goal is. Bookkeeping: no step looks at it. */
  datatype Place = InSession | InTask(task: nat) | InExecutor | Closed

  /** current is session_, wp the weak pointer of the controller, held what the executor keeps alive. */
  datatype State = State(
    sessions: seq<Session>, current: Option<SessionId>, wp: Option<SessionId>, pendingFailure: bool,
    pc: Pc, held: set<SessionId>, tasks: map<nat, Task>,
    issued: map<Goal, Issue>, place: map<Goal, Place>, log: seq<Record>)

  const INITIAL: State := State([], None, None, false, Idle, {}, map[], map[], map[], [])

  function At(s: State, i: SessionId): Session {
    if i < |s.sessions| then s.sessions[i] else FRESH
  }

  function Put(s: State, i: SessionId, x: Session): State {
    if i < |s.sessions| then s.(sessions := s.sessions[i := x]) else s
  }

  function HeldBy(task: Task): set<SessionId> {
    match task
    case GotFeedback(_) => {}
    case GotStatus(_) => {}
    case Entering(i, _, j) => {i, j}
    case Targeting(i, _, j) => {i, j}
    case Buffering(i, _, j) => {i, j}
    case _ => {task.session}
  }

  /** Some shared pointer to the session is left. */
  ghost predicate Alive(s: State, i: SessionId) {
    || s.current == Some(i)
    || i in s.held
    || exists t | t in s.tasks :: i in HeldBy(s.tasks[t])
  }

  ghost function Lock(s: State): Option<SessionId> {
    if s.wp.Some? && Alive(s, s.wp.value) then s.wp else None
  }

  // ----- effects shared by several steps -----

  /** A goal is closed with its record. */
  function Close(s: State, goal: Goal, record: Record): State {
    s.(log := s.log + [record], place := s.place[goal := Closed])
  }

  /** Withdraws the live goal of a session, if it has one, leaving the session as it is. */
  function Release(s: State, i: SessionId): State {
    if Live(At(s, i)) then Close(s, At(s, i).goal.value, Withdrawn(At(s, i).goal.value)) else s
  }

  function Invalidate(s: State, i: SessionId): State {
    Put(Release(s, i), i, Invalidated(At(s, i)))
  }

  /** Cancelling leaves a session without a goal alone. */
  function CancelSession(s: State, i: SessionId): State {
    Put(Release(s, i), i, Cancelled(At(s, i)))
  }

  lemma CancelInvalidates(s: State, i: SessionId)
    ensures CancelSession(s, i) == if At(s, i).goal.Some? then Invalidate(s, i) else s
  {
    if i < |s.sessions| {
      assert s.sessions[i := s.sessions[i]] == s.sessions;
    }
  }

  function Return(s: State): State {
    s.(pc := Idle, held := {})
  }

  function End(s: State, t: nat): State {
    s.(tasks := s.tasks - {t})
  }

  function Begin(callback: Callback, goal: Option<Goal>): Chain {
    Chain(callback, goal, if callback.Complete? && callback.owner.Errand? then Finishing else Invalidating)
  }

  function Own(callback: Callback): SessionId {
    match callback
    case Complete(PathRequest(i)) => i
    case Complete(Errand(_)) => 0
    case Fail(i) => i
  }

  /** One stage of a callback. */
  ghost function ChainNext(s: State, chain: Chain): State {
    match chain.stage
    case Invalidating => if Alive(s, Own(chain.callback)) then Invalidate(s, Own(chain.callback)) else s
    case Resetting => s.(current := None)
    case Finishing =>
      match chain.callback
      case Complete(owner) =>
        if chain.goal.Some? then Close(s, chain.goal.value, Fired(owner, chain.goal.value))
        else s.(log := s.log + [Bypassed(owner)])
      case Fail(i) =>
        if chain.goal.Some? then Close(s, chain.goal.value, Failed(i, chain.goal.value)).(pendingFailure := true)
        else s.(pendingFailure := true)
  }

  function After(stage: Stage): Stage {
    if stage.Invalidating? then Resetting else Finishing
  }

  /** A callback that was taken for a live goal is begun, or the goal ends unheard. */
  function Commit(s: State, callback: Option<Callback>, goal: Goal, place: Place): State {
    if callback.Some? then s.(place := s.place[goal := place]) else Close(s, goal, Unheard(goal))
  }

  // ----- the RMF executor -----

  ghost function LockSession(s: State, call: Call): State {
    var session := Lock(s);
    if session.Some? then s.(pc := Arming(call, session.value), held := s.held + {session.value})
    else if call.owner.Some? then s.(pc := Firing(Begin(Complete(call.owner.value), None)))
    else Return(s)
  }

  function Arm(s: State, goal: Goal, accepted: bool): State
    requires s.pc.Arming?
  {
    var (call, i) := (s.pc.call, s.pc.session);
    var s1 := Put(Release(s, i), i, Armed(At(s, i), goal, call.owner, call.estimator));
    s1.(issued := s1.issued[goal := Issue(i, call.owner, accepted)], place := s1.place[goal := InSession],
        pc := Sending(i, goal))
  }

  /** The send was answered. */
  function Answer(s: State): State
    requires s.pc.Sending?
  {
    var (i, goal) := (s.pc.session, s.pc.goal);
    if goal in s.issued && s.issued[goal].accepted then Return(s)
    else
      var x := At(s, i);
      var callback := Completion(x);
      var s1 := Put(if Live(x) then Commit(s, callback, x.goal.value, InExecutor) else s, i, x.(done := true));
      if callback.Some? then s1.(pc := Firing(Begin(callback.value, x.goal))) else Return(s1)
  }

  ghost function ExecutorNext(s: State): State {
    match s.pc
    case Swapped(n, wants, previous) =>
      (if previous.Some? then Invalidate(s, previous.value) else s).(pc := Superseded(n, wants), held := {n})
    case Superseded(n, wants) => s.(pc := Cleared(n, wants), pendingFailure := false)
    case Cleared(n, wants) =>
      var estimator := if wants then Some(n) else None;
      Put(s, n, At(s, n).(rmfEstimator := estimator, failure := Some(n))).(
        wp := Some(n), pc := Calling(Call(Some(PathRequest(n)), estimator)))
    case Calling(call) => LockSession(s, call)
    case Sending(_, _) => Answer(s)
    case Firing(chain) =>
      var s1 := ChainNext(s, chain);
      if chain.stage.Finishing? then Return(s1) else s1.(pc := Firing(chain.(stage := After(chain.stage))))
    case StopCancelling(i) =>
      CancelSession(s, i).(pc := StopReading, held := {})
    case StopReading =>
      if s.current.Some? then s.(pc := StopInvalidating(s.current.value), held := {s.current.value})
      else s.(pc := StopResetting)
    case StopInvalidating(i) => Invalidate(s, i).(pc := StopResetting)
    case StopResetting => s.(current := None, pc := StopClearing)
    case StopClearing => Return(s.(pendingFailure := false))
    case Cancelling(i) => Return(CancelSession(s, i))
    case Draining(i) => if At(s, i).done then Return(s) else s.(pc := Snapshotting(i))
    case Snapshotting(i) =>
      var taken := Drained(At(s, i));
      if taken.None? then Return(s)
      else Put(s, i, At(s, i).(pending := None)).(pc := Estimating(taken.value.0, taken.value.1))
    case Estimating(request, feedback) => Return(s.(log := s.log + [Estimated(request, feedback)]))
    case _ => s
  }

  // ----- a Zenoh callback -----

  function Decide(s: State, t: nat, i: SessionId, statuses: seq<Status>): State {
    var x := At(s, i);
    if Verdict(x, statuses).None? then End(s, t)
    else
      var callback := Taken(x, statuses);
      var s1 := Put(Commit(s, callback, x.goal.value, InTask(t)), i, Invalidated(x));
      if callback.None? then End(s1, t)
      else s1.(tasks := s1.tasks[t := CallingBack(i, Begin(callback.value, x.goal))])
  }

  ghost function TaskNext(s: State, t: nat): State
    requires t in s.tasks
  {
    match s.tasks[t]
    case GotFeedback(feedback) =>
      var session := Lock(s);
      if session.None? then End(s, t) else s.(tasks := s.tasks[t := Checking(session.value, feedback)])
    case Checking(i, feedback) =>
      if At(s, i).done then End(s, t) else s.(tasks := s.tasks[t := Copying(i, feedback)])
    case Copying(i, feedback) =>
      if At(s, i).goal != Some(feedback.goal) then End(s, t)
      else s.(tasks := s.tasks[t := Matched(i, feedback, At(s, i).estimator)])
    case Matched(i, feedback, estimator) =>
      var s1 := Put(s, i, At(s, i).(reason := feedback.reason));
      if estimator.None? then End(s1, t)
      else s1.(tasks := s1.tasks[t := Entering(i, feedback, estimator.value)])
    case Entering(i, feedback, j) =>
      if !Alive(s, j) || At(s, j).done then End(s, t)
      else s.(tasks := s.tasks[t := Targeting(i, feedback, j)])
    case Targeting(i, feedback, j) =>
      Put(s, j, At(s, j).(target := feedback.index)).(tasks := s.tasks[t := Buffering(i, feedback, j)])
    case Buffering(i, feedback, j) =>
      End(Put(s, j, At(s, j).(pending := Some(feedback))), t)
    case GotStatus(statuses) =>
      var session := Lock(s);
      if session.None? then End(s, t) else s.(tasks := s.tasks[t := Deciding(session.value, statuses)])
    case Deciding(i, statuses) => Decide(s, t, i, statuses)
    case CallingBack(i, chain) =>
      var s1 := ChainNext(s, chain);
      if chain.stage.Finishing? then End(s1, t)
      else s1.(tasks := s1.tasks[t := CallingBack(i, chain.(stage := After(chain.stage)))])
  }

  // ----- steps and runs -----

  datatype Step =
    | FollowNewPath(wantsArrivals: bool)             // a non-empty path; null estimator if not wanted
    | Execute(owner: Option<Owner>)                  // a dock or an action executes a path
    | Stop
    | Cancel                                         // an action cancels
    | Drain
    | TakeFailure
    | ArmGoal(goal: Goal, accepted: bool)
    | Continue                                       // the executor takes its next step
    | FeedbackArrives(task: nat, feedback: Feedback)
    | StatusArrives(task: nat, statuses: seq<Status>)
    | Advance(task: nat)                             // a Zenoh callback takes its next step

  predicate Enabled(s: State, e: Step) {
    match e
    case FollowNewPath(_) => s.pc.Idle?
    case Execute(owner) => s.pc.Idle? && (owner.Some? ==> owner.value.Errand?)
    case Stop => s.pc.Idle?
    case Cancel => s.pc.Idle?
    case Drain => s.pc.Idle?
    case TakeFailure => s.pc.Idle?
    case ArmGoal(goal, _) => s.pc.Arming? && goal !in s.issued
    case Continue => !s.pc.Idle? && !s.pc.Arming?
    case FeedbackArrives(t, _) => t !in s.tasks
    case StatusArrives(t, _) => t !in s.tasks
    case Advance(t) => t in s.tasks
  }

  ghost function Next(s: State, e: Step): State
    requires Enabled(s, e)
  {
    match e
    case FollowNewPath(wants) =>
      var n := |s.sessions|;
      s.(sessions := s.sessions + [FRESH], current := Some(n), pc := Swapped(n, wants, s.current),
         held := {n} + (if s.current.Some? then {s.current.value} else {}), log := s.log + [Followed(n)])
    case Execute(owner) => LockSession(s, Call(owner, None))
    case Stop =>
      var session := Lock(s);
      var s1 := s.(log := s.log + [Stopped]);
      if session.Some? then s1.(pc := StopCancelling(session.value), held := {session.value})
      else s1.(pc := StopReading)
    case Cancel =>
      var session := Lock(s);
      if session.Some? then s.(pc := Cancelling(session.value), held := {session.value}) else s
    case Drain =>
      if s.current.Some? then s.(pc := Draining(s.current.value), held := {s.current.value}) else s
    case TakeFailure =>
      if s.pendingFailure then s.(pendingFailure := false, log := s.log + [Replanned]) else s
    case ArmGoal(goal, accepted) => Arm(s, goal, accepted)
    case Continue => ExecutorNext(s)
    case FeedbackArrives(t, feedback) =>
      s.(tasks := s.tasks[t := GotFeedback(feedback)], log := s.log + [Heard(feedback)])
    case StatusArrives(t, statuses) => s.(tasks := s.tasks[t := GotStatus(statuses)])
    case Advance(t) => TaskNext(s, t)
  }

  /**
   * acceptedOnly: the robot publishes a terminal status only for a goal whose send was
   * accepted. atomicCallbacks: a status decision and its callback are one step, and so are
   * the swap of the session and the invalidation of the old one.
   */
  datatype Assumptions = Assumptions(acceptedOnly: bool, atomicCallbacks: bool)

  /** No goal issued here is decided that was, or will be, rejected. */
  predicate AboutAccepted(issued: map<Goal, Issue>, statuses: seq<Status>) {
    forall k | 0 <= k < |statuses| && Terminal(statuses[k].code) && statuses[k].goal in issued ::
      issued[statuses[k].goal].accepted
  }

  function StatusesOf(task: Task): seq<Status> {
    match task
    case GotStatus(statuses) => statuses
    case Deciding(_, statuses) => statuses
    case _ => []
  }

  /** No status message under way decides the goal. */
  predicate Unannounced(tasks: map<nat, Task>, goal: Goal) {
    forall t | t in tasks ::
      forall k | 0 <= k < |StatusesOf(tasks[t])| && Terminal(StatusesOf(tasks[t])[k].code) ::
        StatusesOf(tasks[t])[k].goal != goal
  }

  ghost predicate InOneStep(s: State, e: Step) {
    && (s.pc.Swapped? ==> e.Continue?)
    && (forall t | t in s.tasks && s.tasks[t].CallingBack? :: e == Advance(t))
  }

  /** What acceptedOnly says of one step. */
  predicate HonestRobot(s: State, e: Step) {
    match e
    case StatusArrives(_, statuses) => AboutAccepted(s.issued, statuses)
    case ArmGoal(goal, accepted) => !accepted ==> Unannounced(s.tasks, goal)
    case _ => true
  }

  ghost predicate Allowed(assumed: Assumptions, s: State, e: Step) {
    && Enabled(s, e)
    && (assumed.acceptedOnly ==> HonestRobot(s, e))
    && (assumed.atomicCallbacks ==> InOneStep(s, e))
  }

  ghost predicate IsRun(assumed: Assumptions, s: State, run: seq<Step>)
    decreases |run|
  {
    run != [] ==> Allowed(assumed, s, run[0]) && IsRun(assumed, Next(s, run[0]), run[1..])
  }

  ghost function Final(assumed: Assumptions, s: State, run: seq<Step>): State
    requires IsRun(assumed, s, run)
    decreases |run|
  {
    if run == [] then s else Final(assumed, Next(s, run[0]), run[1..])
  }

  // ----- along a run -----

  /** Every state of the run is good. */
  ghost predicate Always(assumed: Assumptions, good: State -> bool, s: State, run: seq<Step>)
    requires IsRun(assumed, s, run)
    decreases |run|
  {
    good(s) && (run != [] ==> Always(assumed, good, Next(s, run[0]), run[1..]))
  }

  /** Some step of the run, in the state it is taken in, is of the kind. */
  ghost predicate Sometime(assumed: Assumptions, kind: (State, Step) -> bool, s: State, run: seq<Step>)
    requires IsRun(assumed, s, run)
    decreases |run|
  {
    run != [] && (kind(s, run[0]) || Sometime(assumed, kind, Next(s, run[0]), run[1..]))
  }

  lemma {:induction false} AlwaysAtTheEnd(assumed: Assumptions, good: State -> bool, s: State, run: seq<Step>)
    requires IsRun(assumed, s, run) && Always(assumed, good, s, run)
    ensures good(Final(assumed, s, run))
    decreases |run|
  {
    hide Next, InOneStep, HonestRobot;
    if run != [] {
      AlwaysAtTheEnd(assumed, good, Next(s, run[0]), run[1..]);
    }
  }
}
