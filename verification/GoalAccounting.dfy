/**
 * The invariant that accounts for every goal: where its resolution is, and that nobody
 * else has it. Every step keeps it that does not decide a goal already rejected; and an
 * honest robot never makes that happen.
 */
module GoalAccounting {
  import opened Common
  import opened NavigationSession
  import opened NavigationProtocol
  import F = ProtocolFrame

  // ----- what the log says about a goal -----

  /** The goal that a record closes. */
  function Closes(r: Record): Option<Goal> {
    match r
    case Fired(_, goal) => Some(goal)
    case Failed(_, goal) => Some(goal)
    case Withdrawn(goal) => Some(goal)
    case Unheard(goal) => Some(goal)
    case _ => None
  }

  function Closings(log: seq<Record>, goal: Goal): nat {
    if log == [] then 0
    else Closings(log[..|log| - 1], goal) + if Closes(log[|log| - 1]) == Some(goal) then 1 else 0
  }

  lemma ClosingsGrow(log: seq<Record>, r: Record, goal: Goal)
    ensures Closings(log + [r], goal) == Closings(log, goal) + if Closes(r) == Some(goal) then 1 else 0
  {
    assert (log + [r])[..|log|] == log;
  }

  // ----- the invariant -----

  predicate IssueOk(issue: Issue, n: nat) {
    && issue.session < n
    && (issue.owner.Some? && issue.owner.value.PathRequest? ==> issue.owner.value.session == issue.session)
  }

  predicate OfPath(issue: Issue) {
    issue.owner == Some(PathRequest(issue.session))
  }

  ghost predicate IssuesOk(n: nat, issued: map<Goal, Issue>, place: map<Goal, Place>) {
    && issued.Keys == place.Keys
    && (forall g | g in issued :: IssueOk(issued[g], n))
    && (forall g, h | g in issued && h in issued && issued[g].session == issued[h].session ::
          OfPath(issued[g]) && OfPath(issued[h]) ==> g == h)
  }

  ghost predicate SessionOk(x: Session, i: SessionId, issued: map<Goal, Issue>, place: map<Goal, Place>) {
    && (x.failure.Some? ==> x.failure == Some(i))
    && if x.goal.None? then x.completion.None?
       else
         var g := x.goal.value;
         && g in issued && g in place && issued[g].session == i && x.completion == issued[g].owner
         && (if x.done then !issued[g].accepted && place[g] != InSession else place[g] == InSession)
         && (!x.done && OfPath(issued[g]) ==> x.failure.Some?)
  }

  ghost predicate SessionsOk(sessions: seq<Session>, issued: map<Goal, Issue>, place: map<Goal, Place>) {
    && (forall i | 0 <= i < |sessions| :: SessionOk(sessions[i], i, issued, place))
    && (forall g | g in place && place[g] == InSession && g in issued ::
          issued[g].session < |sessions| && sessions[issued[g].session].goal == Some(g))
  }

  /** The callback was stored for the goal: its own completion, or the failure of its session. */
  predicate Answers(callback: Callback, issue: Issue) {
    match callback
    case Complete(owner) => issue.owner == Some(owner)
    case Fail(i) => issue.session == i
  }

  ghost predicate ChainOk(chain: Chain, at: Place, issued: map<Goal, Issue>, place: map<Goal, Place>) {
    && chain.goal.Some? && chain.goal.value in issued && chain.goal.value in place
    && place[chain.goal.value] == at
    && (chain.callback.Complete? && chain.callback.owner.Errand? ==> chain.stage.Finishing?)
    && Answers(chain.callback, issued[chain.goal.value])
  }

  ghost predicate TaskOk(task: Task, t: nat, issued: map<Goal, Issue>, place: map<Goal, Place>) {
    task.CallingBack? ==> ChainOk(task.chain, InTask(t), issued, place)
  }

  ghost predicate TasksOk(tasks: map<nat, Task>, issued: map<Goal, Issue>, place: map<Goal, Place>) {
    && (forall t | t in tasks :: TaskOk(tasks[t], t, issued, place))
    && (forall g | g in place && place[g].InTask? ::
          place[g].task in tasks && tasks[place[g].task].CallingBack?
          && tasks[place[g].task].chain.goal == Some(g))
  }

  /** The executor is in a new path whose goal was not issued yet. */
  predicate Starting(pc: Pc, r: SessionId) {
    || (pc.Swapped? && pc.request == r)
    || (pc.Superseded? && pc.request == r)
    || (pc.Cleared? && pc.request == r)
    || (pc.Calling? && pc.call.owner == Some(PathRequest(r)))
    || (pc.Arming? && pc.call.owner == Some(PathRequest(r)))
  }

  /** The session of a path that is starting has not been used. */
  ghost predicate Unused(r: SessionId, issued: map<Goal, Issue>) {
    forall g | g in issued :: issued[g].session != r
  }

  ghost predicate PcOk(pc: Pc, wp: Option<SessionId>, held: set<SessionId>,
                       sessions: seq<Session>, issued: map<Goal, Issue>, place: map<Goal, Place>)
  {
    && (forall r: SessionId | Starting(pc, r) :: Unused(r, issued) && r < |sessions| && r in held)
    && (forall g | g in place && place[g] == InExecutor :: pc.Firing? && pc.chain.goal == Some(g))
    && match pc
       case Swapped(r, _, previous) => previous != Some(r)
       case Calling(call) => call.owner.Some? && call.owner.value.PathRequest? && wp == Some(call.owner.value.session)
                             && wp.value < |sessions| && sessions[wp.value].failure.Some?
       case Arming(call, i) =>
         i < |sessions| && (call.owner.Some? && call.owner.value.PathRequest? ==>
                              call.owner.value.session == i && sessions[i].failure.Some?)
       case Sending(i, g) =>
         && g in issued && issued[g].session == i && i < |sessions|
         && (sessions[i].goal.None? || (sessions[i].goal == Some(g) && !sessions[i].done))
       case Firing(chain) =>
         if chain.goal.None? then chain.callback.Complete? && chain.callback.owner.Errand? && chain.stage.Finishing?
         else ChainOk(chain, InExecutor, issued, place)
       case _ => true
  }

  ghost predicate CountsOk(log: seq<Record>, place: map<Goal, Place>) {
    forall g: Goal :: Closings(log, g) == if g in place && place[g] == Closed then 1 else 0
  }

  /** A record about a goal names its own completion, or its own session. */
  predicate RecordOk(r: Record, issued: map<Goal, Issue>) {
    match r
    case Fired(owner, g) => g in issued && issued[g].owner == Some(owner)
    case Failed(i, g) => g in issued && issued[g].session == i
    case Withdrawn(g) => g in issued
    case Unheard(g) => g in issued && !OfPath(issued[g])
    case Bypassed(owner) => owner.Errand?
    case _ => true
  }

  ghost predicate LogOk(log: seq<Record>, issued: map<Goal, Issue>) {
    forall k | 0 <= k < |log| :: RecordOk(log[k], issued)
  }

  ghost predicate HasGoal(issued: map<Goal, Issue>, r: SessionId) {
    exists g :: g in issued && issued[g].owner == Some(PathRequest(r))
  }

  ghost predicate RequestsOk(n: nat, pc: Pc, issued: map<Goal, Issue>) {
    forall r: SessionId | r < n :: Starting(pc, r) || HasGoal(issued, r)
  }

  predicate RefOk(wp: Option<SessionId>, n: nat) {
    wp.Some? ==> wp.value < n
  }

  ghost predicate Inv(s: State) {
    && RefOk(s.current, |s.sessions|) && RefOk(s.wp, |s.sessions|)
    && IssuesOk(|s.sessions|, s.issued, s.place)
    && SessionsOk(s.sessions, s.issued, s.place)
    && TasksOk(s.tasks, s.issued, s.place)
    && PcOk(s.pc, s.wp, s.held, s.sessions, s.issued, s.place)
    && CountsOk(s.log, s.place)
    && LogOk(s.log, s.issued)
    && RequestsOk(|s.sessions|, s.pc, s.issued)
  }

  // ----- moving one goal from place to place -----

  lemma TasksIgnore(tasks: map<nat, Task>, issued: map<Goal, Issue>, place: map<Goal, Place>, g: Goal, p: Place)
    requires TasksOk(tasks, issued, place) && g in place && !place[g].InTask? && !p.InTask?
    ensures TasksOk(tasks, issued, place[g := p])
  {
    var place' := place[g := p];
    forall t | t in tasks ensures TaskOk(tasks[t], t, issued, place') {
      assert TaskOk(tasks[t], t, issued, place);
    }
  }

  lemma CountsClose(log: seq<Record>, place: map<Goal, Place>, g: Goal, r: Record)
    requires CountsOk(log, place) && g in place && place[g] != Closed && Closes(r) == Some(g)
    ensures CountsOk(log + [r], place[g := Closed])
  {
    forall h: Goal ensures Closings(log + [r], h) == Closings(log, h) + if h == g then 1 else 0 {
      ClosingsGrow(log, r, h);
    }
  }

  lemma CountsMove(log: seq<Record>, place: map<Goal, Place>, g: Goal, p: Place)
    requires CountsOk(log, place) && (g in place ==> place[g] != Closed) && p != Closed
    ensures CountsOk(log, place[g := p])
  {
    hide Closings;
  }

  lemma CountsSay(log: seq<Record>, place: map<Goal, Place>, r: Record)
    requires CountsOk(log, place) && Closes(r).None?
    ensures CountsOk(log + [r], place)
  {
    forall h: Goal ensures Closings(log + [r], h) == Closings(log, h) {
      ClosingsGrow(log, r, h);
    }
  }

  /** The live goal of a session leaves it, and the session is invalidated. */
  lemma SessionsDrop(sessions: seq<Session>, issued: map<Goal, Issue>, place: map<Goal, Place>,
                     i: SessionId, p: Place)
    requires SessionsOk(sessions, issued, place) && i < |sessions| && Live(sessions[i]) && p != InSession
    ensures SessionsOk(sessions[i := Invalidated(sessions[i])], issued, place[sessions[i].goal.value := p])
    ensures sessions[i].goal.value in place && place[sessions[i].goal.value] == InSession
    ensures sessions[i].goal.value in issued && issued[sessions[i].goal.value].session == i
    ensures sessions[i].completion == issued[sessions[i].goal.value].owner
    ensures sessions[i].failure.Some? ==> sessions[i].failure == Some(i)
    ensures OfPath(issued[sessions[i].goal.value]) ==> sessions[i].failure.Some?
  {
    assert SessionOk(sessions[i], i, issued, place);
    var g := sessions[i].goal.value;
    var sessions', place' := sessions[i := Invalidated(sessions[i])], place[g := p];
    forall j | 0 <= j < |sessions'| ensures SessionOk(sessions'[j], j, issued, place') {
      assert SessionOk(sessions[j], j, issued, place);
    }
  }

  /** Replacing a session whose goal is not live by one without a goal, or by one with the same bindings. */
  lemma SessionsReplace(sessions: seq<Session>, issued: map<Goal, Issue>, place: map<Goal, Place>,
                        i: SessionId, x: Session)
    requires SessionsOk(sessions, issued, place) && i < |sessions|
    requires x.failure.Some? ==> x.failure == Some(i)
    requires
      || (!Live(sessions[i]) && x.goal.None? && x.completion.None?)
      || (x.goal == sessions[i].goal && x.done == sessions[i].done && x.completion == sessions[i].completion
          && (sessions[i].failure.Some? ==> x.failure.Some?))
    ensures SessionsOk(sessions[i := x], issued, place)
  {
    assert SessionOk(sessions[i], i, issued, place);
    var sessions' := sessions[i := x];
    forall j | 0 <= j < |sessions'| ensures SessionOk(sessions'[j], j, issued, place) {
      assert SessionOk(sessions[j], j, issued, place);
    }
    forall g | g in place && place[g] == InSession && g in issued
      ensures issued[g].session < |sessions| && sessions[i := x][issued[g].session].goal == Some(g)
    {
      assert SessionOk(sessions[issued[g].session], issued[g].session, issued, place);
    }
  }

  lemma PcReplace(s: State, i: SessionId, x: Session)
    requires PcOk(s.pc, s.wp, s.held, s.sessions, s.issued, s.place) && i < |s.sessions|
    requires Starting(s.pc, i) ==> s.sessions[i].failure.Some? ==> x.failure.Some?
    requires x.goal.None? || (x.goal == s.sessions[i].goal && x.done == s.sessions[i].done)
    ensures PcOk(s.pc, s.wp, s.held, s.sessions[i := x], s.issued, s.place)
  {
    hide ChainOk, Unused;
  }

  lemma PcPlace(s: State, g: Goal, p: Place)
    requires PcOk(s.pc, s.wp, s.held, s.sessions, s.issued, s.place)
    requires g in s.place && s.place[g] != InExecutor && p != InExecutor
    ensures PcOk(s.pc, s.wp, s.held, s.sessions, s.issued, s.place[g := p])
  {
    hide Unused;
  }

  lemma IssuedBusy(s: State, g: Goal)
    requires Inv(s) && g in s.issued
    ensures !Starting(s.pc, s.issued[g].session)
  {
    hide IssuesOk, SessionsOk, TasksOk, CountsOk, LogOk, RequestsOk;
    var i := s.issued[g].session;
    assert Starting(s.pc, i) ==> Unused(i, s.issued);
  }

  lemma LogSay(log: seq<Record>, issued: map<Goal, Issue>, r: Record)
    requires LogOk(log, issued) && RecordOk(r, issued)
    ensures LogOk(log + [r], issued)
  {
    hide RecordOk;
  }

  /** Replacing a session whose bindings stay, or that loses nothing live. */
  lemma StoreKeeps(s: State, i: SessionId, x: Session)
    requires Inv(s)
    requires i < |s.sessions| ==>
      && (x.failure.Some? ==> x.failure == Some(i))
      && (|| (!Live(s.sessions[i]) && x.goal.None? && x.completion.None? && !Starting(s.pc, i))
          || (x.goal == s.sessions[i].goal && x.done == s.sessions[i].done && x.completion == s.sessions[i].completion
              && (s.sessions[i].failure.Some? ==> x.failure.Some?)))
    ensures Inv(Put(s, i, x))
  {
    hide IssuesOk, SessionsOk, TasksOk, PcOk, CountsOk, LogOk, RequestsOk, Starting;
    if i < |s.sessions| {
      SessionsReplace(s.sessions, s.issued, s.place, i, x);
      PcReplace(s, i, x);
    }
  }

  /** A live goal is withdrawn with its session. */
  lemma WithdrawKeeps(s: State, i: SessionId)
    requires Inv(s) && Live(At(s, i))
    ensures Inv(Invalidate(s, i))
  {
    hide IssuesOk, SessionsOk, TasksOk, PcOk, CountsOk, LogOk, RequestsOk, Starting;
    var g := s.sessions[i].goal.value;
    var r := Withdrawn(g);
    SessionsDrop(s.sessions, s.issued, s.place, i, Closed);
    IssuedBusy(s, g);
    PcReplace(s, i, Invalidated(s.sessions[i]));
    PcPlace(s.(sessions := s.sessions[i := Invalidated(s.sessions[i])]), g, Closed);
    TasksIgnore(s.tasks, s.issued, s.place, g, Closed);
    CountsClose(s.log, s.place, g, r);
    LogSay(s.log, s.issued, r);
    IssuesPlace(|s.sessions|, s.issued, s.place, g, Closed);
  }

  lemma IssuesPlace(n: nat, issued: map<Goal, Issue>, place: map<Goal, Place>, g: Goal, p: Place)
    requires IssuesOk(n, issued, place) && g in place
    ensures IssuesOk(n, issued, place[g := p])
  {
    assert place[g := p].Keys == place.Keys;
  }

  lemma InvalidateKeeps(s: State, i: SessionId)
    requires Inv(s) && !Starting(s.pc, i)
    ensures Inv(Invalidate(s, i))
  {
    hide Inv, Starting;
    if Live(At(s, i)) {
      WithdrawKeeps(s, i);
    } else {
      StoreKeeps(s, i, Invalidated(At(s, i)));
    }
  }

  /** The parts of the state that invalidating leaves alone. */
  lemma InvalidateFrame(s: State, i: SessionId)
    ensures var s1 := Invalidate(s, i);
      && s1.pc == s.pc && s1.tasks == s.tasks && s1.issued == s.issued && s1.current == s.current && s1.wp == s.wp
      && |s1.sessions| == |s.sessions| && s1.held == s.held && s1.pendingFailure == s.pendingFailure
      && (!Live(At(s, i)) ==> s1.place == s.place && s1.log == s.log)
      && (forall g | g in s.place :: g in s1.place && (s.place[g] != InSession && Inv(s) ==> s1.place[g] == s.place[g]))
  {
    hide IssuesOk, TasksOk, PcOk, CountsOk, LogOk, RequestsOk, SessionOk;
    if Inv(s) && Live(At(s, i)) {
      SessionsDrop(s.sessions, s.issued, s.place, i, Closed);
    }
  }

  // ----- Zenoh callbacks -----

  /** A task changes, without taking or leaving a goal. */
  lemma SetTask(s: State, t: nat, task: Task)
    requires Inv(s) && !task.CallingBack? && TaskOk(task, t, s.issued, s.place)
    requires t in s.tasks ==> !s.tasks[t].CallingBack?
    ensures Inv(s.(tasks := s.tasks[t := task]))
  {
    hide IssuesOk, SessionsOk, PcOk, CountsOk, LogOk, RequestsOk, ChainOk;
  }

  lemma EndKeeps(s: State, t: nat)
    requires Inv(s) && t in s.tasks && !s.tasks[t].CallingBack?
    ensures Inv(End(s, t))
  {
    hide IssuesOk, SessionsOk, PcOk, CountsOk, LogOk, RequestsOk, TaskOk;
  }

  lemma FeedbackKeeps(s: State, t: nat)
    requires Inv(s) && t in s.tasks && !s.tasks[t].Deciding? && !s.tasks[t].CallingBack? && !s.tasks[t].GotStatus?
    ensures Inv(TaskNext(s, t))
  {
    hide Inv, Lock, Alive;
    EndKeeps(s, t);
    match s.tasks[t] {
      case GotFeedback(feedback) =>
        if Lock(s).Some? {
          SetTask(s, t, Checking(Lock(s).value, feedback));
        }
      case Checking(i, feedback) => SetTask(s, t, Copying(i, feedback));
      case Copying(i, feedback) => SetTask(s, t, Matched(i, feedback, At(s, i).estimator));
      case Matched(i, feedback, estimator) =>
        var x := At(s, i).(reason := feedback.reason);
        BindingsKeep(s, i, x);
        EndKeeps(Put(s, i, x), t);
        if estimator.Some? {
          SetTask(Put(s, i, x), t, Entering(i, feedback, estimator.value));
        }
      case Entering(i, feedback, j) => SetTask(s, t, Targeting(i, feedback, j));
      case Targeting(i, feedback, j) =>
        var x := At(s, j).(target := feedback.index);
        BindingsKeep(s, j, x);
        SetTask(Put(s, j, x), t, Buffering(i, feedback, j));
      case Buffering(i, feedback, j) =>
        var x := At(s, j).(pending := Some(feedback));
        BindingsKeep(s, j, x);
        EndKeeps(Put(s, j, x), t);
    }
  }

  lemma BindingsKeep(s: State, i: SessionId, x: Session)
    requires Inv(s)
    requires var y := At(s, i);
      x.goal == y.goal && x.done == y.done && x.completion == y.completion && x.failure == y.failure
    ensures Inv(Put(s, i, x))
  {
    hide IssuesOk, TasksOk, PcOk, CountsOk, LogOk, RequestsOk, Starting;
    assert i < |s.sessions| ==> SessionOk(s.sessions[i], i, s.issued, s.place);
    StoreKeeps(s, i, x);
  }

  /**
   * A status decides a session that is already done: its goal was rejected. The code does
   * not look at done before it decides.
   */
  predicate Redecides(s: State, e: Step) {
    && e.Advance? && e.task in s.tasks && s.tasks[e.task].Deciding?
    && var x := At(s, s.tasks[e.task].session);
    && Verdict(x, s.tasks[e.task].statuses).Some? && x.done
  }

  lemma DecideKeeps(s: State, t: nat)
    requires Inv(s) && t in s.tasks && s.tasks[t].Deciding? && !Redecides(s, Advance(t))
    ensures Inv(TaskNext(s, t))
  {
    hide IssuesOk, SessionsOk, TasksOk, PcOk, CountsOk, LogOk, RequestsOk, FirstAbout, Invalidated, Begin;
    var (i, statuses) := (s.tasks[t].session, s.tasks[t].statuses);
    EndKeeps(s, t);
    if Verdict(At(s, i), statuses).Some? {
      VerdictKeeps(s, t, i, Taken(At(s, i), statuses));
    }
  }

  /** The live goal of a session passes to a task, or ends unheard. */
  lemma VerdictKeeps(s: State, t: nat, i: SessionId, callback: Option<Callback>)
    requires Inv(s) && t in s.tasks && s.tasks[t].Deciding? && Live(At(s, i))
    requires callback == Completion(At(s, i)) || callback == NavigationSession.Failure(At(s, i))
    ensures var s1 := Commit(s, callback, At(s, i).goal.value, InTask(t));
      && s1.place == s.place[At(s, i).goal.value := if callback.Some? then InTask(t) else Closed]
      && s1.log == if callback.Some? then s.log else s.log + [Unheard(At(s, i).goal.value)]
    ensures var x := At(s, i);
      var s1 := Put(Commit(s, callback, x.goal.value, InTask(t)), i, Invalidated(x));
      Inv(if callback.None? then End(s1, t)
          else s1.(tasks := s1.tasks[t := CallingBack(i, Begin(callback.value, x.goal))]))
  {
    hide IssuesOk, SessionsOk, TasksOk, PcOk, CountsOk, LogOk, RequestsOk, Starting;
    var x := s.sessions[i];
    var g := x.goal.value;
    var p := if callback.Some? then InTask(t) else Closed;
    SessionsDrop(s.sessions, s.issued, s.place, i, p);
    IssuedBusy(s, g);
    PcReplace(s, i, Invalidated(x));
    PcPlace(s.(sessions := s.sessions[i := Invalidated(x)]), g, p);
    IssuesPlace(|s.sessions|, s.issued, s.place, g, p);
    if callback.Some? {
      CountsMove(s.log, s.place, g, p);
      TasksTake(s.tasks, s.issued, s.place, t, i, Begin(callback.value, x.goal));
    } else {
      CountsClose(s.log, s.place, g, Unheard(g));
      LogSay(s.log, s.issued, Unheard(g));
      TasksIgnore(s.tasks, s.issued, s.place, g, Closed);
      TasksEnd(s.tasks, s.issued, s.place[g := Closed], t);
    }
  }

  lemma TasksEnd(tasks: map<nat, Task>, issued: map<Goal, Issue>, place: map<Goal, Place>, t: nat)
    requires TasksOk(tasks, issued, place) && (t in tasks ==> !tasks[t].CallingBack?)
    ensures TasksOk(tasks - {t}, issued, place)
  {
    hide TaskOk;
  }

  lemma TasksTake(tasks: map<nat, Task>, issued: map<Goal, Issue>, place: map<Goal, Place>,
                  t: nat, i: SessionId, chain: Chain)
    requires TasksOk(tasks, issued, place) && t in tasks && !tasks[t].CallingBack?
    requires chain.goal.Some? && chain.goal.value in place && place[chain.goal.value] == InSession
    requires chain.goal.value in issued && Answers(chain.callback, issued[chain.goal.value])
    requires chain.callback.Complete? && chain.callback.owner.Errand? ==> chain.stage.Finishing?
    ensures TasksOk(tasks[t := CallingBack(i, chain)], issued, place[chain.goal.value := InTask(t)])
  {
    hide Answers;
    var tasks', place' := tasks[t := CallingBack(i, chain)], place[chain.goal.value := InTask(t)];
    forall u | u in tasks' ensures TaskOk(tasks'[u], u, issued, place') {
      assert u != t ==> TaskOk(tasks[u], u, issued, place);
    }
  }

  /** The callback of a chain under way belongs to a session that is not starting. */
  lemma ChainIsBusy(s: State, chain: Chain, at: Place)
    requires Inv(s) && ChainOk(chain, at, s.issued, s.place) && !chain.stage.Finishing?
    ensures !Starting(s.pc, Own(chain.callback))
  {
    hide SessionsOk, TasksOk, PcOk, CountsOk, LogOk, RequestsOk, Starting;
    var g := chain.goal.value;
    assert IssueOk(s.issued[g], |s.sessions|);
    IssuedBusy(s, g);
  }

  /** The record that the end of a chain leaves. */
  function Outcome(callback: Callback, g: Goal): Record {
    match callback
    case Complete(owner) => Fired(owner, g)
    case Fail(i) => Failed(i, g)
  }

  lemma OutcomeOk(callback: Callback, g: Goal, issued: map<Goal, Issue>)
    requires g in issued && Answers(callback, issued[g])
    ensures RecordOk(Outcome(callback, g), issued) && Closes(Outcome(callback, g)) == Some(g)
  {
  }

  lemma CallbackKeeps(s: State, t: nat)
    requires Inv(s) && t in s.tasks && s.tasks[t].CallingBack?
    ensures Inv(TaskNext(s, t))
  {
    hide SessionsOk, CountsOk, PcOk, LogOk, RequestsOk, IssuesOk, Alive, ChainOk, Invalidate;
    var (i, chain) := (s.tasks[t].session, s.tasks[t].chain);
    assert TaskOk(s.tasks[t], t, s.issued, s.place);
    match chain.stage {
      case Invalidating =>
        ChainIsBusy(s, chain, InTask(t));
        InvalidateKeeps(s, Own(chain.callback));
        InvalidateFrame(s, Own(chain.callback));
        NextStage(s, t);
        NextStage(Invalidate(s, Own(chain.callback)), t);
      case Resetting => NextStage(s.(current := None), t);
      case Finishing => FinishTask(s, t);
    }
  }

  lemma NextStage(s: State, t: nat)
    requires Inv(s) && t in s.tasks && s.tasks[t].CallingBack? && !s.tasks[t].chain.stage.Finishing?
    ensures var chain := s.tasks[t].chain;
      Inv(s.(tasks := s.tasks[t := CallingBack(s.tasks[t].session, chain.(stage := After(chain.stage)))]))
  {
    hide SessionsOk, CountsOk, PcOk, LogOk, RequestsOk, IssuesOk, Answers;
    assert TaskOk(s.tasks[t], t, s.issued, s.place);
  }

  lemma FinishTask(s: State, t: nat)
    requires Inv(s) && t in s.tasks && s.tasks[t].CallingBack? && s.tasks[t].chain.stage.Finishing?
    ensures Inv(TaskNext(s, t))
  {
    hide SessionsOk, CountsOk, PcOk, LogOk, RequestsOk, IssuesOk, Answers, Alive, RecordOk;
    var chain := s.tasks[t].chain;
    assert TaskOk(s.tasks[t], t, s.issued, s.place);
    var g := chain.goal.value;
    var r := Outcome(chain.callback, g);
    OutcomeOk(chain.callback, g, s.issued);
    CountsClose(s.log, s.place, g, r);
    LogSay(s.log, s.issued, r);
    IssuesPlace(|s.sessions|, s.issued, s.place, g, Closed);
    PcPlace(s, g, Closed);
    SessionsPlace(s.sessions, s.issued, s.place, g, Closed);
    TasksFinish(s.tasks, s.issued, s.place, t);
  }

  lemma SessionsPlace(sessions: seq<Session>, issued: map<Goal, Issue>, place: map<Goal, Place>, g: Goal, p: Place)
    requires SessionsOk(sessions, issued, place) && g in place && place[g] != InSession && p != InSession
    ensures SessionsOk(sessions, issued, place[g := p])
  {
    forall i | 0 <= i < |sessions| ensures SessionOk(sessions[i], i, issued, place[g := p]) {
      assert SessionOk(sessions[i], i, issued, place);
    }
  }

  lemma TasksFinish(tasks: map<nat, Task>, issued: map<Goal, Issue>, place: map<Goal, Place>, t: nat)
    requires TasksOk(tasks, issued, place) && t in tasks && tasks[t].CallingBack?
    ensures tasks[t].chain.goal.Some?
    ensures TasksOk(tasks - {t}, issued, place[tasks[t].chain.goal.value := Closed])
  {
    hide Answers;
    assert TaskOk(tasks[t], t, issued, place);
    var g := tasks[t].chain.goal.value;
    forall u | u in tasks - {t} ensures TaskOk(tasks[u], u, issued, place[g := Closed]) {
      assert TaskOk(tasks[u], u, issued, place);
    }
  }

  lemma TaskKeeps(s: State, t: nat)
    requires Inv(s) && t in s.tasks && !Redecides(s, Advance(t))
    ensures Inv(TaskNext(s, t))
  {
    match s.tasks[t] {
      case GotStatus(statuses) => LockStatus(s, t);
      case Deciding(_, _) => DecideKeeps(s, t);
      case CallingBack(_, _) => CallbackKeeps(s, t);
      case _ => FeedbackKeeps(s, t);
    }
  }

  lemma LockStatus(s: State, t: nat)
    requires Inv(s) && t in s.tasks && s.tasks[t].GotStatus?
    ensures Inv(TaskNext(s, t))
  {
    hide SessionsOk, CountsOk, PcOk, LogOk, RequestsOk, IssuesOk, Alive, Lock;
    EndKeeps(s, t);
    if Lock(s).Some? {
      SetTask(s, t, Deciding(Lock(s).value, s.tasks[t].statuses));
    }
  }

  // ----- the RMF executor -----

  /** Moving the executor between points that say nothing about goals. */
  lemma Move(s: State, pc: Pc, held: set<SessionId>)
    requires Inv(s)
    requires forall r: SessionId | r < |s.sessions| && Starting(s.pc, r) :: Starting(pc, r)
    requires PcOk(pc, s.wp, held, s.sessions, s.issued, s.place)
    ensures Inv(s.(pc := pc, held := held))
  {
    hide SessionsOk, CountsOk, PcOk, LogOk, IssuesOk, TasksOk, Starting, HasGoal;
  }

  predicate Resting(pc: Pc) {
    || pc.Idle? || pc.StopCancelling? || pc.StopReading? || pc.StopInvalidating? || pc.StopResetting?
    || pc.StopClearing? || pc.Cancelling? || pc.Draining? || pc.Snapshotting? || pc.Estimating?
  }

  lemma Rest(s: State, pc: Pc, held: set<SessionId>)
    requires Inv(s) && Resting(pc) && (Resting(s.pc) || s.pc.Sending?)
    ensures Inv(s.(pc := pc, held := held))
  {
    hide SessionsOk, CountsOk, LogOk, IssuesOk, TasksOk, RequestsOk, ChainOk;
    assert RequestsOk(|s.sessions|, pc, s.issued) by {
      RequestsRest(s, pc);
    }
  }

  lemma RequestsRest(s: State, pc: Pc)
    requires RequestsOk(|s.sessions|, s.pc, s.issued) && (Resting(s.pc) || s.pc.Sending? || s.pc.Firing?)
    ensures RequestsOk(|s.sessions|, pc, s.issued)
  {
    hide HasGoal;
  }

  lemma RestingKeeps(s: State)
    requires Inv(s) && Resting(s.pc)
    ensures Inv(ExecutorNext(s))
  {
    hide Inv, Invalidate, CancelSession, Live, Alive;
    Rest(s, Idle, {});
    match s.pc {
      case Idle =>
      case StopCancelling(i) =>
        CancelInvalidates(s, i);
        InvalidateKeeps(s, i);
        InvalidateFrame(s, i);
        Rest(if At(s, i).goal.Some? then Invalidate(s, i) else s, StopReading, {});
      case StopReading =>
        if s.current.Some? {
          Rest(s, StopInvalidating(s.current.value), {s.current.value});
        } else {
          Rest(s, StopResetting, s.held);
        }
      case StopInvalidating(i) =>
        InvalidateKeeps(s, i);
        InvalidateFrame(s, i);
        Rest(Invalidate(s, i), StopResetting, s.held);
      case StopResetting =>
        Flags(s, None, s.pendingFailure);
        Rest(s.(current := None), StopClearing, s.held);
      case StopClearing =>
        Flags(s, s.current, false);
        Rest(s.(pendingFailure := false), Idle, {});
      case Cancelling(i) =>
        CancelInvalidates(s, i);
        InvalidateKeeps(s, i);
        InvalidateFrame(s, i);
        Rest(if At(s, i).goal.Some? then Invalidate(s, i) else s, Idle, {});
      case Draining(i) => Rest(s, Snapshotting(i), s.held);
      case Snapshotting(i) =>
        var taken := Drained(At(s, i));
        if taken.Some? {
          var x := At(s, i).(pending := None);
          BindingsKeep(s, i, x);
          Rest(Put(s, i, x), Estimating(taken.value.0, taken.value.1), s.held);
        }
      case Estimating(request, feedback) =>
        Say(s, Estimated(request, feedback));
        Rest(s.(log := s.log + [Estimated(request, feedback)]), Idle, {});
    }
  }

  lemma Flags(s: State, current: Option<SessionId>, pendingFailure: bool)
    requires Inv(s) && (current.None? || current == s.current)
    ensures Inv(s.(current := current, pendingFailure := pendingFailure))
  {
    hide SessionsOk, CountsOk, LogOk, IssuesOk, TasksOk, RequestsOk, PcOk;
  }

  lemma Say(s: State, r: Record)
    requires Inv(s) && Closes(r).None? && (r.Bypassed? ==> r.owner.Errand?)
    ensures Inv(s.(log := s.log + [r]))
  {
    hide SessionsOk, CountsOk, LogOk, IssuesOk, TasksOk, RequestsOk, PcOk;
    CountsSay(s.log, s.place, r);
    LogSay(s.log, s.issued, r);
  }

  lemma FiringKeeps(s: State)
    requires Inv(s) && s.pc.Firing?
    ensures Inv(ExecutorNext(s))
  {
    hide SessionsOk, CountsOk, TasksOk, LogOk, RequestsOk, IssuesOk, Alive, ChainOk, Invalidate;
    var chain := s.pc.chain;
    match chain.stage {
      case Invalidating =>
        ChainIsBusy(s, chain, InExecutor);
        InvalidateKeeps(s, Own(chain.callback));
        InvalidateFrame(s, Own(chain.callback));
        NextFiring(s);
        NextFiring(Invalidate(s, Own(chain.callback)));
      case Resetting => NextFiring(s.(current := None));
      case Finishing =>
        if chain.goal.Some? {
          FinishFiring(s);
        } else {
          var r := Bypassed(chain.callback.owner);
          Say(s, r);
          Unfire(s.(log := s.log + [r]));
        }
    }
  }

  lemma NextFiring(s: State)
    requires Inv(s) && s.pc.Firing? && !s.pc.chain.stage.Finishing?
    ensures var chain := s.pc.chain; Inv(s.(pc := Firing(chain.(stage := After(chain.stage)))))
  {
    hide SessionsOk, CountsOk, TasksOk, LogOk, IssuesOk, Answers, HasGoal;
  }

  /** A completion that answers no goal is done. */
  lemma Unfire(s: State)
    requires Inv(s) && s.pc.Firing? && s.pc.chain.goal.None?
    ensures Inv(Return(s))
  {
    hide SessionsOk, CountsOk, TasksOk, LogOk, IssuesOk, HasGoal;
  }

  lemma FinishFiring(s: State)
    requires Inv(s) && s.pc.Firing? && s.pc.chain.stage.Finishing? && s.pc.chain.goal.Some?
    ensures Inv(ExecutorNext(s))
  {
    hide SessionsOk, CountsOk, TasksOk, LogOk, RequestsOk, IssuesOk, Answers, Alive, RecordOk;
    var chain := s.pc.chain;
    var g := chain.goal.value;
    var r := Outcome(chain.callback, g);
    OutcomeOk(chain.callback, g, s.issued);
    CountsClose(s.log, s.place, g, r);
    LogSay(s.log, s.issued, r);
    IssuesPlace(|s.sessions|, s.issued, s.place, g, Closed);
    SessionsPlace(s.sessions, s.issued, s.place, g, Closed);
    TasksIgnore(s.tasks, s.issued, s.place, g, Closed);
    RequestsRest(s, Idle);
  }

  lemma FollowKeeps(s: State)
    requires Inv(s) && (s.pc.Swapped? || s.pc.Superseded? || s.pc.Cleared?)
    ensures Inv(ExecutorNext(s))
  {
    hide SessionsOk, CountsOk, TasksOk, LogOk, RequestsOk, IssuesOk, Unused, Live, Invalidate, PcOk;
    match s.pc {
      case Swapped(n, wants, previous) =>
        if previous.Some? {
          NotStarting(s);
          InvalidateKeeps(s, previous.value);
          InvalidateFrame(s, previous.value);
          NextStart(Invalidate(s, previous.value), n, Superseded(n, wants), {n});
        } else {
          NextStart(s, n, Superseded(n, wants), {n});
        }
      case Superseded(n, wants) =>
        Flags(s, s.current, false);
        StartHeld(s, n);
        NextStart(s.(pendingFailure := false), n, Cleared(n, wants), s.held);
      case Cleared(n, wants) =>
        var estimator := if wants then Some(n) else None;
        var x := At(s, n).(rmfEstimator := estimator, failure := Some(n));
        StoreKeeps(s, n, x);
        Announce(Put(s, n, x), n, Call(Some(PathRequest(n)), estimator));
    }
  }

  lemma NotStarting(s: State)
    requires Inv(s) && s.pc.Swapped?
    ensures s.pc.previous.Some? ==> !Starting(s.pc, s.pc.previous.value)
  {
    hide SessionsOk, CountsOk, TasksOk, LogOk, RequestsOk, IssuesOk, Unused;
  }

  lemma StartHeld(s: State, n: SessionId)
    requires Inv(s) && Starting(s.pc, n)
    ensures n in s.held
  {
    hide SessionsOk, CountsOk, TasksOk, LogOk, RequestsOk, IssuesOk, Unused;
  }

  /** From one point of starting a path to another. */
  lemma NextStart(s: State, n: SessionId, pc: Pc, held: set<SessionId>)
    requires Inv(s) && Starting(s.pc, n) && (s.pc.Swapped? || s.pc.Superseded?)
    requires (pc.Superseded? || pc.Cleared?) && pc.request == n && n in held
    ensures Inv(s.(pc := pc, held := held))
  {
    hide SessionsOk, CountsOk, TasksOk, LogOk, IssuesOk, Unused, HasGoal;
  }

  lemma Announce(s: State, n: SessionId, call: Call)
    requires Inv(s) && s.pc.Cleared? && s.pc.request == n && call.owner == Some(PathRequest(n))
    requires n < |s.sessions| ==> s.sessions[n].failure.Some?
    ensures Inv(s.(wp := Some(n), pc := Calling(call)))
  {
    hide SessionsOk, CountsOk, TasksOk, LogOk, IssuesOk, Unused, HasGoal;
    assert Starting(s.pc, n);
  }

  /** A path finds its own session; only a dock or an action can find none. */
  lemma LockKeeps(s: State, call: Call)
    requires Inv(s)
    requires (s.pc.Calling? && s.pc.call == call)
          || (s.pc.Idle? && (call.owner.Some? ==> call.owner.value.Errand?))
    ensures Inv(LockSession(s, call))
  {
    hide SessionsOk, CountsOk, TasksOk, LogOk, RequestsOk, IssuesOk, Unused;
    assert s.pc.Calling? ==> Starting(s.pc, call.owner.value.session);
    var session := Lock(s);
    if session.Some? {
      Move(s, Arming(call, session.value), s.held + {session.value});
    } else if call.owner.Some? {
      Move(s, Firing(Begin(Complete(call.owner.value), None)), s.held);
    } else {
      Move(s, Idle, {});
    }
  }

  lemma ArmKeeps(s: State, goal: Goal, accepted: bool)
    requires Inv(s) && s.pc.Arming? && goal !in s.issued
    ensures Inv(Arm(s, goal, accepted))
    ensures var (s', x) := (Arm(s, goal, accepted), At(s, s.pc.session));
      if Live(x) then
        s'.log == s.log + [Withdrawn(x.goal.value)] && s'.place == s.place[x.goal.value := Closed][goal := InSession]
      else s'.log == s.log && s'.place == s.place[goal := InSession]
  {
    hide SessionsOk, CountsOk, TasksOk, LogOk, RequestsOk, IssuesOk, PcOk, RecordOk, Starting;
    var (call, i) := (s.pc.call, s.pc.session);
    var issue := Issue(i, call.owner, accepted);
    var issued := s.issued[goal := issue];
    var x := At(s, i);
    var s0 := Release(s, i);
    Released(s, i);
    ArmIssues(s, goal, issue);
    assert s.issued.Keys == s.place.Keys && s0.place.Keys == s.place.Keys by { KeysOk(s); }
    ArmTasks(s.tasks, s.issued, s0.place, goal, issue);
    ArmLog(s0.log, s.issued, goal, issue);
    CountsMove(s0.log, s0.place, goal, InSession);
    ArmSessions(s, goal, issue);
    ArmPc(s, goal, issue);
    ArmRequests(s, goal, issue);
  }

  lemma KeysOk(s: State)
    requires IssuesOk(|s.sessions|, s.issued, s.place)
    ensures s.issued.Keys == s.place.Keys
  {
  }

  /** What is left when the live goal of a session, if any, has been withdrawn. */
  lemma Released(s: State, i: SessionId)
    requires Inv(s)
    ensures var s0 := Release(s, i);
      && CountsOk(s0.log, s0.place) && LogOk(s0.log, s.issued) && TasksOk(s.tasks, s.issued, s0.place)
      && s0.place.Keys == s.place.Keys
  {
    hide IssuesOk, SessionsOk, TasksOk, PcOk, CountsOk, LogOk, RequestsOk;
    if Live(At(s, i)) {
      var g := s.sessions[i].goal.value;
      SessionsDrop(s.sessions, s.issued, s.place, i, Closed);
      TasksIgnore(s.tasks, s.issued, s.place, g, Closed);
      CountsClose(s.log, s.place, g, Withdrawn(g));
      LogSay(s.log, s.issued, Withdrawn(g));
      assert Release(s, i).place.Keys == s.place.Keys;
    }
  }

  lemma ArmIssues(s: State, goal: Goal, issue: Issue)
    requires Inv(s) && s.pc.Arming? && goal !in s.issued
    requires issue.session == s.pc.session && issue.owner == s.pc.call.owner
    ensures IssuesOk(|s.sessions|, s.issued[goal := issue], Release(s, issue.session).place[goal := InSession])
  {
    hide SessionsOk, TasksOk, CountsOk, LogOk, RequestsOk, ChainOk;
    var place := Release(s, issue.session).place;
    assert place.Keys == s.place.Keys by { Released(s, issue.session); }
    assert s.issued[goal := issue].Keys == place[goal := InSession].Keys;
    assert OfPath(issue) ==> Starting(s.pc, issue.session);
  }

  lemma ArmTasks(tasks: map<nat, Task>, issued: map<Goal, Issue>, place: map<Goal, Place>, goal: Goal, issue: Issue)
    requires TasksOk(tasks, issued, place) && goal !in issued && goal !in place
    ensures TasksOk(tasks, issued[goal := issue], place[goal := InSession])
  {
    hide Answers;
    forall t | t in tasks ensures TaskOk(tasks[t], t, issued[goal := issue], place[goal := InSession]) {
      assert TaskOk(tasks[t], t, issued, place);
    }
  }

  lemma ArmLog(log: seq<Record>, issued: map<Goal, Issue>, goal: Goal, issue: Issue)
    requires LogOk(log, issued) && goal !in issued
    ensures LogOk(log, issued[goal := issue])
  {
    forall k | 0 <= k < |log| ensures RecordOk(log[k], issued[goal := issue]) {
      assert RecordOk(log[k], issued);
    }
  }

  lemma ArmSessions(s: State, goal: Goal, issue: Issue)
    requires Inv(s) && s.pc.Arming? && goal !in s.issued && goal !in s.place
    requires issue.session == s.pc.session && issue.owner == s.pc.call.owner
    ensures var i := issue.session;
      i < |s.sessions| &&
      SessionsOk(s.sessions[i := Armed(s.sessions[i], goal, issue.owner, s.pc.call.estimator)],
                 s.issued[goal := issue], Release(s, i).place[goal := InSession])
  {
    hide IssuesOk, TasksOk, CountsOk, LogOk, RequestsOk, ChainOk, Unused;
    var i := issue.session;
    var x := s.sessions[i];
    var place0 := Release(s, i).place;
    var sessions' := s.sessions[i := Armed(x, goal, issue.owner, s.pc.call.estimator)];
    var issued', place' := s.issued[goal := issue], place0[goal := InSession];
    assert SessionOk(x, i, s.issued, s.place);
    forall j | 0 <= j < |sessions'| ensures SessionOk(sessions'[j], j, issued', place') {
      assert SessionOk(s.sessions[j], j, s.issued, s.place);
    }
  }

  lemma ArmPc(s: State, goal: Goal, issue: Issue)
    requires Inv(s) && s.pc.Arming? && goal !in s.issued && goal !in s.place
    requires issue.session == s.pc.session && issue.owner == s.pc.call.owner
    ensures var i := issue.session;
      i < |s.sessions| &&
      PcOk(Sending(i, goal), s.wp, s.held,
           s.sessions[i := Armed(s.sessions[i], goal, issue.owner, s.pc.call.estimator)],
           s.issued[goal := issue], Release(s, i).place[goal := InSession])
  {
    hide IssuesOk, TasksOk, CountsOk, LogOk, RequestsOk, ChainOk, Unused, SessionsOk;
    if Live(s.sessions[issue.session]) {
      SessionsDrop(s.sessions, s.issued, s.place, issue.session, Closed);
    }
  }

  lemma ArmRequests(s: State, goal: Goal, issue: Issue)
    requires RequestsOk(|s.sessions|, s.pc, s.issued) && s.pc.Arming? && goal !in s.issued
    requires issue.session == s.pc.session && issue.owner == s.pc.call.owner
    ensures RequestsOk(|s.sessions|, Sending(issue.session, goal), s.issued[goal := issue])
  {
    var issued' := s.issued[goal := issue];
    forall r: SessionId | r < |s.sessions| ensures HasGoal(issued', r) {
      if HasGoal(s.issued, r) {
        var g :| g in s.issued && s.issued[g].owner == Some(PathRequest(r));
        assert g in issued' && issued'[g].owner == Some(PathRequest(r));
      } else {
        assert Starting(s.pc, r);
        assert goal in issued' && issued'[goal].owner == Some(PathRequest(r));
      }
    }
  }

  /** A rejected goal leaves its session to the executor, and stays in it as done. */
  lemma AnswerKeeps(s: State)
    requires Inv(s) && s.pc.Sending?
    ensures Inv(NavigationProtocol.Answer(s))
  {
    hide TasksOk, CountsOk, LogOk, RequestsOk, IssuesOk, Begin;
    var (i, goal) := (s.pc.session, s.pc.goal);
    var x := At(s, i);
    Rest(s, Idle, {});
    assert SessionOk(x, i, s.issued, s.place);
    if !s.issued[goal].accepted {
      if Live(x) {
        RejectKeeps(s);
      } else {
        StoreKeeps(s, i, x.(done := true));
        Rest(Put(s, i, x.(done := true)), Idle, {});
      }
    }
  }

  lemma RejectKeeps(s: State)
    requires Inv(s) && s.pc.Sending? && Live(At(s, s.pc.session)) && !s.issued[s.pc.goal].accepted
    ensures Inv(NavigationProtocol.Answer(s))
    ensures var (s', g) := (NavigationProtocol.Answer(s), s.pc.goal);
      if s.issued[g].owner.Some? then
        s'.log == s.log && s'.place == s.place[g := InExecutor]
        && s'.pc == Firing(Begin(Complete(s.issued[g].owner.value), Some(g)))
      else s'.log == s.log + [Unheard(g)] && s'.place == s.place[g := Closed]
  {
    hide SessionsOk, TasksOk, CountsOk, LogOk, RequestsOk, IssuesOk, RecordOk, Unused;
    var (i, g) := (s.pc.session, s.pc.goal);
    var x := s.sessions[i];
    var p := if x.completion.Some? then InExecutor else Closed;
    RejectSessions(s.sessions, s.issued, s.place, i, p);
    IssuesPlace(|s.sessions|, s.issued, s.place, g, p);
    TasksIgnore(s.tasks, s.issued, s.place, g, p);
    RequestsRest(s, Idle);
    if x.completion.Some? {
      CountsMove(s.log, s.place, g, p);
      RequestsRest(s, Firing(Begin(Complete(x.completion.value), x.goal)));
    } else {
      CountsClose(s.log, s.place, g, Unheard(g));
      RecordUnheard(g, s.issued);
      LogSay(s.log, s.issued, Unheard(g));
    }
  }

  lemma RecordUnheard(g: Goal, issued: map<Goal, Issue>)
    requires g in issued && issued[g].owner.None?
    ensures RecordOk(Unheard(g), issued)
  {
  }

  lemma RejectSessions(sessions: seq<Session>, issued: map<Goal, Issue>, place: map<Goal, Place>,
                       i: SessionId, p: Place)
    requires SessionsOk(sessions, issued, place) && i < |sessions| && Live(sessions[i]) && p != InSession
    requires sessions[i].goal.value in issued && !issued[sessions[i].goal.value].accepted
    ensures SessionsOk(sessions[i := sessions[i].(done := true)], issued, place[sessions[i].goal.value := p])
    ensures sessions[i].goal.value in place && place[sessions[i].goal.value] == InSession
    ensures sessions[i].completion == issued[sessions[i].goal.value].owner
  {
    assert SessionOk(sessions[i], i, issued, place);
    var g := sessions[i].goal.value;
    var sessions', place' := sessions[i := sessions[i].(done := true)], place[g := p];
    forall j | 0 <= j < |sessions'| ensures SessionOk(sessions'[j], j, issued, place') {
      assert SessionOk(sessions[j], j, issued, place);
    }
  }

  lemma ExecutorKeeps(s: State)
    requires Inv(s)
    ensures Inv(ExecutorNext(s))
  {
    hide SessionsOk, CountsOk, TasksOk, LogOk, IssuesOk, RequestsOk, Unused, Alive, Lock;
    match s.pc {
      case Swapped(_, _, _) => FollowKeeps(s);
      case Superseded(_, _) => FollowKeeps(s);
      case Cleared(_, _) => FollowKeeps(s);
      case Calling(call) => LockKeeps(s, call);
      case Arming(_, _) =>
      case Sending(_, _) => AnswerKeeps(s);
      case Firing(_) => FiringKeeps(s);
      case _ => RestingKeeps(s);
    }
  }

  lemma FollowBegins(s: State, wants: bool)
    requires Inv(s) && s.pc.Idle?
    ensures Inv(Next(s, FollowNewPath(wants)))
  {
    hide CountsOk, TasksOk, LogOk, HasGoal;
    var n := |s.sessions|;
    CountsSay(s.log, s.place, Followed(n));
    LogSay(s.log, s.issued, Followed(n));
    SessionsGrow(s.sessions, s.issued, s.place);
  }

  lemma SessionsGrow(sessions: seq<Session>, issued: map<Goal, Issue>, place: map<Goal, Place>)
    requires SessionsOk(sessions, issued, place)
    ensures SessionsOk(sessions + [FRESH], issued, place)
  {
    var sessions' := sessions + [FRESH];
    forall j | 0 <= j < |sessions'| ensures SessionOk(sessions'[j], j, issued, place) {
      assert j < |sessions| ==> SessionOk(sessions[j], j, issued, place);
    }
  }

  lemma BeginKeeps(s: State, e: Step)
    requires Inv(s) && Enabled(s, e) && s.pc.Idle?
    requires e.FollowNewPath? || e.Stop? || e.Cancel? || e.Drain? || e.Execute? || e.TakeFailure?
    ensures Inv(Next(s, e))
  {
    hide Inv, Alive, Lock;
    match e {
      case FollowNewPath(wants) => FollowBegins(s, wants);
      case Execute(owner) => LockKeeps(s, Call(owner, None));
      case Stop =>
        Say(s, Stopped);
        var s1 := s.(log := s.log + [Stopped]);
        Rest(s1, StopReading, s.held);
        if Lock(s).Some? {
          Rest(s1, StopCancelling(Lock(s).value), {Lock(s).value});
        }
      case Cancel =>
        if Lock(s).Some? {
          Rest(s, Cancelling(Lock(s).value), {Lock(s).value});
        }
      case Drain =>
        if s.current.Some? {
          Rest(s, Draining(s.current.value), {s.current.value});
        }
      case TakeFailure =>
        Flags(s, s.current, false);
        Say(s.(pendingFailure := false), Replanned);
    }
  }

  lemma NextKeeps(s: State, e: Step)
    requires Inv(s) && Enabled(s, e) && !Redecides(s, e)
    ensures Inv(Next(s, e))
  {
    hide Inv, ExecutorNext, TaskNext, Alive, Lock, Redecides;
    match e {
      case ArmGoal(goal, accepted) => ArmKeeps(s, goal, accepted);
      case Continue => ExecutorKeeps(s);
      case Advance(t) => TaskKeeps(s, t);
      case FeedbackArrives(t, feedback) =>
        Say(s, Heard(feedback));
        SetTask(s.(log := s.log + [Heard(feedback)]), t, GotFeedback(feedback));
      case StatusArrives(t, statuses) => SetTask(s, t, GotStatus(statuses));
      case _ => BeginKeeps(s, e);
    }
  }

  lemma InvStarts()
    ensures Inv(INITIAL)
  {
  }

  // ----- an honest robot -----

  /** No status message under way decides a rejected goal. */
  ghost predicate StatusesOk(s: State) {
    forall t | t in s.tasks :: AboutAccepted(s.issued, StatusesOf(s.tasks[t]))
  }

  lemma StatusesKeep(s: State, e: Step)
    requires StatusesOk(s) && Enabled(s, e) && HonestRobot(s, e)
    ensures StatusesOk(Next(s, e))
  {
    hide AboutAccepted, Unannounced;
    var s' := Next(s, e);
    StatusesCarryOver(s, e);
    forall t | t in s'.tasks ensures AboutAccepted(s'.issued, StatusesOf(s'.tasks[t])) {
      if e.ArmGoal? {
        ArmStatuses(s, e, t);
      } else {
        NothingIsAccepted(s'.issued);
      }
    }
  }

  lemma NothingIsAccepted(issued: map<Goal, Issue>)
    ensures AboutAccepted(issued, [])
  {
  }

  /** A step changes the issued goals, or the messages under way, or neither. */
  lemma StatusesCarryOver(s: State, e: Step)
    requires Enabled(s, e)
    ensures var s' := Next(s, e);
      && (e.ArmGoal? ==> s'.tasks == s.tasks)
      && (!e.ArmGoal? ==> s'.issued == s.issued)
      && (forall t | t in s'.tasks && !(e.StatusArrives? && e.task == t) ::
            StatusesOf(s'.tasks[t]) == [] || (t in s.tasks && StatusesOf(s'.tasks[t]) == StatusesOf(s.tasks[t])))
  {
    hide Lock, Live, ExecutorNext, TaskNext, LockSession;
    match e {
      case Advance(t) => F.TaskFrame(s, t);
      case Continue => F.ExecutorFrame(s);
      case Execute(owner) => LockStatuses(s, Call(owner, None));
      case _ =>
    }
  }

  lemma LockStatuses(s: State, call: Call)
    ensures LockSession(s, call).tasks == s.tasks && LockSession(s, call).issued == s.issued
    ensures LockSession(s, call).log == s.log
  {
    hide Lock;
  }

  lemma ArmStatuses(s: State, e: Step, t: nat)
    requires StatusesOk(s) && Enabled(s, e) && HonestRobot(s, e) && e.ArmGoal? && t in s.tasks
    ensures AboutAccepted(Next(s, e).issued, StatusesOf(s.tasks[t]))
  {
    assert AboutAccepted(s.issued, StatusesOf(s.tasks[t]));
  }

  /** A status message that decides no rejected goal decides no session that is done. */
  lemma HonestIsSafe(s: State, e: Step)
    requires Inv(s) && StatusesOk(s)
    ensures !Redecides(s, e)
  {
    hide IssuesOk, TasksOk, PcOk, CountsOk, LogOk, RequestsOk;
    if e.Advance? && e.task in s.tasks && s.tasks[e.task].Deciding? {
      var (i, statuses) := (s.tasks[e.task].session, s.tasks[e.task].statuses);
      assert AboutAccepted(s.issued, StatusesOf(s.tasks[e.task]));
      assert SessionOk(At(s, i), i, s.issued, s.place);
    }
  }

  lemma HonestKeeps(s: State, e: Step)
    requires Inv(s) && StatusesOk(s) && Enabled(s, e) && HonestRobot(s, e)
    ensures Inv(Next(s, e)) && StatusesOk(Next(s, e))
  {
    hide Inv, StatusesOk, Next, Redecides;
    HonestIsSafe(s, e);
    NextKeeps(s, e);
    StatusesKeep(s, e);
  }

  // ----- runs -----

  lemma KeysHold(s: State)
    requires Inv(s)
    ensures s.issued.Keys == s.place.Keys
  {
    hide SessionsOk, TasksOk, PcOk, CountsOk, LogOk, RequestsOk;
  }

  lemma {:induction false} SafeRuns(assumed: Assumptions, s: State, run: seq<Step>)
    requires Inv(s) && IsRun(assumed, s, run) && !Sometime(assumed, Redecides, s, run)
    ensures Inv(Final(assumed, s, run))
    decreases |run|
  {
    hide Inv, Next, HonestRobot, Redecides;
    if run != [] {
      NextKeeps(s, run[0]);
      SafeRuns(assumed, Next(s, run[0]), run[1..]);
    }
  }

  lemma {:induction false} HonestRuns(assumed: Assumptions, s: State, run: seq<Step>)
    requires assumed.acceptedOnly && Inv(s) && StatusesOk(s) && IsRun(assumed, s, run)
    ensures !Sometime(assumed, Redecides, s, run)
    ensures Inv(Final(assumed, s, run)) && StatusesOk(Final(assumed, s, run))
    decreases |run|
  {
    hide Inv, StatusesOk, Next, HonestRobot, Redecides, InOneStep;
    if run != [] {
      HonestIsSafe(s, run[0]);
      HonestKeeps(s, run[0]);
      HonestRuns(assumed, Next(s, run[0]), run[1..]);
    }
  }

  lemma InvHolds(assumed: Assumptions, run: seq<Step>)
    requires assumed.acceptedOnly && IsRun(assumed, INITIAL, run)
    ensures !Sometime(assumed, Redecides, INITIAL, run) && Inv(Final(assumed, INITIAL, run))
  {
    hide Inv, Redecides;
    InvStarts();
    HonestRuns(assumed, INITIAL, run);
  }
}
