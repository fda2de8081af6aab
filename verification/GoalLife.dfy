/**
 * The life of one goal, step by step, and how it ends: which callback is called for it, if
 * any, follows from how it was decided. This covers docks and actions as well as paths.
 */
module GoalLife {
  import opened Common
  import opened NavigationSession
  import opened NavigationProtocol
  import F = ProtocolFrame
  import G = GoalAccounting
  import R = ResolveOnce

  // ----- what decides a goal -----

  /** A status message decides the goal. */
  predicate DecidesGoal(s: State, e: Step, g: Goal) {
    && e.Advance? && e.task in s.tasks && s.tasks[e.task].Deciding?
    && At(s, s.tasks[e.task].session).goal == Some(g)
    && Verdict(At(s, s.tasks[e.task].session), s.tasks[e.task].statuses).Some?
  }

  /** The send of the goal is answered with a rejection while the goal is live. */
  predicate RefusesGoal(s: State, e: Step, g: Goal) {
    && e.Continue? && s.pc.Sending? && !(s.pc.goal in s.issued && s.issued[s.pc.goal].accepted)
    && At(s, s.pc.session).goal == Some(g) && Live(At(s, s.pc.session))
  }

  // ----- one step -----

  ghost predicate Stays(s: State, s': State, g: Goal)
    requires g in s.place
  {
    g in s'.place && s'.place[g] == s.place[g]
  }

  ghost predicate Ends(s: State, s': State, g: Goal, r: Record) {
    g in s'.place && s'.place[g] == Closed && s'.log == s.log + [r]
  }

  /** The goal stays where it is, or leaves its session withdrawn. */
  ghost predicate StaysOrWithdrawn(s: State, s': State, g: Goal)
    requires g in s.place
  {
    Stays(s, s', g) || (s.place[g] == InSession && Ends(s, s', g, Withdrawn(g)))
  }

  /** The callback under way for a goal in this place. */
  ghost predicate Carries(s: State, p: Place, callback: Callback) {
    match p
    case InTask(t) => t in s.tasks && s.tasks[t].CallingBack? && s.tasks[t].chain.callback == callback
    case InExecutor => s.pc.Firing? && s.pc.chain.callback == callback
    case _ => false
  }

  /** A goal passes from its session to a callback, or ends unheard where the callback is null. */
  ghost predicate Passes(s: State, s': State, g: Goal, callback: Option<Callback>, p: Place) {
    if callback.Some? then g in s'.place && s'.place[g] == p && Carries(s', p, callback.value)
    else Ends(s, s', g, Unheard(g))
  }

  /** Where a goal can be after a step, given where it was. */
  ghost predicate Moves(s: State, e: Step, s': State, g: Goal)
    requires g in s.place
  {
    match s.place[g]
    case Closed => Stays(s, s', g)
    case InSession =>
      if DecidesGoal(s, e, g) then
        Passes(s, s', g, Taken(At(s, s.tasks[e.task].session), s.tasks[e.task].statuses), InTask(e.task))
      else if RefusesGoal(s, e, g) then Passes(s, s', g, Completion(At(s, s.pc.session)), InExecutor)
      else StaysOrWithdrawn(s, s', g)
    case _ =>
      exists callback :: Carries(s, s.place[g], callback) &&
        ((Stays(s, s', g) && Carries(s', s.place[g], callback)) || Ends(s, s', g, G.Outcome(callback, g)))
  }

  lemma LiveIsInSession(s: State, i: SessionId)
    requires G.Inv(s) && Live(At(s, i))
    ensures At(s, i).goal.value in s.place && s.place[At(s, i).goal.value] == InSession
    ensures At(s, i).goal.value in s.issued && s.issued[At(s, i).goal.value].session == i
  {
    hide G.IssuesOk, G.TasksOk, G.PcOk, G.CountsOk, G.LogOk, G.RequestsOk;
    assert G.SessionOk(s.sessions[i], i, s.issued, s.place);
  }

  lemma ReleaseMoves(s: State, i: SessionId, g: Goal)
    requires G.Inv(s) && g in s.place
    ensures StaysOrWithdrawn(s, Release(s, i), g)
  {
    hide G.Inv;
    if Live(At(s, i)) {
      LiveIsInSession(s, i);
    }
  }

  lemma InvalidateMoves(s: State, i: SessionId, g: Goal)
    requires G.Inv(s) && g in s.place
    ensures StaysOrWithdrawn(s, Invalidate(s, i), g)
  {
    hide G.Inv, Release;
    ReleaseMoves(s, i, g);
    F.PutFrame(Release(s, i), i, Invalidated(At(s, i)));
  }

  lemma CancelMoves(s: State, i: SessionId, g: Goal)
    requires G.Inv(s) && g in s.place
    ensures StaysOrWithdrawn(s, CancelSession(s, i), g)
  {
    hide G.Inv, Release;
    ReleaseMoves(s, i, g);
    F.PutFrame(Release(s, i), i, Cancelled(At(s, i)));
  }

  /** A stage of a callback closes its own goal at the end, and withdraws at most another before. */
  lemma ChainMoves(s: State, chain: Chain, g: Goal)
    requires G.Inv(s) && g in s.place
    ensures var s' := ChainNext(s, chain);
      if chain.stage.Finishing? && chain.goal == Some(g) then Ends(s, s', g, G.Outcome(chain.callback, g))
      else StaysOrWithdrawn(s, s', g)
  {
    hide G.Inv, Invalidate, Alive, Own;
    if chain.stage.Invalidating? {
      InvalidateMoves(s, Own(chain.callback), g);
    }
  }

  /** The executor, except where it answers a send or runs a callback. */
  lemma PlainMoves(s: State, g: Goal)
    requires G.Inv(s) && g in s.place && !s.pc.Sending? && !s.pc.Firing?
    ensures StaysOrWithdrawn(s, ExecutorNext(s), g)
  {
    hide G.Inv, Invalidate, CancelSession, Lock, Drained, Put, At;
    match s.pc {
      case Swapped(_, _, previous) =>
        if previous.Some? {
          InvalidateMoves(s, previous.value, g);
        }
      case Cleared(n, wants) =>
        F.PutFrame(s, n, At(s, n).(rmfEstimator := if wants then Some(n) else None, failure := Some(n)));
      case StopCancelling(i) => CancelMoves(s, i, g);
      case Cancelling(i) => CancelMoves(s, i, g);
      case StopInvalidating(i) => InvalidateMoves(s, i, g);
      case Snapshotting(i) => F.PutFrame(s, i, At(s, i).(pending := None));
      case _ =>
    }
  }

  lemma AnswerMoves(s: State, g: Goal)
    requires G.Inv(s) && g in s.place && s.pc.Sending?
    ensures Moves(s, Continue, Answer(s), g)
  {
    hide G.Inv, Put;
    var i := s.pc.session;
    var x := At(s, i);
    var s0 := if Live(x) then Commit(s, Completion(x), x.goal.value, InExecutor) else s;
    F.PutFrame(s0, i, x.(done := true));
    F.AnswerFrame(s);
    BusyIsElsewhere(s, g);
    if Live(x) {
      LiveIsInSession(s, i);
    }
    if s.place[g].InTask? {
      var callback := s.tasks[s.place[g].task].chain.callback;
      assert Carries(s, s.place[g], callback) && Carries(Answer(s), s.place[g], callback);
    }
  }

  /** Unless a callback is being run for it, a goal is in a Zenoh callback, in its session or closed. */
  lemma BusyIsElsewhere(s: State, g: Goal)
    requires G.Inv(s) && g in s.place
    ensures s.place[g] == InExecutor ==> s.pc.Firing? && s.pc.chain.goal == Some(g)
    ensures s.place[g].InTask? ==>
      var t := s.place[g].task; t in s.tasks && s.tasks[t].CallingBack? && s.tasks[t].chain.goal == Some(g)
  {
    hide G.IssuesOk, G.SessionsOk, G.CountsOk, G.LogOk, G.RequestsOk;
  }

  lemma CallbackGoal(s: State, t: nat)
    requires G.Inv(s) && t in s.tasks && s.tasks[t].CallingBack?
    ensures s.tasks[t].chain.goal.Some? && s.tasks[t].chain.goal.value in s.place
    ensures s.place[s.tasks[t].chain.goal.value] == InTask(t)
  {
    hide G.IssuesOk, G.SessionsOk, G.PcOk, G.CountsOk, G.LogOk, G.RequestsOk;
    assert G.TaskOk(s.tasks[t], t, s.issued, s.place);
  }

  lemma FiringMoves(s: State, g: Goal)
    requires G.Inv(s) && g in s.place && s.pc.Firing?
    ensures Moves(s, Continue, ExecutorNext(s), g)
  {
    hide G.Inv, ChainNext, G.Outcome, StaysOrWithdrawn, Ends;
    var (chain, s') := (s.pc.chain, ExecutorNext(s));
    ChainMoves(s, chain, g);
    F.ChainFrame(s, chain);
    BusyIsElsewhere(s, g);
    if s.place[g] == InExecutor {
      assert Carries(s, InExecutor, chain.callback);
      if chain.stage.Finishing? {
        SameEnds(ChainNext(s, chain), s', s, g, G.Outcome(chain.callback, g));
      } else {
        OnlyFromSession(s, ChainNext(s, chain), g);
        assert Carries(s', InExecutor, chain.callback);
      }
    } else {
      FiringElsewhere(s, g);
      Elsewhere(s, Continue, s', g);
    }
  }

  lemma SameEnds(s1: State, s': State, s: State, g: Goal, r: Record)
    requires Ends(s, s1, g, r) && s'.place == s1.place && s'.log == s1.log
    ensures Ends(s, s', g, r)
  {
  }

  lemma OnlyFromSession(s: State, s': State, g: Goal)
    requires g in s.place && StaysOrWithdrawn(s, s', g) && s.place[g] != InSession
    ensures Stays(s, s', g)
  {
  }

  lemma FiringElsewhere(s: State, g: Goal)
    requires G.Inv(s) && g in s.place && s.pc.Firing? && s.place[g] != InExecutor
    ensures StaysOrWithdrawn(s, ExecutorNext(s), g)
  {
    hide G.IssuesOk, G.SessionsOk, G.TasksOk, G.CountsOk, G.LogOk, G.RequestsOk, ChainNext, G.Outcome;
    ChainMoves(s, s.pc.chain, g);
  }

  /** A step that neither decides nor refuses the goal, and leaves its callback alone. */
  lemma Elsewhere(s: State, e: Step, s': State, g: Goal)
    requires G.Inv(s) && g in s.place && StaysOrWithdrawn(s, s', g)
    requires !DecidesGoal(s, e, g) && !RefusesGoal(s, e, g)
    requires s.place[g] == InExecutor ==> s'.pc == s.pc
    requires s.place[g].InTask? && s.place[g].task in s.tasks ==>
      s.place[g].task in s'.tasks && s'.tasks[s.place[g].task] == s.tasks[s.place[g].task]
    ensures Moves(s, e, s', g)
  {
    hide G.Inv, DecidesGoal, RefusesGoal;
    BusyIsElsewhere(s, g);
    if s.place[g].InTask? {
      var callback := s.tasks[s.place[g].task].chain.callback;
      assert Carries(s, s.place[g], callback) && Carries(s', s.place[g], callback);
    } else if s.place[g].InExecutor? {
      assert Carries(s, InExecutor, s.pc.chain.callback) && Carries(s', InExecutor, s.pc.chain.callback);
    }
  }

  lemma ExecutorMoves(s: State, g: Goal)
    requires G.Inv(s) && g in s.place && Enabled(s, Continue)
    ensures Moves(s, Continue, ExecutorNext(s), g)
  {
    hide G.Inv, ExecutorNext, StaysOrWithdrawn;
    if s.pc.Sending? {
      SendingIsAnswer(s);
      AnswerMoves(s, g);
    } else if s.pc.Firing? {
      FiringMoves(s, g);
    } else {
      PlainMoves(s, g);
      F.ExecutorFrame(s);
      BusyIsElsewhere(s, g);
      Elsewhere(s, Continue, ExecutorNext(s), g);
    }
  }

  lemma SendingIsAnswer(s: State)
    requires s.pc.Sending?
    ensures ExecutorNext(s) == Answer(s)
  {
  }

  // ----- Zenoh callbacks -----

  lemma DecideMoves(s: State, t: nat, g: Goal)
    requires G.Inv(s) && g in s.place && t in s.tasks && s.tasks[t].Deciding? && !G.Redecides(s, Advance(t))
    ensures Moves(s, Advance(t), TaskNext(s, t), g)
  {
    hide G.Inv, Put, FirstAbout, Taken, ExecutorNext;
    var (i, statuses) := (s.tasks[t].session, s.tasks[t].statuses);
    var (x, s') := (At(s, i), TaskNext(s, t));
    BusyIsElsewhere(s, g);
    if Verdict(x, statuses).Some? {
      var s0 := Commit(s, Taken(x, statuses), x.goal.value, InTask(t));
      F.PutFrame(s0, i, Invalidated(x));
      LiveIsInSession(s, i);
    }
    if s.place[g].InTask? {
      var callback := s.tasks[s.place[g].task].chain.callback;
      assert Carries(s, s.place[g], callback) && Carries(s', s.place[g], callback);
    } else if s.place[g].InExecutor? {
      assert Carries(s, InExecutor, s.pc.chain.callback) && Carries(s', InExecutor, s.pc.chain.callback);
    }
  }

  lemma CallbackMoves(s: State, t: nat, g: Goal)
    requires G.Inv(s) && g in s.place && t in s.tasks && s.tasks[t].CallingBack?
    ensures Moves(s, Advance(t), TaskNext(s, t), g)
  {
    hide G.Inv, ChainNext, G.Outcome, StaysOrWithdrawn, Ends;
    var (chain, s') := (s.tasks[t].chain, TaskNext(s, t));
    var s1 := ChainNext(s, chain);
    ChainMoves(s, chain, g);
    F.ChainFrame(s, chain);
    CallbackGoal(s, t);
    BusyIsElsewhere(s, g);
    if s.place[g] == InTask(t) {
      assert Carries(s, InTask(t), chain.callback);
      if chain.stage.Finishing? {
        SameEnds(s1, s', s, g, G.Outcome(chain.callback, g));
      } else {
        OnlyFromSession(s, s1, g);
        assert Carries(s', InTask(t), chain.callback);
      }
    } else {
      SameFate(s, s1, s', g);
      Elsewhere(s, Advance(t), s', g);
    }
  }

  lemma SameFate(s: State, s1: State, s': State, g: Goal)
    requires g in s.place && StaysOrWithdrawn(s, s1, g) && s'.place == s1.place && s'.log == s1.log
    ensures StaysOrWithdrawn(s, s', g)
  {
  }

  lemma MessageMoves(s: State, t: nat, g: Goal)
    requires G.Inv(s) && g in s.place && t in s.tasks && !s.tasks[t].Deciding? && !s.tasks[t].CallingBack?
    ensures Moves(s, Advance(t), TaskNext(s, t), g)
  {
    hide G.Inv, Lock, Put, At;
    F.MessageFrame(s, t);
    BusyIsElsewhere(s, g);
    match s.tasks[t] {
      case Matched(i, feedback, _) => F.PutFrame(s, i, At(s, i).(reason := feedback.reason));
      case Targeting(_, feedback, j) => F.PutFrame(s, j, At(s, j).(target := feedback.index));
      case Buffering(_, feedback, j) => F.PutFrame(s, j, At(s, j).(pending := Some(feedback)));
      case _ =>
    }
    Elsewhere(s, Advance(t), TaskNext(s, t), g);
  }

  // ----- every step -----

  lemma ArmMoves(s: State, e: Step, g: Goal)
    requires G.Inv(s) && g in s.place && Enabled(s, e) && e.ArmGoal?
    ensures Moves(s, e, Next(s, e), g)
  {
    hide G.Inv, Release, Put;
    var (call, i) := (s.pc.call, s.pc.session);
    var s0 := Release(s, i);
    ReleaseMoves(s, i, g);
    F.PutFrame(s0, i, Armed(At(s, i), e.goal, call.owner, call.estimator));
    G.KeysHold(s);
    assert g != e.goal;
    ReleaseFrame(s, i);
    BusyIsElsewhere(s, g);
    ArmElsewhere(s, e, g);
  }

  lemma ReleaseFrame(s: State, i: SessionId)
    ensures F.SameContext(s, Release(s, i))
  {
  }

  lemma ArmElsewhere(s: State, e: Step, g: Goal)
    requires G.Inv(s) && g in s.place && Enabled(s, e) && e.ArmGoal?
    requires StaysOrWithdrawn(s, Next(s, e), g) && Next(s, e).tasks == s.tasks
    ensures Moves(s, e, Next(s, e), g)
  {
    hide G.Inv, Next, StaysOrWithdrawn;
    BusyIsElsewhere(s, g);
    Elsewhere(s, e, Next(s, e), g);
  }

  /** The life of a goal: what every step does to it. */
  lemma GoalMoves(s: State, e: Step, g: Goal)
    requires G.Inv(s) && Enabled(s, e) && !G.Redecides(s, e) && g in s.place
    ensures Moves(s, e, Next(s, e), g)
  {
    hide G.Inv, Moves, ExecutorNext, TaskNext;
    match e {
      case Continue => ExecutorMoves(s, g);
      case Advance(t) =>
        if s.tasks[t].Deciding? {
          DecideMoves(s, t, g);
        } else if s.tasks[t].CallingBack? {
          CallbackMoves(s, t, g);
        } else {
          MessageMoves(s, t, g);
        }
      case ArmGoal(_, _) => ArmMoves(s, e, g);
      case _ => OtherMoves(s, e, g);
    }
  }

  lemma OtherMoves(s: State, e: Step, g: Goal)
    requires G.Inv(s) && Enabled(s, e) && g in s.place && !e.Continue? && !e.Advance? && !e.ArmGoal?
    ensures Moves(s, e, Next(s, e), g)
  {
    hide G.Inv, Lock;
    BusyIsElsewhere(s, g);
    Elsewhere(s, e, Next(s, e), g);
  }

  // ----- how a goal was decided, along a run -----

  /** failure is the failure callback its session held at that moment. */
  datatype Fate = Undecided | Decided(code: Code, failure: Option<SessionId>) | Refused

  function Noted(s: State, e: Step, g: Goal, fate: Fate): Fate {
    if DecidesGoal(s, e, g) then
      var x := At(s, s.tasks[e.task].session);
      Decided(Verdict(x, s.tasks[e.task].statuses).value, x.failure)
    else if RefusesGoal(s, e, g) then Refused
    else fate
  }

  ghost function FateAfter(assumed: Assumptions, s: State, run: seq<Step>, g: Goal, fate: Fate): Fate
    requires IsRun(assumed, s, run)
    decreases |run|
  {
    if run == [] then fate
    else FateAfter(assumed, Next(s, run[0]), run[1..], g, Noted(s, run[0], g, fate))
  }

  /** How the run decided the goal, if it did. */
  ghost function FateOf(assumed: Assumptions, run: seq<Step>, g: Goal): Fate
    requires IsRun(assumed, INITIAL, run)
  {
    FateAfter(assumed, INITIAL, run, g, Undecided)
  }

  /** The goal succeeded, or its send was refused: in both cases its completion is due. */
  predicate Completes(fate: Fate) {
    fate.Refused? || (fate.Decided? && fate.code.Succeeded?)
  }

  /** The callback due for a goal with this fate. */
  function Due(fate: Fate, issue: Issue): Option<Callback> {
    if Completes(fate) then
      if issue.owner.Some? then Some(Complete(issue.owner.value)) else None
    else if fate.Decided? && fate.failure.Some? then Some(Fail(fate.failure.value))
    else None
  }

  /** The record that ends a goal with this fate. */
  function Ending(fate: Fate, issue: Issue, g: Goal): Record {
    if fate.Undecided? then Withdrawn(g)
    else if Due(fate, issue).Some? then G.Outcome(Due(fate, issue).value, g)
    else Unheard(g)
  }

  // ----- what follows from it -----

  /** The goal is closed by this record. */
  ghost predicate ClosedBy(s: State, g: Goal, r: Record) {
    exists k: nat :: R.ClosedAt(s, g, k) && s.log[k] == r
  }

  /** Where the goal is agrees with its fate, and its one record, once it has one, too. */
  ghost predicate FateOk(s: State, g: Goal, fate: Fate) {
    if g !in s.place || g !in s.issued then fate.Undecided?
    else
      match s.place[g]
      case InSession => fate.Undecided?
      case Closed => ClosedBy(s, g, Ending(fate, s.issued[g], g))
      case _ => !fate.Undecided? && Due(fate, s.issued[g]).Some? && Carries(s, s.place[g], Due(fate, s.issued[g]).value)
  }

  lemma CarriesOne(s: State, p: Place, a: Callback, b: Callback)
    requires Carries(s, p, a) && Carries(s, p, b)
    ensures a == b
  {
  }

  lemma EndsAt(s: State, s': State, g: Goal, r: Record)
    requires Ends(s, s', g, r) && G.Closes(r) == Some(g)
    ensures ClosedBy(s', g, r)
  {
    assert R.ClosedAt(s', g, |s.log|) && s'.log[|s.log|] == r;
  }

  lemma ClosedStays(s: State, s': State, g: Goal, r: Record)
    requires s.log <= s'.log && ClosedBy(s, g, r)
    ensures ClosedBy(s', g, r)
  {
    var k: nat :| R.ClosedAt(s, g, k) && s.log[k] == r;
    assert R.ClosedAt(s', g, k) && s'.log[k] == r;
  }

  /** Only a live goal is decided or refused. */
  lemma DecidedIsLive(s: State, e: Step, g: Goal)
    requires G.Inv(s) && !G.Redecides(s, e) && (DecidesGoal(s, e, g) || RefusesGoal(s, e, g))
    ensures g in s.place && s.place[g] == InSession && g in s.issued
  {
    hide G.Inv, FirstAbout;
    if DecidesGoal(s, e, g) {
      LiveIsInSession(s, s.tasks[e.task].session);
    } else {
      LiveIsInSession(s, s.pc.session);
    }
  }

  /** What is taken out of the session is what is due. */
  lemma TakenIsDue(s: State, e: Step, g: Goal, fate: Fate)
    requires G.Inv(s) && !G.Redecides(s, e) && DecidesGoal(s, e, g) && g in s.issued
    ensures var x := At(s, s.tasks[e.task].session);
      Taken(x, s.tasks[e.task].statuses) == Due(Noted(s, e, g, fate), s.issued[g])
  {
    hide G.IssuesOk, G.TasksOk, G.PcOk, G.CountsOk, G.LogOk, G.RequestsOk, FirstAbout;
    var i := s.tasks[e.task].session;
    assert G.SessionOk(At(s, i), i, s.issued, s.place);
  }

  lemma CompletionIsDue(s: State, e: Step, g: Goal, fate: Fate)
    requires G.Inv(s) && RefusesGoal(s, e, g) && g in s.issued
    ensures Noted(s, e, g, fate) == Refused && Completion(At(s, s.pc.session)) == Due(Refused, s.issued[g])
  {
    hide G.IssuesOk, G.TasksOk, G.PcOk, G.CountsOk, G.LogOk, G.RequestsOk;
    assert G.SessionOk(At(s, s.pc.session), s.pc.session, s.issued, s.place);
  }

  /** Goals stay issued as they were, the log only grows, and a goal is issued live. */
  lemma Grows(s: State, e: Step, g: Goal)
    requires G.Inv(s) && Enabled(s, e)
    ensures var s' := Next(s, e);
      && s.log <= s'.log
      && (g in s.issued ==> g in s'.issued && s'.issued[g] == s.issued[g])
      && (g !in s.issued && g in s'.issued ==> e.ArmGoal? && e.goal == g && g in s'.place && s'.place[g] == InSession)
  {
    hide G.Inv, TaskNext, ExecutorNext, LockSession, Lock, Live;
    match e {
      case Continue =>
        F.ExecutorFrame(s);
        F.ExecutorLog(s);
      case Advance(t) =>
        F.TaskFrame(s, t);
        F.TaskLog(s, t);
      case Execute(owner) => G.LockStatuses(s, Call(owner, None));
      case _ =>
    }
  }

  lemma PassesAsDue(s: State, s': State, g: Goal, fate: Fate, p: Place, issue: Issue)
    requires Passes(s, s', g, Due(fate, issue), p) && !fate.Undecided? && (p.InTask? || p.InExecutor?)
    requires g in s'.issued && s'.issued[g] == issue
    ensures FateOk(s', g, fate)
  {
    hide Due;
    if Due(fate, issue).None? {
      EndsAt(s, s', g, Unheard(g));
    }
  }

  lemma FateKeeps(s: State, e: Step, g: Goal, fate: Fate)
    requires G.Inv(s) && Enabled(s, e) && !G.Redecides(s, e) && FateOk(s, g, fate)
    requires G.Inv(Next(s, e))
    ensures FateOk(Next(s, e), g, Noted(s, e, g, fate))
  {
    hide G.Inv, Next, Due, DecidesGoal, RefusesGoal, Carries, G.Redecides;
    var s' := Next(s, e);
    Grows(s, e, g);
    G.KeysHold(s);
    G.KeysHold(s');
    if DecidesGoal(s, e, g) || RefusesGoal(s, e, g) {
      DecidedIsLive(s, e, g);
    }
    if g in s.issued {
      GoalMoves(s, e, g);
      if DecidesGoal(s, e, g) {
        TakenIsDue(s, e, g, fate);
        DecidedAsDue(s, e, g, fate);
      } else if RefusesGoal(s, e, g) {
        CompletionIsDue(s, e, g, fate);
        PassesAsDue(s, s', g, Refused, InExecutor, s.issued[g]);
      } else {
        UndecidedKeeps(s, e, g, fate);
      }
    }
  }

  lemma DecidedAsDue(s: State, e: Step, g: Goal, fate: Fate)
    requires G.Inv(s) && Enabled(s, e) && !G.Redecides(s, e) && DecidesGoal(s, e, g)
    requires g in s.issued && g in s.place && s.place[g] == InSession && Moves(s, e, Next(s, e), g)
    requires var s' := Next(s, e); g in s'.issued && s'.issued[g] == s.issued[g]
    ensures FateOk(Next(s, e), g, Noted(s, e, g, fate))
  {
    hide G.Inv, Next, FirstAbout, Due, FateOk, Passes, G.Redecides;
    TakenIsDue(s, e, g, fate);
    PassesAsDue(s, Next(s, e), g, Noted(s, e, g, fate), InTask(e.task), s.issued[g]);
  }

  lemma UndecidedKeeps(s: State, e: Step, g: Goal, fate: Fate)
    requires Enabled(s, e) && g in s.place && g in s.issued && FateOk(s, g, fate) && Moves(s, e, Next(s, e), g)
    requires !DecidesGoal(s, e, g) && !RefusesGoal(s, e, g)
    requires var s' := Next(s, e);
      s.log <= s'.log && g in s'.issued && s'.issued[g] == s.issued[g] && g in s'.place
    ensures FateOk(Next(s, e), g, fate)
  {
    hide Next, Due, DecidesGoal, RefusesGoal, Carries;
    var s' := Next(s, e);
    match s.place[g] {
      case InSession =>
        if s'.place[g] != InSession {
          EndsAt(s, s', g, Withdrawn(g));
        }
      case Closed => ClosedStays(s, s', g, Ending(fate, s.issued[g], g));
      case _ =>
        var callback :| Carries(s, s.place[g], callback) &&
          ((Stays(s, s', g) && Carries(s', s.place[g], callback)) || Ends(s, s', g, G.Outcome(callback, g)));
        CarriesOne(s, s.place[g], callback, Due(fate, s.issued[g]).value);
        if !Stays(s, s', g) {
          EndsAt(s, s', g, G.Outcome(callback, g));
        }
    }
  }

  lemma {:induction false} FatesHold(assumed: Assumptions, s: State, run: seq<Step>, g: Goal, fate: Fate)
    requires G.Inv(s) && IsRun(assumed, s, run) && !Sometime(assumed, G.Redecides, s, run) && FateOk(s, g, fate)
    ensures G.Inv(Final(assumed, s, run)) && FateOk(Final(assumed, s, run), g, FateAfter(assumed, s, run, g, fate))
    decreases |run|
  {
    hide G.Inv, G.Redecides, Next, FateOk, Noted, HonestRobot, InOneStep;
    if run != [] {
      G.NextKeeps(s, run[0]);
      FateKeeps(s, run[0], g, fate);
      FatesHold(assumed, Next(s, run[0]), run[1..], g, Noted(s, run[0], g, fate));
    }
  }

  /**
   * On every run with an honest robot, the one record that closes a goal is the one its fate
   * calls for: its completion if it succeeded or its send was refused, the failure of its
   * session if it was aborted or cancelled, neither where that callback was null, and a
   * withdrawal only if nothing decided it. A goal whose callback is under way was decided.
   */
  lemma GoalsEndAsDecided(assumed: Assumptions, run: seq<Step>, g: Goal)
    requires assumed.acceptedOnly && IsRun(assumed, INITIAL, run)
    ensures var (s, fate) := (Final(assumed, INITIAL, run), FateOf(assumed, run, g));
      && (forall k: nat :: R.ClosedAt(s, g, k) ==> g in s.issued && s.log[k] == Ending(fate, s.issued[g], g))
      && ((exists i :: R.LiveIn(s, g, i)) ==> fate.Undecided?)
      && ((exists p :: R.CarriedBy(s, g, p)) ==> !fate.Undecided?)
  {
    hide G.Inv, FateOk, R.Accounted, R.LiveIn, R.CarriedBy;
    G.InvStarts();
    G.InvHolds(assumed, run);
    assert FateOk(INITIAL, g, Undecided) by { StartsUndecided(g); }
    FatesHold(assumed, INITIAL, run, g, Undecided);
    FateShows(Final(assumed, INITIAL, run), g, FateOf(assumed, run, g));
  }

  lemma StartsUndecided(g: Goal)
    ensures FateOk(INITIAL, g, Undecided)
  {
  }

  lemma FateShows(s: State, g: Goal, fate: Fate)
    requires G.Inv(s) && FateOk(s, g, fate)
    ensures forall k: nat :: R.ClosedAt(s, g, k) ==> g in s.issued && s.log[k] == Ending(fate, s.issued[g], g)
    ensures (exists i :: R.LiveIn(s, g, i)) ==> fate.Undecided?
    ensures (exists p :: R.CarriedBy(s, g, p)) ==> !fate.Undecided?
  {
    hide G.Inv, R.LiveIn, R.CarriedBy, Ending, Carries, Due;
    R.Accounts(s, g);
    G.KeysHold(s);
    if g in s.issued {
      R.PlaceIsRight(s, g);
      if s.place[g] == Closed {
        var n: nat :| R.ClosedAt(s, g, n) && s.log[n] == Ending(fate, s.issued[g], g);
        assert forall k: nat :: R.ClosedAt(s, g, k) ==> k == n;
      }
    } else {
      R.NotIssued(s, g);
    }
  }

  // ----- docks and actions -----

  /**
   * On every run with an honest robot, the completion of a dock or an action is called for a
   * goal if and only if the goal succeeded or its send was refused, and the callback is done.
   */
  lemma ErrandsAreAnsweredIff(assumed: Assumptions, run: seq<Step>, g: Goal, id: nat)
    requires assumed.acceptedOnly && IsRun(assumed, INITIAL, run)
    requires var s := Final(assumed, INITIAL, run); g in s.issued && s.issued[g].owner == Some(Errand(id))
    ensures var (s, fate) := (Final(assumed, INITIAL, run), FateOf(assumed, run, g));
      Fired(Errand(id), g) in s.log <==> Completes(fate) && exists k :: R.ClosedAt(s, g, k)
  {
    hide G.Inv, R.LiveIn, R.CarriedBy;
    var s := Final(assumed, INITIAL, run);
    GoalsEndAsDecided(assumed, run, g);
    if Fired(Errand(id), g) in s.log {
      var k :| 0 <= k < |s.log| && s.log[k] == Fired(Errand(id), g);
      assert R.ClosedAt(s, g, k);
    }
    if k: nat :| R.ClosedAt(s, g, k) {
      assert s.log[k] in s.log;
    }
  }
}
