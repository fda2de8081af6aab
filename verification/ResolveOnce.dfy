/**
 * Every goal is accounted for exactly once, and so is every path request, at the
 * granularity of critical sections. Assumes acceptedOnly; callbacks need not be atomic.
 */
module ResolveOnce {
  import opened Common
  import opened NavigationSession
  import opened NavigationProtocol
  import opened GoalAccounting
  import F = ProtocolFrame

  // ----- every goal is accounted for exactly once -----

  ghost predicate LiveIn(s: State, g: Goal, i: SessionId) {
    i < |s.sessions| && s.sessions[i].goal == Some(g) && !s.sessions[i].done
  }

  /** The callback of the goal is on its way, in a Zenoh callback or in the executor. */
  ghost predicate CarriedBy(s: State, g: Goal, p: Place) {
    match p
    case InTask(t) => t in s.tasks && s.tasks[t].CallingBack? && s.tasks[t].chain.goal == Some(g)
    case InExecutor => s.pc.Firing? && s.pc.chain.goal == Some(g)
    case _ => false
  }

  ghost predicate Pending(s: State, g: Goal) {
    (exists i :: LiveIn(s, g, i)) || (exists p :: CarriedBy(s, g, p))
  }

  ghost predicate ClosedAt(s: State, g: Goal, k: nat) {
    k < |s.log| && Closes(s.log[k]) == Some(g)
  }

  /** Nobody, or one session, or one callback under way has the goal; and one record at most closes it. */
  ghost predicate HeldOnce(s: State, g: Goal) {
    && (forall i, j :: LiveIn(s, g, i) && LiveIn(s, g, j) ==> i == j)
    && (forall p, q :: CarriedBy(s, g, p) && CarriedBy(s, g, q) ==> p == q)
    && !((exists i :: LiveIn(s, g, i)) && (exists p :: CarriedBy(s, g, p)))
    && (forall j, k :: ClosedAt(s, g, j) && ClosedAt(s, g, k) ==> j == k)
  }

  lemma {:induction false} ClosingCounts(log: seq<Record>, g: Goal, k: nat)
    requires k < |log| && Closes(log[k]) == Some(g)
    ensures Closings(log, g) >= 1
  {
    if k < |log| - 1 {
      ClosingCounts(log[..|log| - 1], g, k);
    }
  }

  lemma {:induction false} TwoClosingsCount(log: seq<Record>, g: Goal, j: nat, k: nat)
    requires j < k < |log| && Closes(log[j]) == Some(g) && Closes(log[k]) == Some(g)
    ensures Closings(log, g) >= 2
  {
    var rest := log[..|log| - 1];
    if k < |log| - 1 {
      TwoClosingsCount(rest, g, j, k);
    } else {
      ClosingCounts(rest, g, j);
    }
  }

  lemma {:induction false} SomeClosing(log: seq<Record>, g: Goal) returns (k: nat)
    requires Closings(log, g) >= 1
    ensures k < |log| && Closes(log[k]) == Some(g)
  {
    if Closes(log[|log| - 1]) == Some(g) {
      k := |log| - 1;
    } else {
      k := SomeClosing(log[..|log| - 1], g);
    }
  }

  /** Where the bookkeeping puts a goal is where it is. */
  lemma PlaceIsRight(s: State, g: Goal)
    requires Inv(s) && g in s.issued
    ensures g in s.place
    ensures forall i :: LiveIn(s, g, i) <==> s.place[g] == InSession && i == s.issued[g].session
    ensures forall p :: CarriedBy(s, g, p) <==> (p.InTask? || p.InExecutor?) && s.place[g] == p
  {
    hide CountsOk, LogOk, RequestsOk, Answers, Unused;
    forall i: SessionId ensures LiveIn(s, g, i) <==> s.place[g] == InSession && i == s.issued[g].session {
      if i < |s.sessions| {
        assert SessionOk(s.sessions[i], i, s.issued, s.place);
      }
    }
    forall p ensures CarriedBy(s, g, p) <==> (p.InTask? || p.InExecutor?) && s.place[g] == p {
      if p.InTask? && p.task in s.tasks {
        assert TaskOk(s.tasks[p.task], p.task, s.issued, s.place);
      }
    }
  }

  lemma Accounts(s: State, g: Goal)
    requires Inv(s)
    ensures forall j, k :: ClosedAt(s, g, j) && ClosedAt(s, g, k) ==> j == k
    ensures (exists k :: ClosedAt(s, g, k)) <==> g in s.place && s.place[g] == Closed
  {
    hide IssuesOk, SessionsOk, TasksOk, PcOk, LogOk, RequestsOk, Closings;
    forall j, k | ClosedAt(s, g, j) && ClosedAt(s, g, k) ensures j == k {
      if j < k {
        TwoClosingsCount(s.log, g, j, k);
      } else if k < j {
        TwoClosingsCount(s.log, g, k, j);
      }
    }
    if g in s.place && s.place[g] == Closed {
      var k := SomeClosing(s.log, g);
      assert ClosedAt(s, g, k);
    }
    if k: nat :| ClosedAt(s, g, k) {
      ClosingCounts(s.log, g, k);
    }
  }

  /** Every goal is accounted for: pending in one place, or closed by one record, and not both. */
  ghost predicate Accounted(s: State) {
    && (forall g: Goal :: HeldOnce(s, g))
    && (forall g: Goal ::
          if g in s.issued then Pending(s, g) <==> !exists k :: ClosedAt(s, g, k)
          else !Pending(s, g) && !exists k :: ClosedAt(s, g, k))
  }

  lemma InvAccounts(s: State)
    requires Inv(s)
    ensures Accounted(s)
  {
    hide Inv, HeldOnce, Pending;
    forall g: Goal
      ensures HeldOnce(s, g)
      ensures if g in s.issued then Pending(s, g) <==> !exists k :: ClosedAt(s, g, k)
              else !Pending(s, g) && !exists k :: ClosedAt(s, g, k)
    {
      GoalIsAccounted(s, g);
    }
  }

  lemma GoalIsAccounted(s: State, g: Goal)
    requires Inv(s)
    ensures HeldOnce(s, g)
    ensures if g in s.issued then Pending(s, g) <==> !exists k :: ClosedAt(s, g, k)
            else !Pending(s, g) && !exists k :: ClosedAt(s, g, k)
  {
    hide Inv;
    KeysHold(s);
    Accounts(s, g);
    if g in s.issued {
      PlaceIsRight(s, g);
      match s.place[g] {
        case InSession => assert LiveIn(s, g, s.issued[g].session);
        case InTask(t) => assert CarriedBy(s, g, InTask(t));
        case InExecutor => assert CarriedBy(s, g, InExecutor);
        case Closed =>
      }
    } else {
      NotIssued(s, g);
    }
  }

  lemma NotIssued(s: State, g: Goal)
    requires Inv(s) && g !in s.issued
    ensures forall i :: !LiveIn(s, g, i)
    ensures forall p :: !CarriedBy(s, g, p)
  {
    hide IssuesOk, CountsOk, LogOk, RequestsOk, Answers, Unused;
    forall i: SessionId ensures !LiveIn(s, g, i) {
      assert i < |s.sessions| ==> SessionOk(s.sessions[i], i, s.issued, s.place);
    }
    forall p ensures !CarriedBy(s, g, p) {
      assert p.InTask? && p.task in s.tasks ==> TaskOk(s.tasks[p.task], p.task, s.issued, s.place);
    }
  }

  /**
   * On every run with an honest robot every goal is accounted for at all times. So at most
   * one completion or failure is ever called for a goal, whatever status messages arrive.
   */
  lemma GoalsAreAccountedForOnce(assumed: Assumptions, run: seq<Step>)
    requires assumed.acceptedOnly && IsRun(assumed, INITIAL, run)
    ensures Accounted(Final(assumed, INITIAL, run))
  {
    hide Inv, Accounted;
    InvHolds(assumed, run);
    InvAccounts(Final(assumed, INITIAL, run));
  }

  // ----- exactly when goals are accounted for -----

  /** The goal is on its way in a callback, or closed. */
  ghost predicate Settled(s: State, g: Goal, p: Place, k: nat) {
    CarriedBy(s, g, p) || ClosedAt(s, g, k)
  }

  /** A rejected goal that is decided was settled before. */
  lemma RejectedIsSettled(s: State, i: SessionId) returns (p: Place, k: nat)
    requires Inv(s) && At(s, i).goal.Some? && At(s, i).done
    ensures At(s, i).goal.value in s.issued && Settled(s, At(s, i).goal.value, p, k)
  {
    hide IssuesOk, TasksOk, PcOk, CountsOk, LogOk, RequestsOk, CarriedBy;
    var g := At(s, i).goal.value;
    assert SessionOk(s.sessions[i], i, s.issued, s.place);
    PlaceIsRight(s, g);
    Accounts(s, g);
    p, k := s.place[g], 0;
    if p == Closed {
      k :| ClosedAt(s, g, k);
    }
  }

  /** Deciding it settles it a second time. */
  lemma RedecidingSettles(s: State, e: Step, g: Goal, p: Place, k: nat)
    requires Enabled(s, e) && Redecides(s, e) && At(s, s.tasks[e.task].session).goal == Some(g)
    requires Settled(s, g, p, k)
    ensures var s' := Next(s, e);
      && Settled(s', g, p, k)
      && (CarriedBy(s', g, InTask(e.task)) || ClosedAt(s', g, |s.log|))
      && (CarriedBy(s, g, p) ==> p != InTask(e.task)) && (ClosedAt(s, g, k) ==> k < |s.log|)
      && (CarriedBy(s, g, p) ==> CarriedBy(s', g, p)) && (ClosedAt(s, g, k) ==> ClosedAt(s', g, k))
  {
    hide FirstAbout, Taken;
  }

  lemma TwiceIsTooOften(s: State, g: Goal, p: Place, k: nat, q: Place, n: nat)
    requires g in s.issued && Settled(s, g, p, k) && Settled(s, g, q, n)
    requires CarriedBy(s, g, p) && CarriedBy(s, g, q) ==> p != q
    requires ClosedAt(s, g, k) && ClosedAt(s, g, n) ==> k != n
    ensures !Accounted(s)
  {
    hide CarriedBy, LiveIn;
    if (CarriedBy(s, g, p) && CarriedBy(s, g, q)) || (ClosedAt(s, g, k) && ClosedAt(s, g, n)) {
      assert !HeldOnce(s, g);
    } else {
      assert Pending(s, g) && exists m :: ClosedAt(s, g, m);
    }
  }

  /** Deciding a goal already rejected loses the account: it is closed twice, or closed and pending. */
  lemma RedecidingLoses(s: State, e: Step)
    requires Inv(s) && Enabled(s, e) && Redecides(s, e)
    ensures !Accounted(Next(s, e))
  {
    hide Inv, Accounted, CarriedBy, FirstAbout, TaskNext;
    var (i, s') := (s.tasks[e.task].session, Next(s, e));
    var g := At(s, i).goal.value;
    var p, k := RejectedIsSettled(s, i);
    RedecidingSettles(s, e, g, p, k);
    F.TaskFrame(s, e.task);
    if CarriedBy(s, g, p) {
      TwiceIsTooOften(s', g, p, |s.log| + 1, InTask(e.task), |s.log|);
    } else {
      TwiceIsTooOften(s', g, InSession, k, InTask(e.task), |s.log|);
    }
  }

  lemma {:induction false} AccountedIffFrom(assumed: Assumptions, s: State, run: seq<Step>)
    requires Inv(s) && IsRun(assumed, s, run)
    ensures Always(assumed, Accounted, s, run) <==> !Sometime(assumed, Redecides, s, run)
    decreases |run|
  {
    hide Inv, Accounted, Redecides, Next, HonestRobot, InOneStep;
    InvAccounts(s);
    if run != [] {
      if Redecides(s, run[0]) {
        RedecidingLoses(s, run[0]);
      } else {
        NextKeeps(s, run[0]);
        AccountedIffFrom(assumed, Next(s, run[0]), run[1..]);
      }
    }
  }

  /**
   * With fresh goal ids alone, every goal is accounted for at all times if and only if no
   * status ever decides a session whose goal was already rejected.
   */
  lemma AccountedIff(assumed: Assumptions, run: seq<Step>)
    requires IsRun(assumed, INITIAL, run)
    ensures Always(assumed, Accounted, INITIAL, run) <==> !Sometime(assumed, Redecides, INITIAL, run)
  {
    InvStarts();
    AccountedIffFrom(assumed, INITIAL, run);
  }

  /** What a goal resolves is its own: the completion stored with it, or the failure of its session. */
  lemma ResolutionsAreOwn(assumed: Assumptions, run: seq<Step>)
    requires assumed.acceptedOnly && IsRun(assumed, INITIAL, run)
    ensures var s := Final(assumed, INITIAL, run); LogOk(s.log, s.issued)
  {
    hide RecordOk;
    InvHolds(assumed, run);
  }

  // ----- every path request is in one of four states -----

  ghost predicate GoalOf(s: State, r: SessionId, g: Goal) {
    g in s.issued && s.issued[g].owner == Some(PathRequest(r))
  }

  ghost predicate Active(s: State, r: SessionId) {
    Starting(s.pc, r) || exists g :: GoalOf(s, r, g) && Pending(s, g)
  }

  ghost predicate FiredAt(s: State, r: SessionId, k: nat) {
    k < |s.log| && s.log[k].Fired? && s.log[k].owner == PathRequest(r)
  }

  ghost predicate Finished(s: State, r: SessionId) {
    exists k :: FiredAt(s, r, k)
  }

  ghost predicate HasFailed(s: State, r: SessionId) {
    exists g :: GoalOf(s, r, g) && Failed(r, g) in s.log
  }

  ghost predicate IsWithdrawn(s: State, r: SessionId) {
    exists g :: GoalOf(s, r, g) && Withdrawn(g) in s.log
  }

  predicate ExactlyOne(a: bool, b: bool, c: bool, d: bool) {
    (a || b || c || d) && !(a && b) && !(a && c) && !(a && d) && !(b && c) && !(b && d) && !(c && d)
  }

  /**
   * On every run, every path RMF has asked for is active, or has finished with its
   * callback called once, or has failed, or was withdrawn; and only one of these.
   */
  lemma RequestsAreAccountedForOnce(assumed: Assumptions, run: seq<Step>, r: SessionId)
    requires assumed.acceptedOnly && IsRun(assumed, INITIAL, run)
    requires r < |Final(assumed, INITIAL, run).sessions|
    ensures var s := Final(assumed, INITIAL, run);
      && ExactlyOne(Active(s, r), Finished(s, r), HasFailed(s, r), IsWithdrawn(s, r))
      && forall j, k :: FiredAt(s, r, j) && FiredAt(s, r, k) ==> j == k
  {
    hide Inv, Pending;
    InvHolds(assumed, run);
    var s := Final(assumed, INITIAL, run);
    if Starting(s.pc, r) {
      StartingHasNoGoal(s, r);
      forall k ensures !FiredAt(s, r, k) {
        if FiredAt(s, r, k) {
          FiredForOwn(s, r, k);
        }
      }
    } else {
      var g := TheGoal(s, r);
      GoalIsAccounted(s, g);
      RecordsOfPath(s, r, g);
    }
  }

  lemma StartingHasNoGoal(s: State, r: SessionId)
    requires Inv(s) && Starting(s.pc, r)
    ensures forall g :: !GoalOf(s, r, g)
  {
    hide SessionsOk, TasksOk, CountsOk, LogOk, RequestsOk, ChainOk;
    forall g ensures !GoalOf(s, r, g) {
      assert g in s.issued ==> IssueOk(s.issued[g], |s.sessions|);
    }
  }

  lemma FiredForOwn(s: State, r: SessionId, k: nat)
    requires Inv(s) && FiredAt(s, r, k)
    ensures GoalOf(s, r, s.log[k].goal) && ClosedAt(s, s.log[k].goal, k)
  {
    hide IssuesOk, SessionsOk, TasksOk, CountsOk, PcOk, RequestsOk;
    assert RecordOk(s.log[k], s.issued);
  }

  lemma TheGoal(s: State, r: SessionId) returns (g: Goal)
    requires Inv(s) && r < |s.sessions| && !Starting(s.pc, r)
    ensures GoalOf(s, r, g) && forall h :: GoalOf(s, r, h) ==> h == g
  {
    hide SessionsOk, TasksOk, CountsOk, PcOk, LogOk;
    assert HasGoal(s.issued, r);
    g :| g in s.issued && s.issued[g].owner == Some(PathRequest(r));
    forall h | GoalOf(s, r, h) ensures h == g {
      assert IssueOk(s.issued[g], |s.sessions|) && IssueOk(s.issued[h], |s.sessions|);
    }
  }

  /** The one record that closes the goal of a path says that it finished, failed or was withdrawn. */
  lemma RecordsOfPath(s: State, r: SessionId, g: Goal)
    requires Inv(s) && GoalOf(s, r, g) && (forall h :: GoalOf(s, r, h) ==> h == g)
    requires HeldOnce(s, g) && (Pending(s, g) <==> !exists k :: ClosedAt(s, g, k))
    ensures ExactlyOne(Pending(s, g), Finished(s, r), HasFailed(s, r), IsWithdrawn(s, r))
    ensures forall j, k :: FiredAt(s, r, j) && FiredAt(s, r, k) ==> j == k
  {
    hide Inv, Pending, LiveIn, CarriedBy;
    forall k | FiredAt(s, r, k) ensures ClosedAt(s, g, k) {
      FiredForOwn(s, r, k);
    }
    if HasFailed(s, r) {
      var k :| 0 <= k < |s.log| && s.log[k] == Failed(r, g);
      assert ClosedAt(s, g, k);
    }
    if IsWithdrawn(s, r) {
      var k :| 0 <= k < |s.log| && s.log[k] == Withdrawn(g);
      assert ClosedAt(s, g, k);
    }
    if k: nat :| ClosedAt(s, g, k) {
      ClosingOfPath(s, r, g, k);
      assert s.log[k] in s.log;
      assert s.log[k].Fired? ==> FiredAt(s, r, k);
    }
  }

  lemma ClosingOfPath(s: State, r: SessionId, g: Goal, k: nat)
    requires Inv(s) && GoalOf(s, r, g) && ClosedAt(s, g, k)
    ensures s.log[k] == Fired(PathRequest(r), g) || s.log[k] == Failed(r, g) || s.log[k] == Withdrawn(g)
  {
    hide SessionsOk, TasksOk, CountsOk, PcOk, RequestsOk;
    assert RecordOk(s.log[k], s.issued) && IssueOk(s.issued[g], |s.sessions|);
  }
}
