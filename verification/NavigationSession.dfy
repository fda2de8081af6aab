/**
 * The state one path request shares between the RMF executor and the Zenoh threads, and
 * the critical sections that change it. Each is given twice: as a function on the value
 * of a session, and as a method on the mutable session proved to compute that function.
 */
module NavigationSession {
  import opened Common

  type SessionId = nat
  type Goal = nat

  /** Who is told that a goal completed: a path request, or a dock or action. */
  datatype Owner = PathRequest(session: SessionId) | Errand(id: nat)

  /** A callback taken out of a session: a completion, or the failure callback of a session. */
  datatype Callback = Complete(owner: Owner) | Fail(session: SessionId)

  /** A feedback message. The session buffers its index and estimate; the goal is kept as its provenance. */
  datatype Feedback = Feedback(goal: Goal, index: nat, eta: real, reason: nat)

  datatype Code = Unknown | Accepted | Executing | Succeeded | Canceled | Aborted

  datatype Status = Status(goal: Goal, code: Code)

  /**
   * estimator is the session whose buffer the stored arrival estimator fills, and
   * rmfEstimator the request whose RMF estimator is stored; None is a null callback.
   */
  datatype Session = Session(
    goal: Option<Goal>, done: bool, reason: nat,
    completion: Option<Owner>, failure: Option<SessionId>,
    estimator: Option<SessionId>, rmfEstimator: Option<SessionId>,
    pending: Option<Feedback>, target: nat)

  const FRESH: Session := Session(None, false, 0, None, None, None, None, None, 0)

  /** The session has a goal that was neither resolved nor rejected. */
  predicate Live(x: Session) {
    x.goal.Some? && !x.done
  }

  predicate Terminal(code: Code) {
    code.Succeeded? || code.Canceled? || code.Aborted?
  }

  function Invalidated(x: Session): Session {
    Session(None, true, 0, None, None, None, None, None, x.target)
  }

  function Cancelled(x: Session): Session {
    if x.goal.None? then x else Invalidated(x)
  }

  function Armed(x: Session, goal: Goal, completion: Option<Owner>, estimator: Option<SessionId>): Session {
    x.(goal := Some(goal), done := false, completion := completion, estimator := estimator)
  }

  function Completion(x: Session): Option<Callback> {
    if x.completion.Some? then Some(Complete(x.completion.value)) else None
  }

  function Failure(x: Session): Option<Callback> {
    if x.failure.Some? then Some(Fail(x.failure.value)) else None
  }

  /** The first status about the goal decides; any later one in the message is not looked at. */
  function FirstAbout(statuses: seq<Status>, goal: Goal): (code: Option<Code>)
    ensures code.None? <==> forall i | 0 <= i < |statuses| :: statuses[i].goal != goal
    ensures code.Some? ==> exists i | 0 <= i < |statuses| ::
        statuses[i] == Status(goal, code.value) && forall j | 0 <= j < i :: statuses[j].goal != goal
  {
    if statuses == [] then None
    else if statuses[0].goal == goal then
      assert statuses[0] == Status(goal, statuses[0].code);
      Some(statuses[0].code)
    else
      var code := FirstAbout(statuses[1..], goal);
      assert code.Some? ==> exists i | 1 <= i < |statuses| ::
          statuses[i] == Status(goal, code.value) && forall j | 0 <= j < i :: statuses[j].goal != goal by {
        if code.Some? {
          var i :| 0 <= i < |statuses| - 1 && statuses[1..][i] == Status(goal, code.value)
            && forall j | 0 <= j < i :: statuses[1..][j].goal != goal;
          assert statuses[i + 1] == Status(goal, code.value);
          forall j | 0 <= j < i + 1 ensures statuses[j].goal != goal {
            assert j > 0 ==> statuses[1..][j - 1].goal != goal;
          }
        }
      }
      assert code.None? ==> forall i | 0 <= i < |statuses| :: statuses[i].goal != goal by {
        forall i | code.None? && 0 <= i < |statuses| ensures statuses[i].goal != goal {
          assert i > 0 ==> statuses[1..][i - 1].goal != goal;
        }
      }
      code
  }

  /** The code that decides the goal of the session, if the message holds one. */
  function Verdict(x: Session, statuses: seq<Status>): Option<Code> {
    if x.goal.None? then None
    else
      var code := FirstAbout(statuses, x.goal.value);
      if code.Some? && Terminal(code.value) then code else None
  }

  /** The callback a status message takes out of the session. */
  function Taken(x: Session, statuses: seq<Status>): Option<Callback> {
    var verdict := Verdict(x, statuses);
    if verdict.None? then None
    else if verdict.value.Succeeded? then Completion(x) else Failure(x)
  }

  /** The first status about the goal has this code. */
  ghost predicate FirstSays(statuses: seq<Status>, goal: Goal, code: Code) {
    exists i | 0 <= i < |statuses| :: statuses[i] == Status(goal, code) && forall j | 0 <= j < i :: statuses[j].goal != goal
  }

  lemma FirstIsUnique(statuses: seq<Status>, goal: Goal, c: Code, d: Code)
    requires FirstSays(statuses, goal, c) && FirstSays(statuses, goal, d)
    ensures c == d
  {
  }

  /**
   * A message takes the completion out of a session if the first status about its goal is
   * a success, the failure callback if it is an abort or a cancellation, and nothing otherwise.
   */
  lemma TakenIff(x: Session, statuses: seq<Status>, goal: Goal)
    requires x.goal == Some(goal)
    ensures var (won, lost) := (FirstSays(statuses, goal, Succeeded),
                                FirstSays(statuses, goal, Aborted) || FirstSays(statuses, goal, Canceled));
      && (Verdict(x, statuses).Some? <==> won || lost)
      && (won ==> Taken(x, statuses) == if x.completion.Some? then Some(Complete(x.completion.value)) else None)
      && (lost ==> Taken(x, statuses) == if x.failure.Some? then Some(Fail(x.failure.value)) else None)
  {
    var code := FirstAbout(statuses, goal);
    if code.Some? {
      assert FirstSays(statuses, goal, code.value);
      forall c | FirstSays(statuses, goal, c) ensures c == code.value {
        FirstIsUnique(statuses, goal, c, code.value);
      }
    }
  }

  class SharedSession {
    var goal: Option<Goal>
    var done: bool
    var reason: nat
    var completion: Option<Owner>
    var failure: Option<SessionId>
    var estimator: Option<SessionId>
    var rmfEstimator: Option<SessionId>
    var pending: Option<Feedback>
    var target: nat

    ghost function View(): Session
      reads this
    {
      Session(goal, done, reason, completion, failure, estimator, rmfEstimator, pending, target)
    }

    constructor ()
      ensures View() == FRESH
    {
      goal, done, reason, completion, failure := None, false, 0, None, None;
      estimator, rmfEstimator, pending, target := None, None, None, 0;
    }

    method Invalidate()
      modifies this
      ensures View() == Invalidated(old(View()))
      ensures done && reason == 0 && goal == None && completion == None && failure == None
      ensures estimator == None && rmfEstimator == None && pending == None && target == old(target)
    {
      done := true;
      reason := 0;
      goal := None;
      completion := None;
      failure := None;
      estimator := None;
      rmfEstimator := None;
      pending := None;
    }

    method Cancel()
      modifies this
      ensures View() == Cancelled(old(View()))
    {
      if goal.None? {
        return;
      }
      Invalidate();
    }

    method Arm(id: Goal, onCompletion: Option<Owner>, onArrival: Option<SessionId>)
      modifies this
      ensures View() == Armed(old(View()), id, onCompletion, onArrival)
    {
      completion := onCompletion;
      estimator := onArrival;
      goal := Some(id);
      done := false;
    }

    /** The send was rejected: the completion is copied, and stays in the session. */
    method Reject() returns (callback: Option<Callback>)
      modifies this
      ensures View() == old(View()).(done := true) && callback == Completion(old(View()))
    {
      done := true;
      callback := if completion.Some? then Some(Complete(completion.value)) else None;
    }

    /** A status message is looked through for the goal of the session. */
    method Decide(statuses: seq<Status>) returns (callback: Option<Callback>)
      modifies this
      ensures callback == Taken(old(View()), statuses)
      ensures View() == if Verdict(old(View()), statuses).Some? then Invalidated(old(View())) else old(View())
    {
      callback := None;
      if goal.None? {
        return;
      }
      ghost var about := FirstAbout(statuses, goal.value);
      for i := 0 to |statuses|
        invariant View() == old(View()) && callback == None
        invariant about == FirstAbout(statuses[i..], goal.value)
      {
        assert statuses[i..][1..] == statuses[i + 1..];
        if statuses[i].goal != goal.value {
          continue;
        }
        match statuses[i].code {
          case Succeeded =>
            callback := if completion.Some? then Some(Complete(completion.value)) else None;
            Invalidate();
          case Aborted =>
            callback := if failure.Some? then Some(Fail(failure.value)) else None;
            Invalidate();
          case Canceled =>
            callback := if failure.Some? then Some(Fail(failure.value)) else None;
            Invalidate();
          case Executing =>
          case Accepted =>
          case Unknown =>
        }
        return;
      }
    }

    method Buffer(feedback: Feedback)
      modifies this`pending
      ensures View() == old(View()).(pending := Some(feedback))
    {
      pending := Some(feedback);
    }

    /** The drain takes the buffered feedback only together with an RMF estimator. */
    method Drain() returns (taken: Option<(SessionId, Feedback)>)
      modifies this`pending
      ensures taken == Drained(old(View()))
      ensures View() == if taken.Some? then old(View()).(pending := None) else old(View())
    {
      if pending.None? || rmfEstimator.None? {
        return None;
      }
      taken := Some((rmfEstimator.value, pending.value));
      pending := None;
    }
  }

  function Drained(x: Session): Option<(SessionId, Feedback)> {
    if x.pending.Some? && x.rmfEstimator.Some? then Some((x.rmfEstimator.value, x.pending.value)) else None
  }
}
