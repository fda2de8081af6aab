/** Runs built one step at a time. */
module Schedules {
  import opened Common
  import opened NavigationSession
  import opened NavigationProtocol
  import C = CurrentPath

  lemma {:induction false} Append(assumed: Assumptions, s: State, run: seq<Step>, more: seq<Step>)
    requires IsRun(assumed, s, run) && IsRun(assumed, Final(assumed, s, run), more)
    ensures IsRun(assumed, s, run + more)
    ensures Final(assumed, s, run + more) == Final(assumed, Final(assumed, s, run), more)
    decreases |run|
  {
    hide Next, InOneStep, HonestRobot;
    if run == [] {
      assert run + more == more;
    } else {
      Append(assumed, Next(s, run[0]), run[1..], more);
      assert (run + more)[1..] == run[1..] + more;
    }
  }

  lemma Extend(assumed: Assumptions, s: State, run: seq<Step>, e: Step)
    requires IsRun(assumed, s, run) && Allowed(assumed, Final(assumed, s, run), e)
    ensures IsRun(assumed, s, run + [e])
    ensures Final(assumed, s, run + [e]) == Next(Final(assumed, s, run), e)
  {
    hide Next, Allowed;
    assert [e][1..] == [];
    Append(assumed, s, run, [e]);
  }

  /** No callback under way in a Zenoh thread has to go first. */
  ghost predicate Free(assumed: Assumptions, s: State) {
    assumed.atomicCallbacks ==> C.Quiet(s.tasks)
  }

  lemma ExecutorMay(assumed: Assumptions, s: State, e: Step)
    requires Free(assumed, s) && Enabled(s, e) && (s.pc.Swapped? ==> e.Continue?)
    requires assumed.acceptedOnly ==> HonestRobot(s, e)
    ensures Allowed(assumed, s, e)
  {
  }

  lemma Then(assumed: Assumptions, s: State, run: seq<Step>, e: Step, s': State)
    requires IsRun(assumed, s, run) && Free(assumed, Final(assumed, s, run)) && Enabled(Final(assumed, s, run), e)
    requires (Final(assumed, s, run).pc.Swapped? ==> e.Continue?)
    requires assumed.acceptedOnly ==> HonestRobot(Final(assumed, s, run), e)
    requires s' == Next(Final(assumed, s, run), e)
    ensures IsRun(assumed, s, run + [e]) && Final(assumed, s, run + [e]) == s'
  {
    hide Next, Allowed, Free;
    ExecutorMay(assumed, Final(assumed, s, run), e);
    Extend(assumed, s, run, e);
  }

  lemma EmptyRun(assumed: Assumptions, s: State)
    ensures IsRun(assumed, s, []) && Final(assumed, s, []) == s
  {
  }

  /** The step may be taken, and leads there. */
  ghost predicate Leads(assumed: Assumptions, s: State, e: Step, s': State) {
    Allowed(assumed, s, e) && s' == Next(s, e)
  }

  lemma {:induction false} Path(assumed: Assumptions, states: seq<State>, run: seq<Step>)
    requires |states| == |run| + 1 && forall k | 0 <= k < |run| :: Leads(assumed, states[k], run[k], states[k + 1])
    ensures IsRun(assumed, states[0], run) && Final(assumed, states[0], run) == states[|run|]
    decreases |run|
  {
    hide Next, Allowed;
    if run != [] {
      assert Leads(assumed, states[0], run[0], states[1]);
      Path(assumed, states[1..], run[1..]);
    }
  }

  /** The executor goes on. */
  lemma Continues(assumed: Assumptions, s: State, s': State)
    requires Free(assumed, s) && !s.pc.Idle? && !s.pc.Arming? && s' == ExecutorNext(s)
    ensures Leads(assumed, s, Continue, s')
  {
    hide ExecutorNext;
  }

  /** RMF calls, outside any other call. */
  lemma Calls(assumed: Assumptions, s: State, e: Step, s': State)
    requires Free(assumed, s) && s.pc.Idle? && Enabled(s, e) && s' == Next(s, e)
    requires !e.StatusArrives? && !e.ArmGoal?
    ensures Leads(assumed, s, e, s')
  {
    hide Next, ExecutorNext, TaskNext;
  }

  lemma Arms(assumed: Assumptions, s: State, g: Goal, accepted: bool, s': State)
    requires Free(assumed, s) && s.pc.Arming? && g !in s.issued && s' == Arm(s, g, accepted)
    requires assumed.acceptedOnly && !accepted ==> Unannounced(s.tasks, g)
    ensures Leads(assumed, s, ArmGoal(g, accepted), s')
  {
    hide Arm, Unannounced;
  }

  /** A Zenoh callback goes on. */
  lemma Advances(assumed: Assumptions, s: State, t: nat, s': State)
    requires Free(assumed, s) && t in s.tasks && !s.tasks[t].CallingBack? && !s.pc.Swapped? && s' == TaskNext(s, t)
    ensures Leads(assumed, s, Advance(t), s')
  {
    hide TaskNext;
  }

  /** A feedback message comes in. */
  lemma Arrives(assumed: Assumptions, s: State, t: nat, f: Feedback, s': State)
    requires Free(assumed, s) && t !in s.tasks && !s.pc.Swapped?
    requires s' == s.(tasks := s.tasks[t := GotFeedback(f)], log := s.log + [Heard(f)])
    ensures Leads(assumed, s, FeedbackArrives(t, f), s')
  {
  }

  /** Callbacks that handle feedback do not have to go first. */
  lemma FreeWith(assumed: Assumptions, s: State, s': State, t: nat, task: Task)
    requires Free(assumed, s) && s'.tasks == s.tasks[t := task] && !task.CallingBack?
    ensures Free(assumed, s')
  {
  }

  lemma SameFree(assumed: Assumptions, s: State, s': State)
    requires Free(assumed, s) && s'.tasks == s.tasks
    ensures Free(assumed, s')
  {
  }
}
