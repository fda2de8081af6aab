/**
 * The slot that holds the action being executed, filled by one thread and polled by
 * another. A poll takes the action under the lock, updates it without the lock, and
 * resolves under the lock again, so a new action may arrive in between.
 */
module ActionLifecycle {
  import opened Common
  import UndockAction

  type Id = nat

  /** The two guarded fields; actions and executions are numbered together. */
  datatype Slot = Slot(action: Option<Id>, execution: Option<Id>)

  /** An execution told its outcome, on the word of some action. */
  datatype Resolution = Resolution(execution: Id, judge: Id, verdict: UndockAction.Verdict)

  function Filled(id: Id): Slot { Slot(Some(id), Some(id)) }

  const EMPTY: Slot := Slot(None, None)

  /** What resolving tells the stored execution, if there is one. */
  function Told(slot: Slot, judge: Id, verdict: UndockAction.Verdict): seq<Resolution> {
    if slot.execution.Some? then [Resolution(slot.execution.value, judge, verdict)] else []
  }

  class ActionSlot {
    var currentAction: Option<Id>
    var currentExecution: Option<Id>

    ghost function View(): Slot
      reads this
    {
      Slot(currentAction, currentExecution)
    }

    constructor ()
      ensures View() == EMPTY
    {
      currentAction, currentExecution := None, None;
    }

    /** The storing part of executing an action. */
    method Store(id: Id)
      modifies this
      ensures View() == Filled(id)
    {
      currentExecution := Some(id);
      currentAction := Some(id);
    }

    method Snapshot() returns (action: Option<Id>)
      ensures action == View().action
    {
      action := currentAction;
    }

    /** The resolving part of a poll whose action gave a final verdict. */
    method Resolve(judge: Id, verdict: UndockAction.Verdict) returns (told: seq<Resolution>)
      modifies this
      ensures View() == EMPTY && told == Told(old(View()), judge, verdict)
    {
      told := [];
      if currentExecution.Some? {
        told := [Resolution(currentExecution.value, judge, verdict)];
        currentExecution := None;
      }
      currentAction := None;
    }
  }

  // ----- the slot, the poll and the actions as a transition system -----

  datatype Poll = Resting | Taken(id: Id) | Judged(id: Id, verdict: UndockAction.Verdict)

  /** actions lists every action ever stored, by number; started lists the actions that started a navigation. */
  datatype System = System(
    slot: Slot, poll: Poll, actions: seq<UndockAction.State>, told: seq<Resolution>, started: seq<Id>)

  const INITIAL: System := System(EMPTY, Resting, [], [], [])

  datatype Event =
    | Store(now: int)                              // a new action, created now, is stored
    | Take                                         // a poll takes the stored action
    | Update(surroundings: UndockAction.Surroundings)  // the poll updates the action it took
    | Resolve                                      // the poll resolves after a final verdict
    | NavigationDone(id: Id)                       // the navigation of an action calls back

  ghost predicate Enabled(s: System, e: Event) {
    match e
    case Store(_) => true
    case Take => s.poll.Resting?
    case Update(_) => s.poll.Taken? && s.poll.id < |s.actions|
    case Resolve => s.poll.Judged?
    case NavigationDone(id) => id in s.started && id < |s.actions|
  }

  ghost function Next(s: System, e: Event): System
    requires Enabled(s, e)
  {
    match e
    case Store(now) =>
      s.(slot := Filled(|s.actions|), actions := s.actions + [UndockAction.State(UndockAction.Planning, false, now)])
    case Take =>
      if s.slot.action.Some? then s.(poll := Taken(s.slot.action.value)) else s
    case Update(surroundings) =>
      var id := s.poll.id;
      var (action, verdict, starts) := UndockAction.Step(s.actions[id], surroundings);
      s.(actions := s.actions[id := action],
         poll := if verdict == UndockAction.InProgress then Resting else Judged(id, verdict),
         started := if starts then s.started + [id] else s.started)
    case Resolve =>
      s.(slot := EMPTY, poll := Resting, told := s.told + Told(s.slot, s.poll.id, s.poll.verdict))
    case NavigationDone(id) =>
      s.(actions := s.actions[id := s.actions[id].(navCompleted := true)])
  }

  ghost predicate IsRun(run: seq<Event>)
    decreases |run|, 0
  {
    run == [] || (IsRun(run[..|run| - 1]) && Enabled(After(run[..|run| - 1]), run[|run| - 1]))
  }

  ghost function After(run: seq<Event>): System
    requires IsRun(run)
    decreases |run|, 1
  {
    if run == [] then INITIAL else Next(After(run[..|run| - 1]), run[|run| - 1])
  }

  /** Some action was stored while another was there. */
  ghost predicate Overlaps(run: seq<Event>)
    requires IsRun(run)
  {
    run != [] &&
    (Overlaps(run[..|run| - 1]) ||
     (run[|run| - 1].Store? && After(run[..|run| - 1]).slot.action.Some?))
  }

  // ----- counting -----

  function Times(ids: seq<Id>, id: Id): nat {
    if ids == [] then 0 else Times(ids[..|ids| - 1], id) + if ids[|ids| - 1] == id then 1 else 0
  }

  function TimesTold(told: seq<Resolution>, id: Id): nat {
    if told == [] then 0
    else TimesTold(told[..|told| - 1], id) + if told[|told| - 1].execution == id then 1 else 0
  }

  lemma TimesGrows(ids: seq<Id>, x: Id, id: Id)
    ensures Times(ids + [x], id) == Times(ids, id) + if x == id then 1 else 0
  {
    assert (ids + [x])[..|ids|] == ids;
  }

  lemma TimesToldGrows(told: seq<Resolution>, x: Resolution, id: Id)
    ensures TimesTold(told + [x], id) == TimesTold(told, id) + if x.execution == id then 1 else 0
  {
    assert (told + [x])[..|told|] == told;
  }

  // ----- navigation starts at most once -----

  ghost predicate StartsOnce(s: System) {
    && (forall id | 0 <= id < |s.actions| ::
          Times(s.started, id) <= 1 && (s.actions[id].phase == UndockAction.Planning ==> Times(s.started, id) == 0))
    && (forall id | id >= |s.actions| :: Times(s.started, id) == 0)
  }

  lemma {:induction false} NavigationStartsOnce(run: seq<Event>)
    requires IsRun(run)
    ensures StartsOnce(After(run))
  {
    hide Next, StartsOnce;
    if run == [] {
      NothingStarted();
    } else {
      var s, e := After(run[..|run| - 1]), run[|run| - 1];
      NavigationStartsOnce(run[..|run| - 1]);
      if e.Update? {
        UpdateStartsOnce(s, e.surroundings);
      } else {
        OthersStartNone(s, e);
      }
    }
  }

  lemma NothingStarted()
    ensures StartsOnce(INITIAL)
  {
  }

  lemma UpdateStartsOnce(s: System, surroundings: UndockAction.Surroundings)
    requires StartsOnce(s) && Enabled(s, Update(surroundings))
    ensures StartsOnce(Next(s, Update(surroundings)))
  {
    hide UndockAction.CanPlan, UndockAction.TimedOut;
    forall id: Id ensures Times(s.started + [s.poll.id], id) == Times(s.started, id) + if s.poll.id == id then 1 else 0 {
      TimesGrows(s.started, s.poll.id, id);
    }
  }

  lemma OthersStartNone(s: System, e: Event)
    requires StartsOnce(s) && Enabled(s, e) && !e.Update?
    ensures StartsOnce(Next(s, e))
  {
    hide UndockAction.Step;
  }

  // ----- every execution is resolved once, by its own action -----

  ghost function FinalVerdict(a: UndockAction.State): UndockAction.Verdict {
    match a.phase
    case Completed => UndockAction.VerdictCompleted
    case Failed => UndockAction.VerdictFailed
    case _ => UndockAction.InProgress
  }

  /** The execution was told exactly once, and what it was told is the final verdict of its own action. */
  ghost predicate ResolvedByItself(s: System, id: Id)
    requires id < |s.actions|
  {
    && TimesTold(s.told, id) == 1
    && FinalVerdict(s.actions[id]) != UndockAction.InProgress
    && Resolution(id, id, FinalVerdict(s.actions[id])) in s.told
  }

  /** Every execution ever stored is still in the slot, untold, or was resolved by its own action. */
  ghost predicate Accounted(s: System) {
    forall id | 0 <= id < |s.actions| ::
      if s.slot.execution == Some(id) then TimesTold(s.told, id) == 0 else ResolvedByItself(s, id)
  }

  ghost predicate Tidy(s: System) {
    && s.slot.action == s.slot.execution
    && (s.slot.action.Some? ==> s.slot.action.value < |s.actions|)
    && (s.poll.Taken? || s.poll.Judged? ==> s.poll.id < |s.actions|)
    && (s.poll.Judged? ==> s.poll.verdict == FinalVerdict(s.actions[s.poll.id]) != UndockAction.InProgress)
    && (forall r | r in s.told :: r.execution < |s.actions|)
    && (forall id | id >= |s.actions| :: TimesTold(s.told, id) == 0)
  }

  lemma {:induction false} RunsAreTidy(run: seq<Event>)
    requires IsRun(run)
    ensures Tidy(After(run))
  {
    if run != [] {
      var s, e := After(run[..|run| - 1]), run[|run| - 1];
      RunsAreTidy(run[..|run| - 1]);
      TidyStep(s, e);
    }
  }

  lemma TidyStep(s: System, e: Event)
    requires Tidy(s) && Enabled(s, e)
    ensures Tidy(Next(s, e))
  {
    if e.Resolve? && s.slot.execution.None? {
      assert s.told + [] == s.told;
    } else if e.Resolve? {
      var r := Resolution(s.slot.execution.value, s.poll.id, s.poll.verdict);
      forall id: Id ensures TimesTold(s.told + [r], id) == TimesTold(s.told, id) + if r.execution == id then 1 else 0 {
        TimesToldGrows(s.told, r, id);
      }
    }
  }

  /** What a run without overlap keeps: the poll always works on the stored action. */
  ghost predicate Orderly(s: System) {
    && Accounted(s)
    && (s.poll.Taken? || s.poll.Judged? ==> s.slot.action == Some(s.poll.id))
  }

  lemma {:induction false} OrderlyWithoutOverlap(run: seq<Event>)
    requires IsRun(run) && !Overlaps(run)
    ensures Orderly(After(run))
  {
    if run != [] {
      var s, e := After(run[..|run| - 1]), run[|run| - 1];
      OrderlyWithoutOverlap(run[..|run| - 1]);
      RunsAreTidy(run[..|run| - 1]);
      OrderlyStep(s, e);
    }
  }

  lemma OrderlyStep(s: System, e: Event)
    requires Tidy(s) && Orderly(s) && Enabled(s, e)
    requires e.Store? ==> s.slot.action.None?
    ensures Orderly(Next(s, e))
  {
    var s' := Next(s, e);
    if e.Resolve? {
      var r := Resolution(s.slot.execution.value, s.poll.id, s.poll.verdict);
      assert s'.told == s.told + [r];
      forall id | 0 <= id < |s.actions| ensures ResolvedByItself(s', id) {
        TimesToldGrows(s.told, r, id);
        assert r in s'.told;
      }
    }
  }

  /** Once an execution has been pushed out of the slot untold, it is never told. */
  ghost predicate Lost(s: System, id: Id) {
    id < |s.actions| && s.slot.execution != Some(id) && TimesTold(s.told, id) == 0
  }

  lemma LostStays(s: System, e: Event, id: Id)
    requires Tidy(s) && Enabled(s, e) && Lost(s, id)
    ensures Lost(Next(s, e), id)
  {
    if e.Resolve? && s.slot.execution.None? {
      assert s.told + [] == s.told;
    } else if e.Resolve? {
      TimesToldGrows(s.told, Resolution(s.slot.execution.value, s.poll.id, s.poll.verdict), id);
    }
  }

  lemma {:induction false} OverlapLoses(run: seq<Event>) returns (id: Id)
    requires IsRun(run) && Overlaps(run)
    ensures Lost(After(run), id)
  {
    var before := run[..|run| - 1];
    var s, e := After(before), run[|run| - 1];
    RunsAreTidy(before);
    if Overlaps(before) {
      id := OverlapLoses(before);
      LostStays(s, e, id);
    } else {
      OrderlyWithoutOverlap(before);
      id := s.slot.action.value;
    }
  }

  /**
   * Every execution is resolved exactly once, by the final verdict of its own action, or
   * is still stored, exactly when no action was ever stored while another was there.
   */
  lemma AccountedIff(run: seq<Event>)
    requires IsRun(run)
    ensures Accounted(After(run)) <==> !Overlaps(run)
  {
    if Overlaps(run) {
      var id := OverlapLoses(run);
    } else {
      OrderlyWithoutOverlap(run);
    }
  }

  /** Without overlap, a poll at or after 61 seconds resolves the stored execution. */
  lemma ResolvedAfter61(run: seq<Event>, surroundings: UndockAction.Surroundings)
    requires IsRun(run) && !Overlaps(run) && After(run).poll.Resting? && After(run).slot.action.Some?
    requires var id := After(run).slot.action.value;
      id < |After(run).actions| ==> surroundings.now - After(run).actions[id].created >= 61 * UndockAction.SECOND
    ensures var id := After(run).slot.action.value;
      var s1 := Next(After(run), Take);
      id < |After(run).actions| && Enabled(s1, Update(surroundings)) &&
      var s2 := Next(s1, Update(surroundings));
      Enabled(s2, Resolve) && ResolvedByItself(Next(s2, Resolve), id) && Next(s2, Resolve).slot == EMPTY
  {
    var s := After(run);
    RunsAreTidy(run);
    OrderlyWithoutOverlap(run);
    var s1 := Next(s, Take);
    var s2 := Next(s1, Update(surroundings));
    UndockAction.FinalAfter61(s.actions[s.slot.action.value], surroundings);
    OrderlyStep(s, Take);
    assert Tidy(s1);
    OrderlyStep(s1, Update(surroundings));
    assert Tidy(s2);
    OrderlyStep(s2, Resolve);
  }

  /** A completed verdict means the action started a navigation and that navigation called back. */
  ghost predicate Honest(s: System) {
    forall id | 0 <= id < |s.actions| ::
      && (s.actions[id].navCompleted ==> id in s.started)
      && (s.actions[id].phase == UndockAction.Completed ==> s.actions[id].navCompleted)
  }

  lemma {:induction false} CompletionIsHonest(run: seq<Event>)
    requires IsRun(run)
    ensures Honest(After(run))
  {
    if run != [] {
      CompletionIsHonest(run[..|run| - 1]);
    }
  }

  // ----- the verdict of a poll, from what happened before it -----

  /** The times at which actions were stored, in order. */
  function StoreTimes(run: seq<Event>): seq<int> {
    if run == [] then []
    else
      var last := run[|run| - 1];
      StoreTimes(run[..|run| - 1]) + if last.Store? then [last.now] else []
  }

  /** The navigation of the action calls back in this event, or while this event starts it. */
  ghost predicate CallsBack(s: System, e: Event, id: Id)
    requires Enabled(s, e)
  {
    || e == NavigationDone(id)
    || (e.Update? && e.surroundings.completesAtOnce && s.poll == Taken(id) && Next(s, e).started != s.started)
  }

  ghost predicate CalledBack(run: seq<Event>, id: Id)
    requires IsRun(run)
  {
    run != [] &&
    (CalledBack(run[..|run| - 1], id) || CallsBack(After(run[..|run| - 1]), run[|run| - 1], id))
  }

  /** What a poll of the action in these surroundings must find. */
  ghost function Due(run: seq<Event>, id: Id, e: UndockAction.Surroundings): UndockAction.Verdict
    requires IsRun(run) && id < |StoreTimes(run)|
  {
    var inTime := e.now - StoreTimes(run)[id] < 61_000_000_000;
    if id in After(run).started then
      if CalledBack(run, id) then UndockAction.VerdictCompleted
      else if inTime then UndockAction.InProgress
      else UndockAction.VerdictFailed
    else if inTime && UndockAction.CanUndock(e) then UndockAction.InProgress
    else UndockAction.VerdictFailed
  }

  predicate Unfinished(a: UndockAction.State) {
    a.phase == UndockAction.Planning || a.phase == UndockAction.Navigating
  }

  /** What the system remembers of an action stored then, whose navigation has called back or not. */
  ghost predicate Remembers(s: System, id: Id, stored: int, called: bool)
    requires id < |s.actions|
  {
    var a := s.actions[id];
    && a.created == stored
    && (a.navCompleted <==> called)
    && (a.phase == UndockAction.Planning ==> id !in s.started)
    && (a.phase == UndockAction.Navigating ==> id in s.started)
    && (s.poll == Taken(id) ==> Unfinished(a))
    && (s.slot.action == Some(id) && !(s.poll.Judged? && s.poll.id == id) ==> Unfinished(a))
  }

  /** The slot and the poll name actions that were stored, and only those have started navigations. */
  ghost predicate Numbered(s: System) {
    && (s.slot.action.Some? ==> s.slot.action.value < |s.actions|)
    && (!s.poll.Resting? ==> s.poll.id < |s.actions|)
    && (forall id | id in s.started :: id < |s.actions|)
  }

  lemma StepRemembers(s: System, e: Event, id: Id, stored: int, called: bool)
    requires Numbered(s) && Enabled(s, e) && id < |s.actions| && Remembers(s, id, stored, called)
    ensures Remembers(Next(s, e), id, stored, called || CallsBack(s, e, id))
  {
    hide UndockAction.CanPlan, UndockAction.TimedOut;
  }

  lemma StepNumbers(s: System, e: Event)
    requires Numbered(s) && Enabled(s, e)
    ensures Numbered(Next(s, e)) && |s.actions| <= |Next(s, e).actions| <= |s.actions| + 1
    ensures e.Store? <==> |Next(s, e).actions| == |s.actions| + 1
    ensures e.Store? ==> Remembers(Next(s, e), |s.actions|, e.now, false)
    ensures forall id: Id :: CallsBack(s, e, id) ==> id < |s.actions|
  {
    hide UndockAction.Step;
  }

  lemma NothingIsNumbered()
    ensures Numbered(INITIAL)
  {
  }

  lemma {:induction false} RunIsRemembered(run: seq<Event>)
    requires IsRun(run)
    ensures Numbered(After(run)) && |After(run).actions| == |StoreTimes(run)|
    ensures forall id: Id :: CalledBack(run, id) ==> id < |After(run).actions|
    ensures forall id | 0 <= id < |After(run).actions| ::
      Remembers(After(run), id, StoreTimes(run)[id], CalledBack(run, id))
  {
    hide Numbered, Remembers, CallsBack, Next, Enabled;
    if run == [] {
      NothingIsNumbered();
    } else {
      var before, e := run[..|run| - 1], run[|run| - 1];
      var s := After(before);
      RunIsRemembered(before);
      StepNumbers(s, e);
      forall id | 0 <= id < |After(run).actions|
        ensures Remembers(After(run), id, StoreTimes(run)[id], CalledBack(run, id))
      {
        if id < |s.actions| {
          StepRemembers(s, e, id, StoreTimes(before)[id], CalledBack(before, id));
        }
      }
    }
  }

  /**
   * A poll that updates an action gives the verdict that is due: completed if and only if
   * its navigation was started and called back, at 61 seconds and later too; failed if it
   * has not by then, or if no navigation can be started; and in progress otherwise, with
   * navigation started at the first poll.
   */
  lemma PollDecides(run: seq<Event>, e: UndockAction.Surroundings)
    requires IsRun(run) && After(run).poll.Taken?
    ensures var s := After(run);
      Enabled(s, Update(e)) && s.poll.id < |StoreTimes(run)| &&
      var (id, due, s') := (s.poll.id, Due(run, s.poll.id, e), Next(s, Update(e)));
      && s'.poll == (if due == UndockAction.InProgress then Resting else Judged(id, due))
      && s'.started == (if due == UndockAction.InProgress && id !in s.started then s.started + [id] else s.started)
      && s'.slot == s.slot && s'.told == s.told
  {
    RunIsRemembered(run);
    var s := After(run);
    assert Remembers(s, s.poll.id, StoreTimes(run)[s.poll.id], CalledBack(run, s.poll.id));
    UndockAction.CanPlanIff(e);
    UndockAction.TimeoutIsAt61(s.actions[s.poll.id], e.now);
  }

  /** Taking the stored action changes nothing that a poll looks at. */
  lemma TakeChangesNothing(run: seq<Event>, id: Id)
    requires IsRun(run) && After(run).poll.Resting?
    ensures var taken := run + [Take];
      && IsRun(taken) && After(taken) == Next(After(run), Take)
      && StoreTimes(taken) == StoreTimes(run) && (CalledBack(taken, id) <==> CalledBack(run, id))
  {
    var taken := run + [Take];
    assert taken[..|taken| - 1] == run;
  }

  lemma RunExtends(run: seq<Event>, e: Event)
    requires IsRun(run) && Enabled(After(run), e)
    ensures IsRun(run + [e]) && After(run + [e]) == Next(After(run), e)
  {
    hide Enabled, Next;
    assert (run + [e])[..|run|] == run;
  }

  /** Without overlap, a whole poll tells the execution of the stored action the verdict that is due, if it is final. */
  lemma PollTells(run: seq<Event>, e: UndockAction.Surroundings)
    requires IsRun(run) && !Overlaps(run) && After(run).poll.Resting? && After(run).slot.action.Some?
    ensures var (s, id) := (After(run), After(run).slot.action.value);
      id < |StoreTimes(run)| && IsRun(run + [Take]) && IsRun(run + [Take] + [Update(e)]) &&
      var (due, s2) := (Due(run, id, e), After(run + [Take] + [Update(e)]));
      if due == UndockAction.InProgress then
        s2.poll.Resting? && s2.slot == s.slot && s2.told == s.told && id in s2.started
      else
        Enabled(s2, Resolve) &&
        Next(s2, Resolve).slot == EMPTY && Next(s2, Resolve).told == s.told + [Resolution(id, id, due)]
  {
    RunIsRemembered(run);
    RunsAreTidy(run);
    OrderlyWithoutOverlap(run);
    hide CallsBack, Orderly, Remembers, IsRun, After, Overlaps, CalledBack, StoreTimes;
    var id := After(run).slot.action.value;
    TakeChangesNothing(run, id);
    PollDecides(run + [Take], e);
    RunExtends(run + [Take], Update(e));
  }
}
