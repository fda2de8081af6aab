/**
 * Recovery from a goal-on-obstacle deadlock: after eight seconds of blockage the robot is
 * interrupted and declared holding for ten seconds, then resumed, then left alone for fifteen.
 */
module DeadlockRecovery {
  import opened Common

  /** Times and durations in nanoseconds. */
  const SECOND: int := 1_000_000_000
  const BLOCKED_FOR: int := 8 * SECOND
  const HOLD_FOR: int := 10 * SECOND
  const COOLDOWN: int := 15 * SECOND
  const PERIOD: int := BLOCKED_FOR + HOLD_FOR + COOLDOWN

  datatype NavFailure = NoFailure | LocalPlanning | GoalOnObstacle

  /** What a tick sees of the current session, if there is one. */
  datatype SessionView = SessionView(done: bool, failure: NavFailure)

  datatype Tick = Tick(now: int, session: Option<SessionView>)

  predicate Blocked(t: Tick) {
    t.session.Some? && !t.session.value.done && t.session.value.failure != NoFailure
  }

  datatype Signal = Quiet | Interrupted | Resumed

  /** The fields of the recovery, as a value. */
  datatype State = State(
    holding: bool, interruption: bool,
    blockedSince: Option<int>, holdUntil: Option<int>, cooldownUntil: Option<int>)

  const IDLE: State := State(false, false, None, None, None)

  /** One tick: the new state, and what was sent to the fleet. */
  function Step(s: State, t: Tick): (State, Signal) {
    if s.holding then
      if s.holdUntil.Some? && t.now >= s.holdUntil.value then
        (State(false, false, None, None, Some(t.now + COOLDOWN)), if s.interruption then Resumed else Quiet)
      else (s, Quiet)
    else if !Blocked(t) then
      (s.(blockedSince := None), Quiet)
    else if s.cooldownUntil.Some? && t.now < s.cooldownUntil.value then
      (s, Quiet)
    else if s.blockedSince.None? then
      (s.(blockedSince := Some(t.now)), Quiet)
    else if t.now - s.blockedSince.value < BLOCKED_FOR then
      (s, Quiet)
    else
      (s.(holding := true, interruption := true, holdUntil := Some(t.now + HOLD_FOR)), Interrupted)
  }

  /** The recovery part of the robot state. */
  class Recovery {
    var deadlockInterruption: bool
    var blockedSince: Option<int>
    var holdUntil: Option<int>
    var cooldownUntil: Option<int>
    var holding: bool

    ghost function View(): State
      reads this
    {
      State(holding, deadlockInterruption, blockedSince, holdUntil, cooldownUntil)
    }

    constructor ()
      ensures View() == IDLE
    {
      deadlockInterruption := false;
      blockedSince, holdUntil, cooldownUntil := None, None, None;
      holding := false;
    }

    method CheckDeadlockRecovery(now: int, session: Option<SessionView>) returns (signal: Signal)
      modifies this
      ensures (View(), signal) == Step(old(View()), Tick(now, session))
    {
      signal := Quiet;
      if holding {
        if holdUntil.Some? && now >= holdUntil.value {
          if deadlockInterruption {
            signal := Resumed;
          }
          deadlockInterruption := false;
          holding := false;
          holdUntil := None;
          blockedSince := None;
          cooldownUntil := Some(now + COOLDOWN);
        }
        return;
      }
      var blocked := session.Some? && !session.value.done && session.value.failure != NoFailure;
      if !blocked {
        blockedSince := None;
        return;
      }
      if cooldownUntil.Some? && now < cooldownUntil.value {
        return;
      }
      if blockedSince.None? {
        blockedSince := Some(now);
        return;
      }
      if now - blockedSince.value < BLOCKED_FOR {
        return;
      }
      signal := Interrupted;
      deadlockInterruption := true;
      holding := true;
      holdUntil := Some(now + HOLD_FOR);
    }
  }

  // ----- runs -----

  ghost function After(ticks: seq<Tick>, n: nat): State
    requires n <= |ticks|
  {
    if n == 0 then IDLE else Step(After(ticks, n - 1), ticks[n - 1]).0
  }

  /** What tick i sends. */
  ghost function SignalAt(ticks: seq<Tick>, i: nat): Signal
    requires i < |ticks|
  {
    Step(After(ticks, i), ticks[i]).1
  }

  /** The signals sent by the first n ticks, in order. */
  ghost function Signals(ticks: seq<Tick>, n: nat): seq<Signal>
    requires n <= |ticks|
  {
    if n == 0 then []
    else if SignalAt(ticks, n - 1) == Quiet then Signals(ticks, n - 1)
    else Signals(ticks, n - 1) + [SignalAt(ticks, n - 1)]
  }

  /** The times of the interrupts sent by the first n ticks, in order. */
  ghost function InterruptTimes(ticks: seq<Tick>, n: nat): seq<int>
    requires n <= |ticks|
  {
    if n == 0 then []
    else if SignalAt(ticks, n - 1) == Interrupted then InterruptTimes(ticks, n - 1) + [ticks[n - 1].now]
    else InterruptTimes(ticks, n - 1)
  }

  /** Interrupts and resumes strictly alternate, and holding, the stored interruption and the deadline come and go together. */
  lemma {:induction false} Alternation(ticks: seq<Tick>, n: nat)
    requires n <= |ticks|
    ensures var s := After(ticks, n); s.holding == s.interruption == s.holdUntil.Some?
    ensures After(ticks, n).holding <==> |Signals(ticks, n)| % 2 == 1
    ensures forall i | 0 <= i < |Signals(ticks, n)| ::
      Signals(ticks, n)[i] == if i % 2 == 0 then Interrupted else Resumed
  {
    if n > 0 {
      Alternation(ticks, n - 1);
    }
  }

  /** What the state remembers of the last interrupt. */
  ghost predicate Spaced(s: State, times: seq<int>) {
    if times == [] then !s.holding && s.cooldownUntil.None?
    else
      var last := times[|times| - 1];
      if s.holding then s.holdUntil == Some(last + HOLD_FOR)
      else
        && s.cooldownUntil.Some? && s.cooldownUntil.value >= last + HOLD_FOR + COOLDOWN
        && (s.blockedSince.Some? ==> s.blockedSince.value >= s.cooldownUntil.value)
  }

  /** Consecutive interrupts are at least 33 seconds apart, whatever the clock does. */
  lemma {:induction false} InterruptsAreSpaced(ticks: seq<Tick>, n: nat)
    requires n <= |ticks|
    ensures Spaced(After(ticks, n), InterruptTimes(ticks, n))
    ensures forall i | 0 < i < |InterruptTimes(ticks, n)| ::
      InterruptTimes(ticks, n)[i] >= InterruptTimes(ticks, n)[i - 1] + PERIOD
  {
    if n > 0 {
      InterruptsAreSpaced(ticks, n - 1);
    }
  }

  lemma {:induction false} SpacedSpan(times: seq<int>)
    requires times != [] && forall i | 0 < i < |times| :: times[i] >= times[i - 1] + PERIOD
    ensures times[|times| - 1] - times[0] >= PERIOD * (|times| - 1)
  {
    if |times| > 1 {
      var shorter := times[..|times| - 1];
      SpacedSpan(shorter);
      assert times[|times| - 1] >= times[|times| - 2] + PERIOD && shorter[|shorter| - 1] == times[|times| - 2];
    }
  }

  /** k interrupts span at least 33 (k - 1) seconds. */
  lemma InterruptRate(ticks: seq<Tick>)
    ensures var times := InterruptTimes(ticks, |ticks|);
      times != [] ==> times[|times| - 1] - times[0] >= 33 * SECOND * (|times| - 1)
  {
    InterruptsAreSpaced(ticks, |ticks|);
    var times := InterruptTimes(ticks, |ticks|);
    if times != [] {
      SpacedSpan(times);
    }
  }

  /** The tick sees a session that is not done, with either failure. */
  predicate SeesFailure(t: Tick) {
    || t.session == Some(SessionView(false, LocalPlanning))
    || t.session == Some(SessionView(false, GoalOnObstacle))
  }

  lemma BlockedIff(t: Tick)
    ensures Blocked(t) <==> SeesFailure(t)
  {
  }

  /** Every tick from j up to but not including n saw a live session with a failure. */
  ghost predicate BlockedFrom(ticks: seq<Tick>, j: nat, n: nat)
    requires n <= |ticks|
  {
    forall m | j <= m < n :: SeesFailure(ticks[m])
  }

  lemma {:induction false} BlockageIsTracked(ticks: seq<Tick>, n: nat) returns (j: nat)
    requires n <= |ticks| && !After(ticks, n).holding && After(ticks, n).blockedSince.Some?
    ensures j < n && ticks[j].now == After(ticks, n).blockedSince.value && BlockedFrom(ticks, j, n)
  {
    var before := After(ticks, n - 1);
    if before.holding || before.blockedSince.None? {
      j := n - 1;
    } else {
      j := BlockageIsTracked(ticks, n - 1);
    }
  }

  /** Every interrupt ends a span of at least eight seconds in which every tick saw the robot blocked. */
  lemma InterruptIsJustified(ticks: seq<Tick>, i: nat) returns (j: nat)
    requires i < |ticks| && SignalAt(ticks, i) == Interrupted
    ensures j < i && ticks[i].now - ticks[j].now >= 8 * SECOND && BlockedFrom(ticks, j, i + 1)
  {
    j := BlockageIsTracked(ticks, i);
  }

  // ----- progress -----

  /** The clock never runs back, and consecutive ticks are at most d apart. */
  ghost predicate Regular(ticks: seq<Tick>, d: int) {
    forall i | 0 < i < |ticks| :: ticks[i - 1].now <= ticks[i].now <= ticks[i - 1].now + d
  }

  /** The first tick after i at or past the deadline, which comes at most d late. */
  lemma {:induction false} FirstPast(ticks: seq<Tick>, d: int, i: nat, j: nat, deadline: int) returns (k: nat)
    requires Regular(ticks, d) && i < j < |ticks|
    requires ticks[i].now < deadline <= ticks[j].now
    ensures i < k <= j && deadline <= ticks[k].now <= deadline + d
    ensures forall m | i < m < k :: ticks[m].now < deadline
    decreases j - i
  {
    if ticks[i + 1].now >= deadline {
      k := i + 1;
    } else {
      k := FirstPast(ticks, d, i + 1, j, deadline);
    }
  }

  lemma {:induction false} HoldLasts(ticks: seq<Tick>, i: nat, k: nat)
    requires i < k < |ticks| && SignalAt(ticks, i) == Interrupted
    requires forall m | i < m < k :: ticks[m].now < ticks[i].now + HOLD_FOR
    ensures After(ticks, k).holding && After(ticks, k).interruption
    ensures After(ticks, k).holdUntil == Some(ticks[i].now + HOLD_FOR)
    decreases k
  {
    if k > i + 1 {
      HoldLasts(ticks, i, k - 1);
    }
  }

  /** Every hold is resumed within ten seconds and one tick gap. */
  lemma HoldIsResumed(ticks: seq<Tick>, d: int, i: nat, j: nat) returns (k: nat)
    requires Regular(ticks, d) && i < j < |ticks| && SignalAt(ticks, i) == Interrupted
    requires ticks[j].now >= ticks[i].now + 10 * SECOND
    ensures i < k <= j && SignalAt(ticks, k) == Resumed
    ensures ticks[i].now + 10 * SECOND <= ticks[k].now <= ticks[i].now + 10 * SECOND + d
  {
    k := FirstPast(ticks, d, i, j, ticks[i].now + HOLD_FOR);
    HoldLasts(ticks, i, k);
  }

  lemma {:induction false} CooldownLasts(ticks: seq<Tick>, i: nat, k: nat)
    requires i < k < |ticks| && SignalAt(ticks, i) == Resumed
    requires forall m | i < m < k :: ticks[m].now < ticks[i].now + COOLDOWN
    ensures After(ticks, k) == State(false, false, None, None, Some(ticks[i].now + COOLDOWN))
    decreases k
  {
    if k > i + 1 {
      CooldownLasts(ticks, i, k - 1);
    }
  }

  lemma {:induction false} BlockageLasts(ticks: seq<Tick>, i: nat, k: nat)
    requires i < k < |ticks| && BlockedFrom(ticks, i, k)
    requires var s := After(ticks, i + 1);
      !s.holding && s.blockedSince == Some(ticks[i].now) && (s.cooldownUntil.Some? ==> s.cooldownUntil.value <= ticks[i].now)
    requires forall m | i < m < k :: ticks[i].now <= ticks[m].now < ticks[i].now + BLOCKED_FOR
    ensures After(ticks, k) == After(ticks, i + 1)
    decreases k
  {
    if k > i + 1 {
      BlockageLasts(ticks, i, k - 1);
    }
  }

  lemma {:induction false} ClockIsMonotone(ticks: seq<Tick>, d: int, i: nat, j: nat)
    requires Regular(ticks, d) && i <= j < |ticks|
    ensures ticks[i].now <= ticks[j].now
    decreases j
  {
    if i < j {
      ClockIsMonotone(ticks, d, i, j - 1);
    }
  }

  /** Under continuous blockage the next interrupt comes within 33 seconds and three tick gaps. */
  lemma NextInterrupt(ticks: seq<Tick>, d: int, i: nat, j: nat) returns (k: nat)
    requires Regular(ticks, d) && d >= 0 && i < j < |ticks| && SignalAt(ticks, i) == Interrupted
    requires BlockedFrom(ticks, i, |ticks|)
    requires ticks[j].now >= ticks[i].now + 33 * SECOND + 3 * d
    ensures i < k <= j && SignalAt(ticks, k) == Interrupted
    ensures ticks[i].now + 33 * SECOND <= ticks[k].now <= ticks[i].now + 33 * SECOND + 3 * d
  {
    var r := HoldIsResumed(ticks, d, i, j);
    var b := FirstPast(ticks, d, r, j, ticks[r].now + COOLDOWN);
    CooldownLasts(ticks, r, b);
    k := FirstPast(ticks, d, b, j, ticks[b].now + BLOCKED_FOR);
    forall m | b < m < k ensures ticks[b].now <= ticks[m].now {
      ClockIsMonotone(ticks, d, b, m);
    }
    BlockageLasts(ticks, b, k);
  }

  // ----- the first interrupt, and the pause after a hold -----

  /** No tick from j up to but not including n sends anything. */
  ghost predicate QuietFrom(ticks: seq<Tick>, j: nat, n: nat)
    requires n <= |ticks|
  {
    forall m | j <= m < n :: SignalAt(ticks, m) == Quiet
  }

  /** Nothing was sent before tick i, or nothing since a resume that was at least fifteen seconds ago. */
  ghost predicate Ready(ticks: seq<Tick>, i: nat)
    requires i < |ticks|
  {
    || QuietFrom(ticks, 0, i)
    || exists r | 0 <= r < i ::
         SignalAt(ticks, r) == Resumed && QuietFrom(ticks, r + 1, i) && ticks[i].now >= ticks[r].now + 15_000_000_000
  }

  /** Tick i sees the robot blocked, and the one before it did not. */
  ghost predicate FirstSight(ticks: seq<Tick>, i: nat)
    requires i < |ticks|
  {
    SeesFailure(ticks[i]) && (i > 0 ==> !SeesFailure(ticks[i - 1]))
  }

  lemma {:induction false} NeverHeld(ticks: seq<Tick>, i: nat)
    requires i <= |ticks| && QuietFrom(ticks, 0, i)
    ensures After(ticks, i) == IDLE.(blockedSince := After(ticks, i).blockedSince)
  {
    if i > 0 {
      NeverHeld(ticks, i - 1);
      assert SignalAt(ticks, i - 1) == Quiet;
    }
  }

  lemma {:induction false} QuietSinceResume(ticks: seq<Tick>, r: nat, i: nat)
    requires r < i <= |ticks| && SignalAt(ticks, r) == Resumed && QuietFrom(ticks, r + 1, i)
    ensures var s := After(ticks, i); !s.holding && s.cooldownUntil == Some(ticks[r].now + 15_000_000_000)
    ensures i == r + 1 ==> After(ticks, i).blockedSince.None?
    decreases i
  {
    if i > r + 1 {
      QuietSinceResume(ticks, r, i - 1);
      assert SignalAt(ticks, i - 1) == Quiet;
    }
  }

  /** A tick that finds the recovery ready and does not see a failure leaves nothing remembered. */
  lemma FirstSightStarts(ticks: seq<Tick>, i: nat)
    requires i < |ticks| && Ready(ticks, i) && FirstSight(ticks, i)
    ensures After(ticks, i + 1) == After(ticks, i).(blockedSince := Some(ticks[i].now)) && SignalAt(ticks, i) == Quiet
    ensures var s := After(ticks, i + 1); !s.holding && (s.cooldownUntil.Some? ==> s.cooldownUntil.value <= ticks[i].now)
  {
    BlockedIff(ticks[i]);
    if i > 0 {
      BlockedIff(ticks[i - 1]);
    }
    if QuietFrom(ticks, 0, i) {
      NeverHeld(ticks, i);
      if i > 0 {
        NeverHeld(ticks, i - 1);
      }
    } else {
      var r :| 0 <= r < i && SignalAt(ticks, r) == Resumed && QuietFrom(ticks, r + 1, i)
        && ticks[i].now >= ticks[r].now + 15_000_000_000;
      QuietSinceResume(ticks, r, i);
      if i > r + 1 {
        QuietSinceResume(ticks, r, i - 1);
      }
    }
  }

  /** From a tick that starts the count, continuous blockage is interrupted after eight seconds. */
  lemma CountRunsOut(ticks: seq<Tick>, d: int, i: nat, j: nat) returns (k: nat)
    requires Regular(ticks, d) && i < j < |ticks| && BlockedFrom(ticks, i, |ticks|)
    requires ticks[j].now >= ticks[i].now + 8_000_000_000
    requires var s := After(ticks, i + 1);
      !s.holding && s.blockedSince == Some(ticks[i].now) && (s.cooldownUntil.Some? ==> s.cooldownUntil.value <= ticks[i].now)
    ensures i < k <= j && SignalAt(ticks, k) == Interrupted && QuietFrom(ticks, i + 1, k)
    ensures ticks[i].now + 8_000_000_000 <= ticks[k].now <= ticks[i].now + 8_000_000_000 + d
  {
    k := FirstPast(ticks, d, i, j, ticks[i].now + 8_000_000_000);
    forall m | i < m <= k ensures ticks[i].now <= ticks[m].now {
      ClockIsMonotone(ticks, d, i, m);
    }
    forall m | i < m <= k ensures After(ticks, m) == After(ticks, i + 1) {
      BlockageLasts(ticks, i, m);
    }
    forall m | i < m < k ensures SignalAt(ticks, m) == Quiet {
      BlockedIff(ticks[m]);
    }
    BlockedIff(ticks[k]);
  }

  /**
   * When no hold and no cooldown is pending, a blockage that lasts is interrupted between
   * eight seconds and eight seconds and one tick gap after the tick that first saw it, and
   * not before. This includes the first interrupt of a run.
   */
  lemma FirstInterrupt(ticks: seq<Tick>, d: int, i: nat, j: nat) returns (k: nat)
    requires Regular(ticks, d) && i < j < |ticks| && Ready(ticks, i) && FirstSight(ticks, i)
    requires BlockedFrom(ticks, i, |ticks|) && ticks[j].now >= ticks[i].now + 8_000_000_000
    ensures i < k <= j && SignalAt(ticks, k) == Interrupted && QuietFrom(ticks, i, k)
    ensures ticks[i].now + 8_000_000_000 <= ticks[k].now <= ticks[i].now + 8_000_000_000 + d
  {
    FirstSightStarts(ticks, i);
    k := CountRunsOut(ticks, d, i, j);
  }

  /** What the state remembers after a resume, until the next interrupt. */
  lemma {:induction false} PauseIsKept(ticks: seq<Tick>, r: nat, k: nat)
    requires r < k <= |ticks| && SignalAt(ticks, r) == Resumed && forall m | r < m < k :: SignalAt(ticks, m) != Interrupted
    ensures var s := After(ticks, k);
      && !s.holding && s.cooldownUntil == Some(ticks[r].now + 15_000_000_000)
      && (s.blockedSince.Some? ==> s.blockedSince.value >= ticks[r].now + 15_000_000_000)
    decreases k
  {
    if k > r + 1 {
      PauseIsKept(ticks, r, k - 1);
      assert SignalAt(ticks, k - 1) != Interrupted;
    }
  }

  /** After a resume the robot is left alone for at least 23 seconds, whatever the clock does. */
  lemma {:induction false} PauseAfterResume(ticks: seq<Tick>, r: nat, k: nat)
    requires r < k < |ticks| && SignalAt(ticks, r) == Resumed && SignalAt(ticks, k) == Interrupted
    requires forall m | r < m < k :: SignalAt(ticks, m) != Interrupted
    ensures ticks[k].now >= ticks[r].now + 23_000_000_000
  {
    PauseIsKept(ticks, r, k);
  }

  /**
   * And a blockage that began no later than the fifteen seconds ended, and lasts, is
   * interrupted within 23 seconds and two tick gaps of the resume.
   */
  lemma InterruptAfterResume(ticks: seq<Tick>, d: int, r: nat, i: nat, j: nat) returns (k: nat)
    requires Regular(ticks, d) && d >= 0 && r < i <= j < |ticks| && SignalAt(ticks, r) == Resumed
    requires ticks[i - 1].now < ticks[r].now + 15_000_000_000
    requires BlockedFrom(ticks, i, |ticks|) && ticks[j].now >= ticks[r].now + 23_000_000_000 + d
    ensures r < k <= j && SignalAt(ticks, k) == Interrupted && QuietFrom(ticks, r + 1, k)
    ensures ticks[r].now + 23_000_000_000 <= ticks[k].now <= ticks[r].now + 23_000_000_000 + 2 * d
  {
    var b := FirstPast(ticks, d, r, j, ticks[r].now + 15_000_000_000);
    if b < i {
      ClockIsMonotone(ticks, d, b, i - 1);
    }
    forall m | r < m <= b ensures After(ticks, m) == State(false, false, None, None, Some(ticks[r].now + COOLDOWN)) {
      CooldownLasts(ticks, r, m);
    }
    BlockedIff(ticks[b]);
    k := CountRunsOut(ticks, d, b, j);
    assert QuietFrom(ticks, r + 1, k);
  }
}
