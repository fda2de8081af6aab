/**
 * The locks of the path handle, the navigation controller and the action slot. Every
 * operation is written as the list of locks it takes and lets go and of callbacks it makes,
 * for every way through it. Threads interleave at each entry of these lists, and a callback
 * into RMF may start another operation on the same thread.
 */
module Locking {
  import opened Common

  type SessionId = nat
  type Thread = nat

  datatype Mutex = SessionPointer | SessionLock(session: SessionId) | WeakPointer | Position | ActionSlot

  /**
   * Touch reads or writes what the mutex guards. Upcall leaves the adapter: RMF is called,
   * and may call back in.
   */
  datatype Action = Acquire(mutex: Mutex) | Release(mutex: Mutex) | Touch(mutex: Mutex) | Work | Upcall

  type Program = seq<Action>

  // ----- the operations -----

  function Guarded(m: Mutex): Program {
    [Acquire(m), Touch(m), Release(m)]
  }

  /** A session found behind a pointer is locked; a null one is passed over. */
  function GuardedIf(session: Option<SessionId>): Program {
    if session.Some? then Guarded(SessionLock(session.value)) else []
  }

  /** What a session callback does: the sessions its weak pointers lock, or a callback of RMF alone. */
  datatype Callback = Completion(session: Option<SessionId>) | Failure(session: Option<SessionId>) | Outside | Null

  function Calls(callback: Callback): Program {
    match callback
    case Completion(session) => GuardedIf(session) + Guarded(SessionPointer) + [Upcall]
    case Failure(session) => GuardedIf(session) + Guarded(SessionPointer) + [Work]
    case Outside => [Upcall]
    case Null => []
  }

  /** How executing a path goes: no session is found, or the send is answered. */
  datatype Execution = Expired | Accepted(session: SessionId) | Rejected(session: SessionId, stored: Callback)

  function ExecutePath(callback: Callback, how: Execution): Program {
    Guarded(WeakPointer) +
    match how
    case Expired => Calls(callback)
    case Accepted(i) => Guarded(SessionLock(i)) + [Work]
    case Rejected(i, stored) => Guarded(SessionLock(i)) + [Work] + Guarded(SessionLock(i)) + Calls(stored)
  }

  function CancelNavigation(session: Option<SessionId>): Program {
    Guarded(WeakPointer) + GuardedIf(session)
  }

  /** How a poll of the action slot ends: nothing to resolve, no execution to tell, or one told. */
  datatype Resolving = Unresolved | Untold | Told

  /** RMF is told the outcome of an action while the slot is locked. */
  function Resolve(how: Resolving): Program {
    match how
    case Unresolved => []
    case Untold => Guarded(ActionSlot)
    case Told => [Acquire(ActionSlot), Upcall, Touch(ActionSlot), Release(ActionSlot)]
  }

  datatype Operation =
    | FollowEmpty
    | Follow(lone: bool, previous: Option<SessionId>, created: SessionId, how: Execution)
    | FollowWithoutAdapter(lone: bool, previous: Option<SessionId>)
    | Stop(cancelled: Option<SessionId>, current: Option<SessionId>)
    | Dock(execution: Option<Execution>)          // None: answered at once
    | Execute(callback: Callback, how: Execution)
    | Cancel(session: Option<SessionId>)
    | Drain(current: Option<SessionId>, delivers: bool)
    | UpdatePosition
    | CurrentSession                             // also the lanes being navigated
    | CheckDeadlock
    | GoalIdOf(session: Option<SessionId>)
    | Feedback(session: Option<SessionId>, buffer: Option<SessionId>)
    | Statuses(session: Option<SessionId>, taken: Callback)
    | StoreAction
    | PollAction(navigation: Option<Execution>, resolving: Resolving)

  function Body(op: Operation): Program {
    match op
    case FollowEmpty => [Upcall]
    case Follow(lone, previous, created, how) =>
      (if lone then Guarded(Position) else []) +
      Guarded(SessionPointer) + GuardedIf(previous) + [Work] + Guarded(WeakPointer) +
      ExecutePath(Completion(Some(created)), how)
    case FollowWithoutAdapter(lone, previous) =>
      (if lone then Guarded(Position) else []) +
      Guarded(SessionPointer) + GuardedIf(previous) + [Work] + Guarded(SessionPointer) + [Upcall]
    case Stop(cancelled, current) =>
      CancelNavigation(cancelled) + Guarded(SessionPointer) + GuardedIf(current) + Guarded(SessionPointer) + [Work]
    case Dock(execution) =>
      Guarded(Position) + if execution.Some? then ExecutePath(Outside, execution.value) else [Upcall]
    case Execute(callback, how) => ExecutePath(callback, how)
    case Cancel(session) => CancelNavigation(session)
    case Drain(current, delivers) =>
      Guarded(SessionPointer) + [Work] + GuardedIf(current) + if delivers then [Upcall] else []
    case UpdatePosition => Guarded(Position)
    case CurrentSession => Guarded(SessionPointer) + [Work]
    case CheckDeadlock => Guarded(SessionPointer) + [Work, Upcall]
    case GoalIdOf(session) => CancelNavigation(session)
    case Feedback(session, buffer) =>
      Guarded(WeakPointer) + [Work] + GuardedIf(session) + [Work] + GuardedIf(buffer)
    case Statuses(session, taken) => Guarded(WeakPointer) + GuardedIf(session) + Calls(taken)
    case StoreAction => Guarded(ActionSlot)
    case PollAction(navigation, resolving) =>
      Guarded(ActionSlot) + [Work] +
      (if navigation.Some? then ExecutePath(Outside, navigation.value) else []) + Resolve(resolving)
  }

  /** The operations that lock the action slot. */
  predicate LocksSlot(op: Operation) {
    op.StoreAction? || op.PollAction?
  }

  // ----- threads -----

  /** What every thread has left to do, and which thread holds which mutex. */
  datatype State = State(left: map<Thread, Program>, owner: map<Mutex, Thread>)

  datatype Step =
    | Begin(thread: Thread, op: Operation)    // an idle thread is given an operation
    | Advance(thread: Thread)                 // a thread takes its next action
    | Reenter(thread: Thread, op: Operation)  // RMF, called by the thread, calls an operation

  ghost predicate Idle(s: State, t: Thread) {
    t in s.left && s.left[t] == []
  }

  ghost predicate Enabled(s: State, e: Step) {
    e.thread in s.left &&
    var left := s.left[e.thread];
    match e
    case Begin(_, _) => left == []
    case Reenter(_, _) => left != [] && left[0].Upcall?
    case Advance(t) => left != [] && match left[0]
      case Acquire(m) => m !in s.owner    // a mutex the thread holds itself would block it too
      case Release(m) => m in s.owner && s.owner[m] == t
      case _ => true
  }

  ghost function Next(s: State, e: Step): State
    requires Enabled(s, e)
  {
    var left := s.left[e.thread];
    match e
    case Begin(t, op) => s.(left := s.left[t := Body(op)])
    case Reenter(t, op) => s.(left := s.left[t := Body(op) + left])
    case Advance(t) =>
      var s1 := s.(left := s.left[t := left[1..]]);
      match left[0]
      case Acquire(m) => s1.(owner := s.owner[m := t])
      case Release(m) => s1.(owner := s.owner - {m})
      case _ => s1
  }

  ghost predicate IsRun(s: State, run: seq<Step>)
    decreases |run|
  {
    run != [] ==> Enabled(s, run[0]) && IsRun(Next(s, run[0]), run[1..])
  }

  ghost function Final(s: State, run: seq<Step>): State
    requires IsRun(s, run)
    decreases |run|
  {
    if run == [] then s else Final(Next(s, run[0]), run[1..])
  }

  /** Any number of idle threads, and no mutex held. */
  ghost predicate Initial(s: State) {
    s.owner == map[] && forall t | t in s.left :: s.left[t] == []
  }

  // ----- no operation holds two mutexes, nor one but the slot's across a callback -----

  /**
   * What a program may do while it holds this, and the action slot or not, if it is to end
   * without the one and with the other as told.
   */
  predicate Tidy(program: Program, held: Option<Mutex>, slot: bool, end: bool) {
    if program == [] then held.None? && slot == end
    else
      var rest := program[1..];
      match program[0]
      case Acquire(m) =>
        held.None? && if m.ActionSlot? then !slot && Tidy(rest, None, true, end) else Tidy(rest, Some(m), slot, end)
      case Release(m) =>
        if m.ActionSlot? then held.None? && slot && Tidy(rest, None, false, end)
        else held == Some(m) && Tidy(rest, None, slot, end)
      case Touch(m) => (if m.ActionSlot? then held.None? && slot else held == Some(m)) && Tidy(rest, held, slot, end)
      case Work => Tidy(rest, held, slot, end)
      case Upcall => held.None? && Tidy(rest, None, slot, end)
  }

  /** Tidy from start to end, whether or not the action slot is held meanwhile. */
  predicate Sound(program: Program) {
    Tidy(program, None, false, false) && Tidy(program, None, true, true)
  }

  lemma {:induction false} TidyJoin(a: Program, b: Program, held: Option<Mutex>, slot: bool, mid: bool, end: bool)
    requires Tidy(a, held, slot, mid) && Tidy(b, None, mid, end)
    ensures Tidy(a + b, held, slot, end)
  {
    if a == [] {
      assert a + b == b;
    } else {
      assert (a + b)[1..] == a[1..] + b;
      match a[0] {
        case Acquire(m) =>
          if m.ActionSlot? {
            TidyJoin(a[1..], b, None, true, mid, end);
          } else {
            TidyJoin(a[1..], b, Some(m), slot, mid, end);
          }
        case Release(m) => TidyJoin(a[1..], b, None, slot && !m.ActionSlot?, mid, end);
        case Touch(_) => TidyJoin(a[1..], b, held, slot, mid, end);
        case Work => TidyJoin(a[1..], b, held, slot, mid, end);
        case Upcall => TidyJoin(a[1..], b, None, slot, mid, end);
      }
    }
  }

  lemma SoundJoin(a: Program, b: Program)
    requires Sound(a) && Sound(b)
    ensures Sound(a + b)
  {
    hide Tidy;
    TidyJoin(a, b, None, false, false, false);
    TidyJoin(a, b, None, true, true, true);
  }

  lemma GuardedIsTidy(m: Mutex)
    requires m != ActionSlot
    ensures Sound(Guarded(m))
  {
    var p := Guarded(m);
    assert p[1..] == [Touch(m), Release(m)] && p[1..][1..] == [Release(m)] && p[1..][1..][1..] == [];
    assert Tidy(p[1..][1..], Some(m), false, false) && Tidy(p[1..][1..], Some(m), true, true);
  }

  lemma SmallAreTidy(session: Option<SessionId>)
    ensures Sound(GuardedIf(session)) && Sound([]) && Sound([Work]) && Sound([Upcall])
    ensures Sound([Work, Upcall])
  {
    if session.Some? {
      GuardedIsTidy(SessionLock(session.value));
    }
    var w: Program := [Work];
    var u: Program := [Upcall];
    var b: Program := [Work, Upcall];
    assert w[1..] == [] && u[1..] == [] && b[1..] == u;
  }

  lemma CallsIsTidy(callback: Callback)
    ensures Sound(Calls(callback))
  {
    hide Sound, Guarded, GuardedIf;
    GuardedIsTidy(SessionPointer);
    SmallAreTidy(None);
    if callback.Completion? || callback.Failure? {
      SmallAreTidy(callback.session);
      SoundJoin(GuardedIf(callback.session), Guarded(SessionPointer));
      var p := GuardedIf(callback.session) + Guarded(SessionPointer);
      SoundJoin(p, [Upcall]);
      SoundJoin(p, [Work]);
    }
  }

  lemma ExecutePathIsTidy(callback: Callback, how: Execution)
    ensures Sound(ExecutePath(callback, how))
  {
    hide Sound, Guarded, Calls;
    GuardedIsTidy(WeakPointer);
    SmallAreTidy(None);
    match how {
      case Expired =>
        CallsIsTidy(callback);
        SoundJoin(Guarded(WeakPointer), Calls(callback));
      case Accepted(i) =>
        GuardedIsTidy(SessionLock(i));
        SoundJoin(Guarded(SessionLock(i)), [Work]);
        SoundJoin(Guarded(WeakPointer), Guarded(SessionLock(i)) + [Work]);
      case Rejected(i, stored) =>
        var g := Guarded(SessionLock(i));
        GuardedIsTidy(SessionLock(i));
        CallsIsTidy(stored);
        SoundJoin(g, [Work]);
        SoundJoin(g + [Work], g);
        SoundJoin(g + [Work] + g, Calls(stored));
        SoundJoin(Guarded(WeakPointer), g + [Work] + g + Calls(stored));
    }
  }

  lemma CancelIsTidy(session: Option<SessionId>)
    ensures Sound(CancelNavigation(session))
  {
    hide Sound, Guarded, GuardedIf;
    GuardedIsTidy(WeakPointer);
    SmallAreTidy(session);
    SoundJoin(Guarded(WeakPointer), GuardedIf(session));
  }

  /** The beginning that both ways of following a path share. */
  lemma SwapIsTidy(lone: bool, previous: Option<SessionId>)
    ensures Sound((if lone then Guarded(Position) else []) + Guarded(SessionPointer) + GuardedIf(previous) + [Work])
  {
    hide Sound, Guarded, GuardedIf;
    GuardedIsTidy(Position);
    GuardedIsTidy(SessionPointer);
    SmallAreTidy(previous);
    var p := if lone then Guarded(Position) else [];
    SoundJoin(p, Guarded(SessionPointer));
    SoundJoin(p + Guarded(SessionPointer), GuardedIf(previous));
    SoundJoin(p + Guarded(SessionPointer) + GuardedIf(previous), [Work]);
  }

  lemma FollowIsTidy(op: Operation)
    requires op.Follow? || op.FollowWithoutAdapter?
    ensures Sound(Body(op))
  {
    hide Sound, Guarded, GuardedIf, ExecutePath;
    SwapIsTidy(op.lone, op.previous);
    GuardedIsTidy(WeakPointer);
    GuardedIsTidy(SessionPointer);
    SmallAreTidy(None);
    var p := (if op.lone then Guarded(Position) else []) + Guarded(SessionPointer) + GuardedIf(op.previous) + [Work];
    if op.Follow? {
      var e := ExecutePath(Completion(Some(op.created)), op.how);
      ExecutePathIsTidy(Completion(Some(op.created)), op.how);
      SoundJoin(p, Guarded(WeakPointer));
      SoundJoin(p + Guarded(WeakPointer), e);
    } else {
      SoundJoin(p, Guarded(SessionPointer));
      SoundJoin(p + Guarded(SessionPointer), [Upcall]);
    }
  }

  lemma StopIsTidy(op: Operation)
    requires op.Stop?
    ensures Sound(Body(op))
  {
    hide Sound, Guarded, GuardedIf, CancelNavigation;
    CancelIsTidy(op.cancelled);
    GuardedIsTidy(SessionPointer);
    SmallAreTidy(op.current);
    var (c, g) := (CancelNavigation(op.cancelled), Guarded(SessionPointer));
    SoundJoin(c, g);
    SoundJoin(c + g, GuardedIf(op.current));
    SoundJoin(c + g + GuardedIf(op.current), g);
    SoundJoin(c + g + GuardedIf(op.current) + g, [Work]);
  }

  lemma ReadersAreTidy(op: Operation)
    requires op.Drain? || op.Feedback? || op.Statuses? || op.CurrentSession? || op.CheckDeadlock? || op.Dock?
    ensures Sound(Body(op))
  {
    hide Sound, Guarded, GuardedIf, ExecutePath, Calls;
    GuardedIsTidy(SessionPointer);
    GuardedIsTidy(WeakPointer);
    GuardedIsTidy(Position);
    SmallAreTidy(None);
    var (p, w) := (Guarded(SessionPointer), Guarded(WeakPointer));
    match op {
      case Drain(current, delivers) =>
        SmallAreTidy(current);
        SoundJoin(p, [Work]);
        SoundJoin(p + [Work], GuardedIf(current));
        SoundJoin(p + [Work] + GuardedIf(current), if delivers then [Upcall] else []);
      case CurrentSession => SoundJoin(p, [Work]);
      case CheckDeadlock => SoundJoin(p, [Work, Upcall]);
      case Dock(execution) =>
        if execution.Some? {
          ExecutePathIsTidy(Outside, execution.value);
        }
        SoundJoin(Guarded(Position), if execution.Some? then ExecutePath(Outside, execution.value) else [Upcall]);
      case Feedback(session, buffer) =>
        SmallAreTidy(session);
        SmallAreTidy(buffer);
        SoundJoin(w, [Work]);
        SoundJoin(w + [Work], GuardedIf(session));
        SoundJoin(w + [Work] + GuardedIf(session), [Work]);
        SoundJoin(w + [Work] + GuardedIf(session) + [Work], GuardedIf(buffer));
      case Statuses(session, taken) =>
        SmallAreTidy(session);
        CallsIsTidy(taken);
        SoundJoin(w, GuardedIf(session));
        SoundJoin(w + GuardedIf(session), Calls(taken));
    }
  }

  lemma SlotIsTidy()
    ensures Tidy(Guarded(ActionSlot), None, false, false)
  {
    var p := Guarded(ActionSlot);
    assert p[1..] == [Touch(ActionSlot), Release(ActionSlot)] && p[1..][1..] == [Release(ActionSlot)] && p[1..][1..][1..] == [];
    assert Tidy(p[1..][1..], None, true, false);
  }

  lemma ResolveIsTidy(how: Resolving)
    ensures Tidy(Resolve(how), None, false, false)
  {
    SlotIsTidy();
    var p := Resolve(Told);
    assert p[1..] == [Upcall, Touch(ActionSlot), Release(ActionSlot)] && p[1..][1..] == [Touch(ActionSlot), Release(ActionSlot)];
    assert p[1..][1..][1..] == [Release(ActionSlot)] && p[1..][1..][1..][1..] == [];
    assert Tidy(p[1..][1..][1..], None, true, false);
    assert Tidy(p[1..], None, true, false);
  }

  lemma PollIsTidy(op: Operation)
    requires op.PollAction?
    ensures Tidy(Body(op), None, false, false)
    ensures Body(op) != [] && Body(op)[0] == Acquire(ActionSlot)
  {
    hide Tidy, ExecutePath, Resolve;
    var g := Guarded(ActionSlot);
    var n := if op.navigation.Some? then ExecutePath(Outside, op.navigation.value) else [];
    SlotIsTidy();
    SmallAreTidy(None);
    if op.navigation.Some? {
      ExecutePathIsTidy(Outside, op.navigation.value);
    }
    ResolveIsTidy(op.resolving);
    TidyJoin(g, [Work], None, false, false, false);
    TidyJoin(g + [Work], n, None, false, false, false);
    TidyJoin(g + [Work] + n, Resolve(op.resolving), None, false, false, false);
    assert Body(op) == g + [Work] + n + Resolve(op.resolving);
  }

  /**
   * Every operation takes its mutexes one at a time, and calls out with none but the one of
   * the action slot; and those that do not store or poll actions do so even when started
   * while the slot is locked.
   */
  lemma OperationsAreTidy(op: Operation)
    ensures Tidy(Body(op), None, false, false)
    ensures !LocksSlot(op) ==> Sound(Body(op))
    ensures LocksSlot(op) ==> Body(op) != [] && Body(op)[0] == Acquire(ActionSlot)
  {
    hide Tidy, Guarded, GuardedIf, ExecutePath, CancelNavigation, Calls, Resolve;
    match op {
      case FollowEmpty => SmallAreTidy(None);
      case Follow(_, _, _, _) => FollowIsTidy(op);
      case FollowWithoutAdapter(_, _) => FollowIsTidy(op);
      case Stop(_, _) => StopIsTidy(op);
      case Execute(callback, how) => ExecutePathIsTidy(callback, how);
      case Cancel(session) => CancelIsTidy(session);
      case GoalIdOf(session) => CancelIsTidy(session);
      case UpdatePosition => GuardedIsTidy(Position);
      case StoreAction => StoreIsTidy();
      case PollAction(_, _) => PollIsTidy(op);
      case _ => ReadersAreTidy(op);
    }
  }

  lemma StoreIsTidy()
    ensures Tidy(Body(StoreAction), None, false, false)
    ensures Body(StoreAction) != [] && Body(StoreAction)[0] == Acquire(ActionSlot)
  {
    SlotIsTidy();
  }

  // ----- every reachable state -----

  ghost predicate Holds(s: State, t: Thread, m: Mutex) {
    m in s.owner && s.owner[m] == t
  }

  /** The thread holds this mutex or none, and the action slot or not, and nothing else. */
  ghost predicate HoldsJust(s: State, t: Thread, held: Option<Mutex>, slot: bool) {
    && held != Some(ActionSlot)
    && forall m :: Holds(s, t, m) <==> (held == Some(m) || (slot && m == ActionSlot))
  }

  /** What the thread has left to do fits what it holds. */
  ghost predicate Going(s: State, t: Thread) {
    t in s.left && exists held, slot :: HoldsJust(s, t, held, slot) && Tidy(s.left[t], held, slot, false)
  }

  /** The thread waits for the action slot, which it holds itself. */
  ghost predicate BlocksItself(s: State, t: Thread) {
    t in s.left && s.left[t] != [] && s.left[t][0] == Acquire(ActionSlot) && Holds(s, t, ActionSlot)
  }

  ghost predicate Stuck(s: State, t: Thread) {
    BlocksItself(s, t) && HoldsJust(s, t, None, true)
  }

  ghost predicate Inv(s: State) {
    && (forall t | t in s.left :: Going(s, t) || Stuck(s, t))
    && (forall m | m in s.owner :: s.owner[m] in s.left)
  }

  /** RMF, told the outcome of an action, stores or polls an action before it returns. */
  ghost predicate AsksAgain(s: State, e: Step) {
    e.Reenter? && LocksSlot(e.op) && Holds(s, e.thread, ActionSlot)
  }

  lemma SameHolds(s: State, s': State, t: Thread, held: Option<Mutex>, slot: bool)
    requires HoldsJust(s, t, held, slot)
    requires forall m :: Holds(s', t, m) <==> Holds(s, t, m)
    ensures HoldsJust(s', t, held, slot)
  {
  }

  /** Threads that keep their program and their mutexes keep their standing. */
  lemma OthersKeep(s: State, s': State, t: Thread)
    requires t in s.left && t in s'.left && s'.left[t] == s.left[t]
    requires forall m :: Holds(s', t, m) <==> Holds(s, t, m)
    ensures Going(s, t) ==> Going(s', t)
    ensures Stuck(s, t) ==> Stuck(s', t)
  {
    hide Tidy, Holds, HoldsJust;
    if Going(s, t) {
      var held, slot :| HoldsJust(s, t, held, slot) && Tidy(s.left[t], held, slot, false);
      SameHolds(s, s', t, held, slot);
    }
    if Stuck(s, t) {
      SameHolds(s, s', t, None, true);
    }
  }

  /** A thread that can move is not stuck, and afterwards it is only if it asked again. */
  lemma MoverKeeps(s: State, e: Step)
    requires Going(s, e.thread) && Enabled(s, e)
    ensures AsksAgain(s, e) ==> Stuck(Next(s, e), e.thread)
    ensures !AsksAgain(s, e) ==> Going(Next(s, e), e.thread)
  {
    hide Body, LocksSlot;
    var t := e.thread;
    var left := s.left[t];
    var s' := Next(s, e);
    var held, slot :| HoldsJust(s, t, held, slot) && Tidy(left, held, slot, false);
    match e {
      case Begin(_, op) =>
        OperationsAreTidy(op);
        SameHolds(s, s', t, None, false);
      case Reenter(_, op) =>
        OperationsAreTidy(op);
        SameHolds(s, s', t, None, slot);
        assert Holds(s, t, ActionSlot) == slot;
        if !AsksAgain(s, e) {
          TidyJoin(Body(op), left, None, slot, slot, false);
        }
      case Advance(_) => AdvanceKeeps(s, t, held, slot);
    }
  }

  lemma AdvanceKeeps(s: State, t: Thread, held: Option<Mutex>, slot: bool)
    requires Enabled(s, Advance(t)) && HoldsJust(s, t, held, slot) && Tidy(s.left[t], held, slot, false)
    ensures Going(Next(s, Advance(t)), t)
  {
    var left := s.left[t];
    var s' := Next(s, Advance(t));
    match left[0] {
      case Acquire(m) =>
        if m.ActionSlot? {
          assert HoldsJust(s', t, None, true);
        } else {
          assert HoldsJust(s', t, Some(m), slot);
        }
      case Release(m) => assert HoldsJust(s', t, None, slot && !m.ActionSlot?);
      case _ => SameHolds(s, s', t, held, slot);
    }
  }

  /** A thread that blocks itself has no step. */
  lemma StuckCannotMove(s: State, e: Step)
    requires Enabled(s, e)
    ensures !BlocksItself(s, e.thread)
  {
    hide Body;
  }

  lemma OthersHold(s: State, e: Step, u: Thread)
    requires Enabled(s, e) && u in s.left && u != e.thread
    ensures u in Next(s, e).left && Next(s, e).left[u] == s.left[u]
    ensures forall m :: Holds(Next(s, e), u, m) <==> Holds(s, u, m)
  {
    hide Body;
  }

  lemma NextKeeps(s: State, e: Step)
    requires Inv(s) && Enabled(s, e)
    ensures Inv(Next(s, e))
    ensures forall t | t in s.left :: t in Next(s, e).left
    ensures forall t | t in s.left ::
      Stuck(Next(s, e), t) <==> (Stuck(s, t) || (t == e.thread && AsksAgain(s, e)))
  {
    hide Going, Stuck, Tidy, Body, AsksAgain;
    var s' := Next(s, e);
    StuckCannotMove(s, e);
    forall t | t in s'.left
      ensures Going(s', t) || Stuck(s', t)
      ensures Stuck(s', t) <==> (Stuck(s, t) || (t == e.thread && AsksAgain(s, e)))
    {
      GoingOrStuck(s, t);
      GoingOrStuck(s', t);
      if t == e.thread {
        MoverKeeps(s, e);
      } else {
        OthersHold(s, e, t);
        OthersKeep(s, s', t);
      }
    }
  }

  /** And not both. */
  lemma GoingOrStuck(s: State, t: Thread)
    ensures !(Going(s, t) && Stuck(s, t))
    ensures Stuck(s, t) ==> BlocksItself(s, t)
    ensures Going(s, t) ==> !BlocksItself(s, t)
  {
  }

  ghost predicate Asked(s: State, run: seq<Step>)
    requires IsRun(s, run)
    decreases |run|
  {
    run != [] && (AsksAgain(s, run[0]) || Asked(Next(s, run[0]), run[1..]))
  }

  ghost predicate NoneStuck(s: State) {
    forall t | t in s.left :: !Stuck(s, t)
  }

  lemma {:induction false} InvHolds(s: State, run: seq<Step>)
    requires Inv(s) && IsRun(s, run)
    ensures Inv(Final(s, run))
    ensures NoneStuck(Final(s, run)) <==> NoneStuck(s) && !Asked(s, run)
    decreases |run|
  {
    hide Inv, Next, Stuck, AsksAgain;
    if run != [] {
      NextKeeps(s, run[0]);
      InvHolds(Next(s, run[0]), run[1..]);
      SameThreads(s, run[0]);
    }
  }

  lemma SameThreads(s: State, e: Step)
    requires Enabled(s, e)
    ensures Next(s, e).left.Keys == s.left.Keys
  {
    hide Body;
  }

  lemma InitialIsFine(s: State)
    requires Initial(s)
    ensures Inv(s) && NoneStuck(s)
  {
    forall t | t in s.left ensures Going(s, t) && !Stuck(s, t) {
      assert HoldsJust(s, t, None, false) && Tidy(s.left[t], None, false, false);
      GoingOrStuck(s, t);
    }
  }

  /**
   * On every run, no thread ever holds two mutexes besides the action slot's, and RMF is
   * called with none but that one.
   */
  lemma OneMutexAtMost(s: State, run: seq<Step>, t: Thread)
    requires Initial(s) && IsRun(s, run) && t in Final(s, run).left
    ensures var s' := Final(s, run);
      && (forall m, m' :: Holds(s', t, m) && Holds(s', t, m') ==> m == m' || m.ActionSlot? || m'.ActionSlot?)
      && (s'.left[t] != [] && s'.left[t][0].Upcall? ==> forall m :: Holds(s', t, m) ==> m.ActionSlot?)
      && (s'.left[t] == [] ==> forall m :: !Holds(s', t, m))
  {
    hide Next, Enabled, Holds;
    InitialIsFine(s);
    InvHolds(s, run);
    var s' := Final(s, run);
    assert Going(s', t) || Stuck(s', t);
  }

  /** What a mutex guards is touched by the thread that holds it, and so by one thread at a time. */
  lemma GuardedIsExclusive(s: State, run: seq<Step>, t: Thread, u: Thread, m: Mutex)
    requires Initial(s) && IsRun(s, run)
    requires var left := Final(s, run).left;
      && t in left && left[t] != [] && left[t][0] == Touch(m)
      && u in left && left[u] != [] && left[u][0] == Touch(m)
    ensures Holds(Final(s, run), t, m) && t == u
  {
    hide Next, Enabled;
    InitialIsFine(s);
    InvHolds(s, run);
    var s' := Final(s, run);
    assert Going(s', t) && Going(s', u);
  }

  // ----- waiting -----

  ghost predicate CanGoOn(s: State, t: Thread) {
    Enabled(s, Advance(t))
  }

  ghost predicate WaitsFor(s: State, t: Thread, u: Thread) {
    t in s.left && s.left[t] != [] && s.left[t][0].Acquire? && Holds(s, u, s.left[t][0].mutex)
  }

  /** The thread can go on, or one it waits for can, or one that one waits for. */
  ghost predicate WaitEnds(s: State, t: Thread) {
    CanGoOn(s, t) || exists u :: WaitsFor(s, t, u) && (CanGoOn(s, u) || exists v :: WaitsFor(s, u, v) && CanGoOn(s, v))
  }

  /** No busy thread waits for nothing but threads that wait. */
  ghost predicate EveryWaitEnds(s: State) {
    forall t | t in s.left && s.left[t] != [] :: WaitEnds(s, t)
  }

  /** Who holds a mutex other than the action slot's has a step. */
  lemma HolderCanGoOn(s: State, t: Thread, m: Mutex)
    requires Inv(s) && Holds(s, t, m) && m != ActionSlot
    ensures CanGoOn(s, t)
  {
    assert Going(s, t) || Stuck(s, t);
    if Going(s, t) {
      var held, slot :| HoldsJust(s, t, held, slot) && Tidy(s.left[t], held, slot, false);
      assert held == Some(m);
    }
  }

  /** So who holds the action slot has one too, or waits for someone who has. */
  lemma SlotHolderWaits(s: State, t: Thread)
    requires Inv(s) && Going(s, t) && Holds(s, t, ActionSlot)
    ensures CanGoOn(s, t) || exists v :: WaitsFor(s, t, v) && CanGoOn(s, v)
  {
    var held, slot :| HoldsJust(s, t, held, slot) && Tidy(s.left[t], held, slot, false);
    assert slot;
    match s.left[t][0] {
      case Acquire(m) =>
        if m in s.owner {
          HolderCanGoOn(s, s.owner[m], m);
          assert WaitsFor(s, t, s.owner[m]);
        }
      case Release(m) => assert Holds(s, t, m);
      case _ =>
    }
  }

  lemma GoingWaitEnds(s: State, t: Thread)
    requires Inv(s) && NoneStuck(s) && t in s.left && s.left[t] != []
    ensures WaitEnds(s, t)
  {
    var held, slot :| HoldsJust(s, t, held, slot) && Tidy(s.left[t], held, slot, false);
    match s.left[t][0] {
      case Acquire(m) =>
        if m in s.owner {
          var u := s.owner[m];
          assert WaitsFor(s, t, u);
          if m == ActionSlot {
            SlotHolderWaits(s, u);
          } else {
            HolderCanGoOn(s, u, m);
          }
        }
      case Release(m) => assert Holds(s, t, m);
      case _ =>
    }
  }

  /** A thread that blocks itself waits for no other. */
  lemma StuckWaits(s: State, t: Thread)
    requires BlocksItself(s, t)
    ensures !WaitEnds(s, t)
  {
    assert !CanGoOn(s, t);
    assert forall u :: WaitsFor(s, t, u) ==> u == t;
  }

  /**
   * After every run each waiting thread waits in the end for one that can go on, and so some
   * busy thread always can, if and only if RMF never stored or polled an action from within
   * being told the outcome of one.
   */
  lemma EveryWaitEndsIff(s: State, run: seq<Step>)
    requires Initial(s) && IsRun(s, run)
    ensures EveryWaitEnds(Final(s, run)) <==> !Asked(s, run)
  {
    hide Inv, Next, Enabled, Stuck, AsksAgain, WaitEnds;
    InitialIsFine(s);
    InvHolds(s, run);
    var s' := Final(s, run);
    if NoneStuck(s') {
      forall t | t in s'.left && s'.left[t] != [] ensures WaitEnds(s', t) {
        GoingWaitEnds(s', t);
      }
    } else {
      var t :| t in s'.left && Stuck(s', t);
      GoingOrStuck(s', t);
      StuckWaits(s', t);
    }
  }

  /** A thread that asked again for the slot it holds keeps it and waits for it ever after. */
  lemma AskingIsForever(s: State, run: seq<Step>, e: Step, rest: seq<Step>)
    requires Initial(s) && IsRun(s, run) && Enabled(Final(s, run), e) && AsksAgain(Final(s, run), e)
    requires IsRun(Next(Final(s, run), e), rest)
    ensures BlocksItself(Final(Next(Final(s, run), e), rest), e.thread)
  {
    hide Inv, Next, Stuck, AsksAgain;
    InitialIsFine(s);
    InvHolds(s, run);
    NextKeeps(Final(s, run), e);
    StuckStays(Next(Final(s, run), e), rest, e.thread);
  }

  lemma {:induction false} StuckStays(s: State, run: seq<Step>, t: Thread)
    requires Inv(s) && IsRun(s, run) && t in s.left && Stuck(s, t)
    ensures BlocksItself(Final(s, run), t)
    decreases |run|
  {
    hide Inv, Next, Enabled, Stuck, AsksAgain;
    GoingOrStuck(s, t);
    if run != [] {
      NextKeeps(s, run[0]);
      StuckStays(Next(s, run[0]), run[1..], t);
    }
  }

  // ----- a run on which it does -----

  /** One thread, with this left to do, that holds the action slot or nothing. */
  ghost function Alone(left: Program, slot: bool): State {
    State(map[0 := left], if slot then map[ActionSlot := 0] else map[])
  }

  lemma AloneAdvances(left: Program, slot: bool)
    requires left != []
    requires left[0] == Work || left[0] == Touch(ActionSlot) || left[0] == if slot then Release(ActionSlot) else Acquire(ActionSlot)
    ensures Enabled(Alone(left, slot), Advance(0))
    ensures Next(Alone(left, slot), Advance(0)) == Alone(left[1..], slot == (left[0].Work? || left[0].Touch?))
  {
    var s' := Next(Alone(left, slot), Advance(0));
    assert s'.left == map[0 := left[1..]];
    assert s'.owner == Alone(left[1..], slot == (left[0].Work? || left[0].Touch?)).owner;
  }

  lemma RunGoesOn(s: State, e: Step, rest: seq<Step>)
    requires Enabled(s, e) && IsRun(Next(s, e), rest)
    ensures IsRun(s, [e] + rest)
    ensures Asked(s, [e] + rest) <==> AsksAgain(s, e) || Asked(Next(s, e), rest)
  {
    hide Enabled, Next, AsksAgain;
    assert ([e] + rest)[1..] == rest;
  }

  lemma TellingIsAsked()
    ensures var told: Program := [Upcall, Touch(ActionSlot), Release(ActionSlot)];
      IsRun(Alone(told, true), [Reenter(0, StoreAction)]) && Asked(Alone(told, true), [Reenter(0, StoreAction)])
  {
    RunGoesOn(Alone([Upcall, Touch(ActionSlot), Release(ActionSlot)], true), Reenter(0, StoreAction), []);
    assert [Reenter(0, StoreAction)] + [] == [Reenter(0, StoreAction)];
  }

  /** A poll that tells an outcome, and RMF storing the next action before it returns. */
  const STORED_WHILE_TOLD: seq<Step> :=
    [Begin(0, PollAction(None, Told)), Advance(0), Advance(0), Advance(0), Advance(0), Advance(0), Reenter(0, StoreAction)]

  lemma PollTells(rest: seq<Step>)
    requires var told: Program := [Upcall, Touch(ActionSlot), Release(ActionSlot)];
      IsRun(Alone(told, true), rest) && Asked(Alone(told, true), rest)
    ensures var poll := Body(PollAction(None, Told));
      var run := [Advance(0), Advance(0), Advance(0), Advance(0), Advance(0)] + rest;
      IsRun(Alone(poll, false), run) && Asked(Alone(poll, false), run)
  {
    hide Next, Enabled, AsksAgain, Alone;
    var p: Program := [Acquire(ActionSlot), Touch(ActionSlot), Release(ActionSlot), Work, Acquire(ActionSlot), Upcall, Touch(ActionSlot),
                       Release(ActionSlot)];
    assert Body(PollAction(None, Told)) == p;
    var (p1, p2, p3, p4, p5) := (p[1..], p[2..], p[3..], p[4..], p[5..]);
    assert p1[1..] == p2 && p2[1..] == p3 && p3[1..] == p4 && p4[1..] == p5;
    assert p5 == [Upcall, Touch(ActionSlot), Release(ActionSlot)];
    var a := Advance(0);
    AloneAdvances(p4, false);
    RunGoesOn(Alone(p4, false), a, rest);
    AloneAdvances(p3, false);
    RunGoesOn(Alone(p3, false), a, [a] + rest);
    AloneAdvances(p2, true);
    RunGoesOn(Alone(p2, true), a, [a] + ([a] + rest));
    AloneAdvances(p1, true);
    RunGoesOn(Alone(p1, true), a, [a] + ([a] + ([a] + rest)));
    AloneAdvances(p, false);
    RunGoesOn(Alone(p, false), a, [a] + ([a] + ([a] + ([a] + rest))));
    assert [a] + ([a] + ([a] + ([a] + ([a] + rest)))) == [a, a, a, a, a] + rest;
  }

  /** It blocks the polling thread on itself. */
  lemma StoringWhileToldBlocks()
    ensures Initial(Alone([], false)) && IsRun(Alone([], false), STORED_WHILE_TOLD)
    ensures !EveryWaitEnds(Final(Alone([], false), STORED_WHILE_TOLD))
  {
    hide EveryWaitEnds, AsksAgain, Final;
    var s := Alone([], false);
    var op := PollAction(None, Told);
    var rest := [Advance(0), Advance(0), Advance(0), Advance(0), Advance(0)] + [Reenter(0, StoreAction)];
    TellingIsAsked();
    PollTells([Reenter(0, StoreAction)]);
    assert Enabled(s, Begin(0, op)) && Next(s, Begin(0, op)) == Alone(Body(op), false);
    RunGoesOn(s, Begin(0, op), rest);
    assert [Begin(0, op)] + rest == STORED_WHILE_TOLD;
    EveryWaitEndsIff(s, STORED_WHILE_TOLD);
  }
}
