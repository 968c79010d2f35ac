/**
  The GIL runtime as a state machine over any number of threads: the per-thread
  GIL count, the guards that move it, the pool of deferred decrefs behind its
  mutex, and a reference-counted heap. Every step is one atomic action of one
  thread, in the order in which the runtime takes them, so the machine contains
  every interleaving.
*/
module GilMachine {
  import opened Options

  type Tid = nat
  type Obj = nat

  // What PyGILState_Ensure reports: was the GIL already held by this thread?
  datatype GState = WasLocked | WasUnlocked

  // The kinds of owned reference a Rust program can hold.
  datatype Handle = PyHandle | BoundHandle | RawPointer

  // What is still open on a thread, innermost first.
  datatype Stack = Empty | Push(top: Frame, below: Stack)

  datatype Frame =
    | Assumed                        // GILGuard::Assumed
    | Ensured(gstate: GState)        // GILGuard::Ensured
    | Suspended(saved: int)          // a live SuspendGIL
    | Traversing(saved: int)         // a live LockGIL
    | Draining(rest: seq<Obj>)       // the loop of update_counts, with what it has not yet decref'd
    | Finalizing(fields: seq<Obj>)   // a deallocator, with the references it still has to release
    | Guarding                       // the GILGuard::Assumed that a deallocator holds while it releases them

  // Where a thread stands inside a runtime call.
  datatype Phase =
    | Running
    | Ensuring                       // inside PyGILState_Ensure
    | Counting(gstate: GState)       // Ensure has returned, increment_gil_count comes next
    | Saving(saved: int)             // the count is zeroed, PyEval_SaveThread comes next
    | Restoring                      // the count is set back, inside PyEval_RestoreThread
    | Releasing                      // PyGILState_Release is done, decrement_gil_count comes next
    | Yielded                        // the interpreter dropped the GIL inside a call
    | Polling                        // update_counts, before it has the pool mutex
    | Swapping                       // update_counts, holding the pool mutex
    | Queueing(obj: Obj)             // register_decref, before it has the pool mutex
    | Pushing(obj: Obj)              // register_decref, holding the pool mutex

  // Calls into the interpreter so far, and guards lost to a panic after Ensure.
  datatype Calls = Calls(ensured: nat, released: nat, saved: nat, restored: nat, leaked: nat)

  datatype Thread = Thread(
    count: int,            // GIL_COUNT
    attached: bool,        // does the code that called into Rust hold the GIL?
    stack: Stack,
    phase: Phase,
    bound: multiset<Obj>,  // Bound handles live on this thread
    calls: Calls)

  // What a deallocator does: releases the next field, drops a Py that is kept elsewhere, takes a guard and
  // does something under it, or does something with the GIL given up.
  datatype Deed = ReleaseField | DropHandle(o: Obj) | Guarded(body: seq<Deed>) | WithoutGil(body: seq<Deed>)

  datatype Slot = Freed | Live(rc: nat, fields: seq<Obj>, deeds: seq<Deed>)

  datatype State = State(
    owner: Option<Tid>,    // who holds the GIL
    threads: seq<Thread>,
    heap: seq<Slot>,
    py: multiset<Obj>,     // Py handles
    raw: multiset<Obj>,    // owned raw pointers
    pool: seq<Obj>,        // pending_decrefs
    mutex: Option<Tid>,    // who holds the pool mutex
    fault: bool)           // a use after free, a refcount touched without the GIL, or a failed assertion

  datatype Action =
    | Attach | Detach | Yield | Resume
    | Acquire | EnsureReturns | CountGuard | Assume | DropGuard | Decrement
    | Suspend | SaveThread | DropSuspend | RestoreThread
    | LockTraverse | UnlockTraverse
    | TakeMutex | SwapPool | PushPool
    | DrainNext | FinalizeNext | GuardFields | UnguardFields
    | NewObject(fields: seq<Obj>, deeds: seq<Deed>)
    | CloneBound(o: Obj) | CloneRef(o: Obj) | ClonePy(o: Obj) | Borrow(o: Obj)
    | DropBound(o: Obj) | DropPy(o: Obj)
    | Transfer(o: Obj, from: Handle, to: Handle)

  datatype Event = Event(t: Tid, a: Action)

  // ---------------------------------------------------------------- stacks

  // The GIL count that the open guards add up to.
  function Count(st: Stack): int {
    match st
    case Empty => 0
    case Push(Assumed, b) => Count(b) + 1
    case Push(Guarding, b) => Count(b) + 1
    case Push(Ensured(_), b) => Count(b) + 1
    case Push(Suspended(_), b) => 0
    case Push(Traversing(_), b) => -1
    case Push(_, b) => Count(b)
  }

  // Should the thread hold the GIL with these guards open?
  predicate Holds(st: Stack, attached: bool) {
    match st
    case Empty => attached
    case Push(Suspended(_), b) => false
    case Push(_, b) => true
  }

  predicate Nested(st: Stack, attached: bool) {
    match st
    case Empty => true
    case Push(f, b) =>
      Nested(b, attached) &&
      match f
      case Assumed => Holds(b, attached) && Count(b) >= 0
      case Guarding => Holds(b, attached) && Count(b) > 0
      case Ensured(g) => (g.WasLocked? <==> Holds(b, attached)) && Count(b) == 0
      case Suspended(c) => Holds(b, attached) && c == Count(b) && c > 0
      case Traversing(c) => Holds(b, attached) && c == Count(b) && c >= 0
      case Draining(_) => Holds(b, attached) && Count(b) > 0
      case Finalizing(_) => Holds(b, attached) && Count(b) > 0
  }

  function EnsuredFrames(st: Stack): nat {
    match st
    case Empty => 0
    case Push(f, b) => EnsuredFrames(b) + if f.Ensured? then 1 else 0
  }

  function SuspendedFrames(st: Stack): nat {
    match st
    case Empty => 0
    case Push(f, b) => SuspendedFrames(b) + if f.Suspended? then 1 else 0
  }

  // References to o that the open drains and deallocators still have to release.
  function StackRefs(st: Stack, o: Obj): nat {
    match st
    case Empty => 0
    case Push(Draining(r), b) => multiset(r)[o] + StackRefs(b, o)
    case Push(Finalizing(r), b) => multiset(r)[o] + StackRefs(b, o)
    case Push(_, b) => StackRefs(b, o)
  }

  // A thread with a positive count holds the GIL, or is inside a call that will get it back.
  lemma {:induction false} PositiveCountHolds(st: Stack, attached: bool)
    requires Nested(st, attached)
    ensures Count(st) > 0 ==> Holds(st, attached)
    ensures Count(st) >= -1
  {
    match st
    case Empty =>
    case Push(f, b) => PositiveCountHolds(b, attached);
  }

  // ---------------------------------------------------------------- threads

  // Rust client code is in control: not inside a runtime call, and not in the drain loop itself.
  predicate InClient(th: Thread) {
    th.phase.Running? && !(th.stack.Push? && th.stack.top.Draining?)
  }

  // Client code that holds a `Python` token.
  predicate HasToken(th: Thread) {
    InClient(th) && th.count > 0
  }

  // The thread executes Rust code outside every call that can hand the GIL over.
  predicate InRust(p: Phase) {
    p.Running? || p.Polling? || p.Swapping? || p.Queueing? || p.Pushing?
  }

  predicate CallsBalance(th: Thread) {
    && th.calls.ensured - th.calls.released
       == EnsuredFrames(th.stack) + th.calls.leaked
          + (if th.phase.Counting? then 1 else if th.phase.Releasing? then -1 else 0)
    && th.calls.saved - th.calls.restored
       == SuspendedFrames(th.stack) + if th.phase.Restoring? then 1 else 0
  }

  // The invariant of one thread, given whether it owns the GIL and the pool mutex.
  predicate ThreadOk(th: Thread, owns: bool, locks: bool) {
    var holds := Holds(th.stack, th.attached);
    && Nested(th.stack, th.attached)
    && CallsBalance(th)
    && (locks <==> th.phase.Swapping? || th.phase.Pushing?)
    && (th.phase.Saving? || th.count == Count(th.stack))
    && match th.phase
       case Running => owns == holds
       case Ensuring => owns == holds && th.count <= 0
       case Counting(g) => owns && th.count <= 0 && (g.WasLocked? <==> holds)
       case Saving(c) => owns && holds && th.count == 0 && c == Count(th.stack) && c > 0
       case Restoring => !owns && holds && th.count > 0
       case Releasing => th.stack.Push? && th.stack.top.Ensured? && owns == Holds(th.stack.below, th.attached)
       case Yielded => !owns && holds
       case Polling => owns && holds && th.count > 0
       case Swapping => owns && holds && th.count > 0
       case Queueing(_) => owns == holds && th.count <= 0
       case Pushing(_) => owns == holds && th.count <= 0
  }

  predicate GilOk(s: State) {
    && (s.owner.Some? ==> s.owner.value < |s.threads|)
    && (s.mutex.Some? ==> s.mutex.value < |s.threads|)
    && forall t :: 0 <= t < |s.threads| ==>
         ThreadOk(s.threads[t], s.owner == Some(t), s.mutex == Some(t))
  }

  // ---------------------------------------------------------------- references

  function PhaseRefs(p: Phase, o: Obj): nat {
    if (p.Queueing? || p.Pushing?) && p.obj == o then 1 else 0
  }

  // References to o that a thread keeps: its Bound handles, its unfinished releases, its unfinished push.
  function ThreadRefs(th: Thread, o: Obj): nat {
    th.bound[o] + StackRefs(th.stack, o) + PhaseRefs(th.phase, o)
  }

  function SlotRefs(c: Slot, o: Obj): nat {
    if c.Live? then multiset(c.fields)[o] else 0
  }

  function AllThreadRefs(ths: seq<Thread>, o: Obj): nat {
    if ths == [] then 0 else ThreadRefs(ths[0], o) + AllThreadRefs(ths[1..], o)
  }

  function AllSlotRefs(heap: seq<Slot>, o: Obj): nat {
    if heap == [] then 0 else SlotRefs(heap[0], o) + AllSlotRefs(heap[1..], o)
  }

  // The owned references to o in the whole process, wherever they are.
  function Owned(s: State, o: Obj): nat {
    s.py[o] + s.raw[o] + multiset(s.pool)[o] + AllThreadRefs(s.threads, o) + AllSlotRefs(s.heap, o)
  }

  function RefCount(heap: seq<Slot>, o: Obj): nat {
    if o < |heap| && heap[o].Live? then heap[o].rc else 0
  }

  // Refcounts and references agree, but for d at the object p.
  ghost predicate ConservedBut(s: State, p: Obj, d: int) {
    && (forall o :: 0 <= o < |s.heap| && s.heap[o].Live? ==> s.heap[o].rc > 0)
    && forall o: Obj :: RefCount(s.heap, o) == Owned(s, o) + if o == p then d else 0
  }

  // Reference conservation: the refcount of an object is the number of its owned references,
  // and exactly the objects without references are freed.
  ghost predicate Conserved(s: State) {
    ConservedBut(s, 0, 0)
  }

  ghost predicate Inv(s: State) {
    GilOk(s) && Conserved(s) && !s.fault
  }

  // ---------------------------------------------------------------- steps

  function SetThread(s: State, t: Tid, th: Thread): State
    requires t < |s.threads|
  {
    s.(threads := s.threads[t := th])
  }

  function WithRefCount(s: State, o: Obj, rc: nat): State
    requires o < |s.heap| && s.heap[o].Live?
  {
    s.(heap := s.heap[o := Live(rc, s.heap[o].fields, s.heap[o].deeds)])
  }

  predicate MayTouch(s: State, t: Tid, o: Obj) {
    s.owner == Some(t) && o < |s.heap| && s.heap[o].Live? && s.heap[o].rc > 0
  }

  // Py_INCREF by thread t.
  function Incref(s: State, t: Tid, o: Obj): State {
    if MayTouch(s, t, o) then WithRefCount(s, o, s.heap[o].rc + 1) else s.(fault := true)
  }

  // Py_DECREF by thread t: the last reference frees the object and enters its deallocator.
  function Decref(s: State, t: Tid, o: Obj): State
    requires t < |s.threads|
  {
    if !MayTouch(s, t, o) then s.(fault := true)
    else if s.heap[o].rc > 1 then WithRefCount(s, o, s.heap[o].rc - 1)
    else Free(s, t, o)
  }

  function Free(s: State, t: Tid, o: Obj): State
    requires t < |s.threads| && o < |s.heap| && s.heap[o].Live?
  {
    var th := s.threads[t];
    SetThread(s.(heap := s.heap[o := Freed]), t,
              th.(stack := Push(Finalizing(s.heap[o].fields), th.stack)))
  }

  function HandlesOf(s: State, t: Tid, k: Handle): multiset<Obj>
    requires t < |s.threads|
  {
    match k
    case PyHandle => s.py
    case RawPointer => s.raw
    case BoundHandle => s.threads[t].bound
  }

  function WithHandles(s: State, t: Tid, k: Handle, m: multiset<Obj>): State
    requires t < |s.threads|
  {
    match k
    case PyHandle => s.(py := m)
    case RawPointer => s.(raw := m)
    case BoundHandle => SetThread(s, t, s.threads[t].(bound := m))
  }

  predicate Enabled(s: State, t: Tid, a: Action) {
    t < |s.threads| &&
    var th := s.threads[t];
    match a
    case Attach => th.phase.Running? && th.stack.Empty? && !th.attached && s.owner.None?
    case Detach => th.phase.Running? && th.stack.Empty? && th.attached
    case Yield => InClient(th) && s.owner == Some(t) && th.count >= 0
    case Resume => th.phase.Yielded? && s.owner.None?
    case Acquire => InClient(th)
    case EnsureReturns => th.phase.Ensuring? && (s.owner.None? || s.owner == Some(t))
    case CountGuard => th.phase.Counting?
    case Assume => InClient(th) && s.owner == Some(t)
    case DropGuard =>
      InClient(th) && th.stack.Push? &&
      !th.stack.top.Suspended? && !th.stack.top.Traversing? && !th.stack.top.Finalizing?
    case Decrement => th.phase.Releasing? && th.stack.Push?
    case Suspend => HasToken(th)
    case SaveThread => th.phase.Saving?
    case DropSuspend => InClient(th) && th.stack.Push? && th.stack.top.Suspended?
    case RestoreThread => th.phase.Restoring? && s.owner.None?
    case LockTraverse => InClient(th) && s.owner == Some(t) && th.count >= 0
    case UnlockTraverse => InClient(th) && th.stack.Push? && th.stack.top.Traversing?
    case TakeMutex => (th.phase.Polling? || th.phase.Queueing?) && s.mutex.None?
    case SwapPool => th.phase.Swapping?
    case PushPool => th.phase.Pushing?
    case DrainNext => th.phase.Running? && th.stack.Push? && th.stack.top.Draining?
    case FinalizeNext => th.phase.Running? && th.stack.Push? && th.stack.top.Finalizing?
    case GuardFields =>
      th.phase.Running? && th.stack.Push? && th.stack.top.Finalizing? && s.owner == Some(t) && th.count > 0
    case UnguardFields =>
      th.phase.Running? && th.stack.Push? && th.stack.top.Finalizing? && th.stack.below.Push? && th.stack.below.top.Guarding?
    case NewObject(fields, _) => HasToken(th) && multiset(fields) <= s.raw
    case CloneBound(o) => HasToken(th) && o in th.bound
    case CloneRef(o) => HasToken(th) && o in s.py
    case ClonePy(o) => InClient(th) && o in s.py
    case Borrow(o) => HasToken(th) && (o in s.py || o in s.raw || o in th.bound)
    case DropBound(o) => HasToken(th) && o in th.bound
    case DropPy(o) => InClient(th) && o in s.py
    case Transfer(o, from, to) =>
      InClient(th) && o in HandlesOf(s, t, from) && from != to &&
      (from.BoundHandle? || to.BoundHandle? ==> th.count > 0)
  }

  // The guard is counted; a negative count makes increment_gil_count panic.
  function CountUp(s: State, t: Tid, f: Frame): State
    requires t < |s.threads|
  {
    var th := s.threads[t];
    if th.count < 0 then
      SetThread(s, t, th.(phase := Running))
    else
      SetThread(s, t, th.(count := th.count + 1, stack := Push(f, th.stack), phase := Polling))
  }

  // decrement_gil_count with its debug assertion.
  function CountDown(s: State, t: Tid): State
    requires t < |s.threads| && s.threads[t].stack.Push?
  {
    var th := s.threads[t];
    SetThread(if th.count > 0 then s else s.(fault := true), t,
              th.(count := th.count - 1, stack := th.stack.below, phase := Running))
  }

  function Do(s: State, t: Tid, a: Action): State
    requires Enabled(s, t, a)
  {
    var th := s.threads[t];
    match a
    case Attach => SetThread(s.(owner := Some(t)), t, th.(attached := true))
    case Detach => SetThread(s.(owner := None), t, th.(attached := false))
    case Yield => SetThread(s.(owner := None), t, th.(phase := Yielded))
    case Resume => SetThread(s.(owner := Some(t)), t, th.(phase := Running))
    case Acquire =>
      if th.count > 0 then CountUp(s, t, Assumed)
      else SetThread(s, t, th.(phase := Ensuring))
    case EnsureReturns =>
      SetThread(s.(owner := Some(t)), t,
                th.(phase := Counting(if s.owner.None? then WasUnlocked else WasLocked),
                    calls := th.calls.(ensured := th.calls.ensured + 1)))
    case CountGuard =>
      if th.count < 0 then
        SetThread(s, t, th.(phase := Running, calls := th.calls.(leaked := th.calls.leaked + 1)))
      else
        CountUp(s, t, Ensured(th.phase.gstate))
    case Assume => CountUp(s, t, Assumed)
    case DropGuard =>
      if !th.stack.top.Ensured? then CountDown(s, t)
      else
        SetThread(if th.stack.top.gstate.WasUnlocked? then s.(owner := None) else s, t,
                  th.(phase := Releasing, calls := th.calls.(released := th.calls.released + 1)))
    case Decrement => CountDown(s, t)
    case Suspend => SetThread(s, t, th.(count := 0, phase := Saving(th.count)))
    case SaveThread =>
      SetThread(s.(owner := None), t,
                th.(stack := Push(Suspended(th.phase.saved), th.stack), phase := Running,
                    calls := th.calls.(saved := th.calls.saved + 1)))
    case DropSuspend =>
      SetThread(s, t, th.(count := th.stack.top.saved, stack := th.stack.below, phase := Restoring))
    case RestoreThread =>
      SetThread(s.(owner := Some(t)), t,
                th.(phase := Polling, calls := th.calls.(restored := th.calls.restored + 1)))
    case LockTraverse => SetThread(s, t, th.(count := -1, stack := Push(Traversing(th.count), th.stack)))
    case UnlockTraverse => SetThread(s, t, th.(count := th.stack.top.saved, stack := th.stack.below))
    case TakeMutex =>
      SetThread(s.(mutex := Some(t)), t,
                th.(phase := if th.phase.Polling? then Swapping else Pushing(th.phase.obj)))
    case SwapPool =>
      if s.pool == [] then
        SetThread(s.(mutex := None), t, th.(phase := Running))
      else
        SetThread(s.(mutex := None, pool := []), t,
                  th.(phase := Running, stack := Push(Draining(s.pool), th.stack)))
    case PushPool => SetThread(s.(mutex := None, pool := s.pool + [th.phase.obj]), t, th.(phase := Running))
    case DrainNext =>
      var rest := th.stack.top.rest;
      if rest == [] then SetThread(s, t, th.(stack := th.stack.below))
      else Decref(SetThread(s, t, th.(stack := Push(Draining(rest[1..]), th.stack.below))), t, rest[0])
    case FinalizeNext =>
      var rest := th.stack.top.fields;
      if rest == [] then SetThread(s, t, th.(stack := th.stack.below))
      else Decref(SetThread(s, t, th.(stack := Push(Finalizing(rest[1..]), th.stack.below))), t, rest[0])
    case GuardFields =>
      SetThread(s, t, th.(count := th.count + 1, phase := Polling,
                          stack := Push(th.stack.top, Push(Guarding, th.stack.below))))
    case UnguardFields =>
      SetThread(if th.count > 0 then s else s.(fault := true), t,
                th.(count := th.count - 1, stack := Push(th.stack.top, th.stack.below.below)))
    case NewObject(fields, deeds) =>
      SetThread(s.(heap := s.heap + [Live(1, fields, deeds)], raw := s.raw - multiset(fields)), t,
                th.(bound := th.bound + multiset{|s.heap|}))
    case CloneBound(o) => Incref(SetThread(s, t, th.(bound := th.bound + multiset{o})), t, o)
    case CloneRef(o) => Incref(s.(py := s.py + multiset{o}), t, o)
    case ClonePy(o) => if th.count > 0 then Incref(s.(py := s.py + multiset{o}), t, o) else s
    case Borrow(o) => Incref(SetThread(s, t, th.(bound := th.bound + multiset{o})), t, o)
    case DropBound(o) => Decref(SetThread(s, t, th.(bound := th.bound - multiset{o})), t, o)
    case DropPy(o) =>
      if th.count > 0 then Decref(s.(py := s.py - multiset{o}), t, o)
      else SetThread(s.(py := s.py - multiset{o}), t, th.(phase := Queueing(o)))
    case Transfer(o, from, to) =>
      var s' := WithHandles(s, t, from, HandlesOf(s, t, from) - multiset{o});
      WithHandles(s', t, to, HandlesOf(s', t, to) + multiset{o})
  }

  function Fresh(): Thread {
    Thread(0, false, Empty, Running, multiset{}, Calls(0, 0, 0, 0, 0))
  }

  // n threads that have not touched the interpreter yet, and an empty heap.
  function Init(n: nat): State {
    State(None, seq(n, _ => Fresh()), [], multiset{}, multiset{}, [], None, false)
  }

  // A run is a list of events, newest last.
  predicate Possible(s: State, es: seq<Event>)
    decreases |es|, 0
  {
    es == [] ||
    (Possible(s, es[..|es| - 1]) &&
     Enabled(Exec(s, es[..|es| - 1]), es[|es| - 1].t, es[|es| - 1].a))
  }

  function Exec(s: State, es: seq<Event>): State
    requires Possible(s, es)
    decreases |es|, 1
  {
    if es == [] then s
    else Do(Exec(s, es[..|es| - 1]), es[|es| - 1].t, es[|es| - 1].a)
  }
}
