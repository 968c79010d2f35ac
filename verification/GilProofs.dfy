/** What every step of the GIL machine keeps, and what follows for whole runs. */
module GilProofs {
  import opened GilMachine
  import opened Options

  // ---------------------------------------------------------------- sums

  lemma {:induction false} ThreadRefsUpdate(ths: seq<Thread>, t: Tid, th: Thread, o: Obj)
    requires t < |ths|
    ensures AllThreadRefs(ths[t := th], o) + ThreadRefs(ths[t], o) == AllThreadRefs(ths, o) + ThreadRefs(th, o)
  {
    if t == 0 {
      assert ths[t := th][1..] == ths[1..];
    } else {
      assert ths[t := th][1..] == ths[1..][t - 1 := th];
      ThreadRefsUpdate(ths[1..], t - 1, th, o);
    }
  }

  lemma {:induction false} SlotRefsUpdate(heap: seq<Slot>, p: Obj, c: Slot, o: Obj)
    requires p < |heap|
    ensures AllSlotRefs(heap[p := c], o) + SlotRefs(heap[p], o) == AllSlotRefs(heap, o) + SlotRefs(c, o)
  {
    if p == 0 {
      assert heap[p := c][1..] == heap[1..];
    } else {
      assert heap[p := c][1..] == heap[1..][p - 1 := c];
      SlotRefsUpdate(heap[1..], p - 1, c, o);
    }
  }

  lemma {:induction false} SlotRefsAppend(heap: seq<Slot>, c: Slot, o: Obj)
    ensures AllSlotRefs(heap + [c], o) == AllSlotRefs(heap, o) + SlotRefs(c, o)
  {
    if heap == [] {
      assert heap + [c] == [c];
    } else {
      assert (heap + [c])[1..] == heap[1..] + [c];
      SlotRefsAppend(heap[1..], c, o);
    }
  }

  lemma OwnedUpdate(s: State, t: Tid, th: Thread)
    requires t < |s.threads|
    ensures forall o: Obj ::
              Owned(SetThread(s, t, th), o) + ThreadRefs(s.threads[t], o) == Owned(s, o) + ThreadRefs(th, o)
  {
    forall o: Obj
      ensures Owned(SetThread(s, t, th), o) + ThreadRefs(s.threads[t], o) == Owned(s, o) + ThreadRefs(th, o)
    {
      ThreadRefsUpdate(s.threads, t, th, o);
    }
  }

  lemma OwnedHeapUpdate(s: State, p: Obj, c: Slot)
    requires p < |s.heap|
    ensures forall o: Obj ::
              Owned(s.(heap := s.heap[p := c]), o) + SlotRefs(s.heap[p], o) == Owned(s, o) + SlotRefs(c, o)
  {
    forall o: Obj
      ensures Owned(s.(heap := s.heap[p := c]), o) + SlotRefs(s.heap[p], o) == Owned(s, o) + SlotRefs(c, o)
    {
      SlotRefsUpdate(s.heap, p, c, o);
    }
  }

  // ---------------------------------------------------------------- refcounts

  lemma RefCountUpdate(s: State, o: Obj, rc: nat)
    requires o < |s.heap| && s.heap[o].Live?
    ensures var s' := WithRefCount(s, o, rc);
            forall x: Obj :: Owned(s', x) == Owned(s, x)
                             && RefCount(s'.heap, x) == if x == o then rc else RefCount(s.heap, x)
  {
    var c := Live(rc, s.heap[o].fields, s.heap[o].deeds);
    OwnedHeapUpdate(s, o, c);
    assert forall x: Obj :: SlotRefs(c, x) == SlotRefs(s.heap[o], x);
  }

  lemma IncrefConserves(s: State, t: Tid, o: Obj)
    requires ConservedBut(s, o, -1) && Owned(s, o) > 1 && s.owner == Some(t)
    ensures Conserved(Incref(s, t, o)) && Incref(s, t, o).fault == s.fault
  {
    assert RefCount(s.heap, o) > 0;
    RefCountUpdate(s, o, s.heap[o].rc + 1);
  }

  lemma DecrefConserves(s: State, t: Tid, o: Obj)
    requires t < |s.threads| && s.owner == Some(t) && ConservedBut(s, o, 1)
    ensures Conserved(Decref(s, t, o)) && Decref(s, t, o).fault == s.fault
  {
    assert RefCount(s.heap, o) > 0;
    if s.heap[o].rc > 1 {
      RefCountUpdate(s, o, s.heap[o].rc - 1);
    } else {
      FreeConserves(s, t, o);
    }
  }

  // Freeing moves the object's own references from the heap to its deallocator.
  lemma FreeConserves(s: State, t: Tid, o: Obj)
    requires t < |s.threads| && o < |s.heap| && s.heap[o].Live? && s.heap[o].rc == 1
    requires ConservedBut(s, o, 1)
    ensures Conserved(Free(s, t, o))
  {
    var th := s.threads[t];
    OwnedHeapUpdate(s, o, Freed);
    OwnedUpdate(s.(heap := s.heap[o := Freed]), t,
                th.(stack := Push(Finalizing(s.heap[o].fields), th.stack)));
  }

  // ---------------------------------------------------------------- conservation, step by step

  // References held outside the threads and the heap.
  function Shared(s: State, o: Obj): nat {
    s.py[o] + s.raw[o] + multiset(s.pool)[o]
  }

  // A step that leaves the heap alone changes references only in its own thread and in the shared places.
  lemma ThreadStep(s: State, s': State, t: Tid)
    requires t < |s.threads| && s'.heap == s.heap
    requires |s'.threads| == |s.threads| && s'.threads == s.threads[t := s'.threads[t]]
    ensures forall o: Obj :: Owned(s', o) - Shared(s', o) - ThreadRefs(s'.threads[t], o)
                             == Owned(s, o) - Shared(s, o) - ThreadRefs(s.threads[t], o)
  {
    forall o: Obj
      ensures Owned(s', o) - Shared(s', o) - ThreadRefs(s'.threads[t], o)
              == Owned(s, o) - Shared(s, o) - ThreadRefs(s.threads[t], o)
    {
      ThreadRefsUpdate(s.threads, t, s'.threads[t], o);
    }
  }

  // ... so it conserves when those two balance.
  lemma Moved(s: State, s': State, t: Tid, p: Obj, d: int)
    requires t < |s.threads| && s'.heap == s.heap
    requires |s'.threads| == |s.threads| && s'.threads == s.threads[t := s'.threads[t]]
    requires Conserved(s)
    requires forall o: Obj :: Shared(s', o) + ThreadRefs(s'.threads[t], o) + (if o == p then d else 0)
                              == Shared(s, o) + ThreadRefs(s.threads[t], o)
    ensures ConservedBut(s', p, d)
  {
    ThreadStep(s, s', t);
  }

  // Actions that only change who may run: no reference moves.
  predicate CallsInterpreter(a: Action) {
    a.Attach? || a.Detach? || a.Yield? || a.Resume? || a.Acquire? || a.EnsureReturns? || a.CountGuard?
    || a.Suspend? || a.SaveThread? || a.DropSuspend? || a.RestoreThread? || a.TakeMutex?
  }

  predicate MovesGuards(a: Action) {
    a.Assume? || a.DropGuard? || a.Decrement? || a.LockTraverse? || a.UnlockTraverse?
  }

  predicate ControlOnly(a: Action) {
    CallsInterpreter(a) || MovesGuards(a) || a.GuardFields? || a.UnguardFields?
  }

  predicate CountsDown(a: Action) {
    a.DropGuard? || a.Decrement? || a.UnguardFields?
  }

  // No handle, no pool entry, no heap cell and no pending release changes.
  ghost predicate NothingMoved(s: State, t: Tid, s': State) {
    && t < |s.threads| == |s'.threads| && s'.threads == s.threads[t := s'.threads[t]]
    && s'.heap == s.heap && s'.py == s.py && s'.raw == s.raw && s'.pool == s.pool
    && s'.threads[t].bound == s.threads[t].bound
    && (forall o: Obj :: StackRefs(s'.threads[t].stack, o) == StackRefs(s.threads[t].stack, o))
    && (forall o: Obj :: PhaseRefs(s'.threads[t].phase, o) == PhaseRefs(s.threads[t].phase, o))
  }

  lemma InterpreterMovesNothing(s: State, t: Tid, a: Action)
    requires Enabled(s, t, a) && CallsInterpreter(a)
    ensures NothingMoved(s, t, Do(s, t, a)) && Do(s, t, a).fault == s.fault
  {
  }

  lemma GuardsMoveNothing(s: State, t: Tid, a: Action)
    requires GilOk(s) && Enabled(s, t, a) && MovesGuards(a)
    ensures NothingMoved(s, t, Do(s, t, a)) && (CountsDown(a) || Do(s, t, a).fault == s.fault)
  {
    hide GilOk, Nested, Count, Holds, CallsBalance, StackRefs;
    ThreadIsOk(s, t);
    var th := s.threads[t];
    PlainFrame(Assumed, th.stack);
    PlainFrame(Traversing(th.count), th.stack);
    if th.stack.Push? && !th.stack.top.Draining? && !th.stack.top.Finalizing? { PlainFrame(th.stack.top, th.stack.below); }
  }

  lemma PlainFrame(f: Frame, b: Stack)
    requires !f.Draining? && !f.Finalizing?
    ensures forall o :: StackRefs(Push(f, b), o) == StackRefs(b, o)
  {
  }

  lemma FieldGuardsMoveNothing(s: State, t: Tid, a: Action)
    requires Enabled(s, t, a) && (a.GuardFields? || a.UnguardFields?)
    ensures NothingMoved(s, t, Do(s, t, a)) && (CountsDown(a) || Do(s, t, a).fault == s.fault)
  {
    hide StackRefs;
    var stack := s.threads[t].stack;
    forall o: Obj ensures StackRefs(Do(s, t, a).threads[t].stack, o) == StackRefs(stack, o) {
      GuardedRefs(stack.top, if a.GuardFields? then stack.below else stack.below.below, o);
    }
  }

  lemma GuardedRefs(f: Frame, b: Stack, o: Obj)
    requires f.Finalizing?
    ensures StackRefs(Push(f, Push(Guarding, b)), o) == StackRefs(Push(f, b), o)
  {
    PlainFrame(Guarding, b);
  }

  lemma ControlConserves(s: State, t: Tid, a: Action)
    requires Inv(s) && Enabled(s, t, a) && ControlOnly(a)
    ensures Conserved(Do(s, t, a)) && !Do(s, t, a).fault
  {
    hide Do, Conserved, GilOk;
    if CallsInterpreter(a) {
      InterpreterMovesNothing(s, t, a);
    } else {
      if MovesGuards(a) {
        GuardsMoveNothing(s, t, a);
      } else {
        FieldGuardsMoveNothing(s, t, a);
      }
      if CountsDown(a) { CountDownIsSafe(s, t, a); }
    }
    MovedNothing(s, Do(s, t, a), t);
  }

  lemma MovedNothing(s: State, s': State, t: Tid)
    requires Inv(s) && NothingMoved(s, t, s')
    ensures Conserved(s')
  {
    Moved(s, s', t, 0, 0);
  }

  lemma PoolConserves(s: State, t: Tid, a: Action)
    requires Inv(s) && Enabled(s, t, a) && (a.SwapPool? || a.PushPool?)
    ensures Conserved(Do(s, t, a)) && !Do(s, t, a).fault
  {
    Moved(s, Do(s, t, a), t, 0, 0);
  }

  lemma TakeHandle(s: State, t: Tid, k: Handle, o: Obj)
    requires Conserved(s) && t < |s.threads| && o in HandlesOf(s, t, k)
    ensures ConservedBut(WithHandles(s, t, k, HandlesOf(s, t, k) - multiset{o}), o, 1)
  {
    Moved(s, WithHandles(s, t, k, HandlesOf(s, t, k) - multiset{o}), t, o, 1);
  }

  lemma GiveHandle(s: State, t: Tid, k: Handle, o: Obj)
    requires ConservedBut(s, o, 1) && t < |s.threads|
    ensures Conserved(WithHandles(s, t, k, HandlesOf(s, t, k) + multiset{o}))
  {
    ThreadStep(s, WithHandles(s, t, k, HandlesOf(s, t, k) + multiset{o}), t);
  }

  lemma TransferConserves(s: State, t: Tid, o: Obj, from: Handle, to: Handle)
    requires Inv(s) && Enabled(s, t, Transfer(o, from, to))
    ensures Conserved(Do(s, t, Transfer(o, from, to))) && !Do(s, t, Transfer(o, from, to)).fault
  {
    hide ConservedBut, Owned;
    TakeHandle(s, t, from, o);
    GiveHandle(WithHandles(s, t, from, HandlesOf(s, t, from) - multiset{o}), t, to, o);
  }

  // A positive count in client code means that this thread holds the GIL.
  lemma TokenOwns(s: State, t: Tid)
    requires GilOk(s) && t < |s.threads| && s.threads[t].phase.Running? && s.threads[t].count > 0
    ensures s.owner == Some(t)
  {
    assert ThreadOk(s.threads[t], s.owner == Some(t), s.mutex == Some(t));
    PositiveCountHolds(s.threads[t].stack, s.threads[t].attached);
  }

  lemma ThreadRefsBelow(ths: seq<Thread>, t: Tid, o: Obj)
    requires t < |ths|
    ensures ThreadRefs(ths[t], o) <= AllThreadRefs(ths, o)
  {
    if t > 0 { ThreadRefsBelow(ths[1..], t - 1, o); }
  }

  // A new handle to an object that already has one.
  lemma CloneConserves(s: State, t: Tid, o: Obj, s1: State)
    requires Inv(s) && t < |s.threads| && s.owner == Some(t)
    requires s.py[o] + s.raw[o] + s.threads[t].bound[o] > 0
    requires || s1 == s.(py := s.py + multiset{o})
             || s1 == SetThread(s, t, s.threads[t].(bound := s.threads[t].bound + multiset{o}))
    ensures Conserved(Incref(s1, t, o)) && !Incref(s1, t, o).fault
  {
    ThreadRefsBelow(s.threads, t, o);
    assert Owned(s, o) > 0;
    Moved(s, s1, t, o, -1);
    IncrefConserves(s1, t, o);
  }

  // A handle is dropped while the GIL is held.
  lemma DropConserves(s: State, t: Tid, o: Obj, s1: State)
    requires Inv(s) && t < |s.threads| && s.owner == Some(t)
    requires || (o in s.py && s1 == s.(py := s.py - multiset{o}))
             || (o in s.threads[t].bound
                 && s1 == SetThread(s, t, s.threads[t].(bound := s.threads[t].bound - multiset{o})))
    ensures Conserved(Decref(s1, t, o)) && !Decref(s1, t, o).fault
  {
    Moved(s, s1, t, o, 1);
    DecrefConserves(s1, t, o);
  }

  // The next reference of a drain or of a deallocator is released.
  lemma ReleaseConserves(s: State, t: Tid, f: Frame, f': Frame, o: Obj)
    requires Inv(s) && t < |s.threads| && s.owner == Some(t)
    requires s.threads[t].stack.Push? && s.threads[t].stack.top == f
    requires || (f.Draining? && f'.Draining? && f.rest == [o] + f'.rest)
             || (f.Finalizing? && f'.Finalizing? && f.fields == [o] + f'.fields)
    ensures var th := s.threads[t];
            var s' := Decref(SetThread(s, t, th.(stack := Push(f', th.stack.below))), t, o);
            Conserved(s') && !s'.fault
  {
    var th := s.threads[t];
    var s1 := SetThread(s, t, th.(stack := Push(f', th.stack.below)));
    Moved(s, s1, t, o, 1);
    DecrefConserves(s1, t, o);
  }

  lemma NewObjectConserves(s: State, t: Tid, fields: seq<Obj>, deeds: seq<Deed>)
    requires Inv(s) && Enabled(s, t, NewObject(fields, deeds))
    ensures Conserved(Do(s, t, NewObject(fields, deeds))) && !Do(s, t, NewObject(fields, deeds)).fault
  {
    hide AllThreadRefs, AllSlotRefs, GilOk;
    var th := s.threads[t];
    var n := |s.heap|;
    var th' := th.(bound := th.bound + multiset{n});
    var s1 := s.(raw := s.raw - multiset(fields));
    var s2 := SetThread(s1, t, th');
    var s' := Do(s, t, NewObject(fields, deeds));
    OwnedUpdate(s1, t, th');
    assert RefCount(s.heap, n) == Owned(s, n) == 0;
    forall o: Obj
      ensures RefCount(s'.heap, o) == Owned(s', o)
    {
      SlotRefsAppend(s.heap, Live(1, fields, deeds), o);
      assert RefCount(s.heap, o) == Owned(s, o);
      assert ThreadRefs(th', o) == ThreadRefs(th, o) + if o == n then 1 else 0;
      assert Owned(s1, o) == Owned(s, o) - multiset(fields)[o];
    }
  }

  lemma HandleStepConserves(s: State, t: Tid, a: Action)
    requires Inv(s) && Enabled(s, t, a)
    requires a.CloneBound? || a.CloneRef? || a.ClonePy? || a.Borrow? || a.DropBound?
    ensures Conserved(Do(s, t, a)) && !Do(s, t, a).fault
  {
    hide GilOk, Owned;
    var th := s.threads[t];
    if th.count > 0 {
      TokenOwns(s, t);
      match a
      case CloneBound(o) => CloneConserves(s, t, o, SetThread(s, t, th.(bound := th.bound + multiset{o})));
      case Borrow(o) => CloneConserves(s, t, o, SetThread(s, t, th.(bound := th.bound + multiset{o})));
      case CloneRef(o) => CloneConserves(s, t, o, s.(py := s.py + multiset{o}));
      case ClonePy(o) => CloneConserves(s, t, o, s.(py := s.py + multiset{o}));
      case DropBound(o) => DropConserves(s, t, o, SetThread(s, t, th.(bound := th.bound - multiset{o})));
    }
  }

  lemma DropPyConserves(s: State, t: Tid, o: Obj)
    requires Inv(s) && Enabled(s, t, DropPy(o))
    ensures Conserved(Do(s, t, DropPy(o))) && !Do(s, t, DropPy(o)).fault
  {
    if s.threads[t].count > 0 {
      TokenOwns(s, t);
      DropConserves(s, t, o, s.(py := s.py - multiset{o}));
    } else {
      Moved(s, Do(s, t, DropPy(o)), t, 0, 0);
    }
  }

  lemma ReleaseStepConserves(s: State, t: Tid, a: Action)
    requires Inv(s) && Enabled(s, t, a) && (a.DrainNext? || a.FinalizeNext?)
    ensures Conserved(Do(s, t, a)) && !Do(s, t, a).fault
  {
    var th := s.threads[t];
    assert ThreadOk(th, s.owner == Some(t), s.mutex == Some(t));
    var f := th.stack.top;
    var r := if a.DrainNext? then f.rest else f.fields;
    if r == [] {
      Moved(s, Do(s, t, a), t, 0, 0);
    } else {
      ReleaseConserves(s, t, f, if a.DrainNext? then Draining(r[1..]) else Finalizing(r[1..]), r[0]);
    }
  }

  // decrement_gil_count never fails its assertion.
  lemma CountDownIsSafe(s: State, t: Tid, a: Action)
    requires GilOk(s) && !s.fault && Enabled(s, t, a) && CountsDown(a)
    ensures !Do(s, t, a).fault
  {
    var th := s.threads[t];
    assert ThreadOk(th, s.owner == Some(t), s.mutex == Some(t));
  }

  // Every step keeps the refcounts right, and no step touches a freed object or a refcount without the GIL.
  lemma StepConserves(s: State, t: Tid, a: Action)
    requires Inv(s) && Enabled(s, t, a)
    ensures Conserved(Do(s, t, a)) && !Do(s, t, a).fault
  {
    hide Do, Conserved, GilOk;
    if ControlOnly(a) {
      ControlConserves(s, t, a);
    } else {
      match a
      case SwapPool => PoolConserves(s, t, a);
      case PushPool => PoolConserves(s, t, a);
      case Transfer(o, from, to) => TransferConserves(s, t, o, from, to);
      case NewObject(fields, deeds) => NewObjectConserves(s, t, fields, deeds);
      case DropPy(o) => DropPyConserves(s, t, o);
      case DrainNext => ReleaseStepConserves(s, t, a);
      case FinalizeNext => ReleaseStepConserves(s, t, a);
      case _ => HandleStepConserves(s, t, a);
    }
  }

  // ---------------------------------------------------------------- ownership, step by step

  // The lock changes hands only through the thread that steps.
  predicate PassedBy(t: Tid, before: Option<Tid>, after: Option<Tid>) {
    after == before || (before.None? && after == Some(t)) || (before == Some(t) && after.None?)
  }

  // What a step does to the thread that takes it and to the two locks. Only a guard that is counted
  // below zero is lost.
  predicate StepOk(s: State, t: Tid, s': State) {
    && t < |s.threads| == |s'.threads| && s'.threads == s.threads[t := s'.threads[t]]
    && PassedBy(t, s.owner, s'.owner) && PassedBy(t, s.mutex, s'.mutex)
    && ThreadOk(s'.threads[t], s'.owner == Some(t), s'.mutex == Some(t))
    && s'.threads[t].calls.leaked
       == s.threads[t].calls.leaked + if s.threads[t].phase.Counting? && s.threads[t].count < 0 then 1 else 0
  }

  lemma ThreadIsOk(s: State, t: Tid)
    requires GilOk(s) && t < |s.threads|
    ensures ThreadOk(s.threads[t], s.owner == Some(t), s.mutex == Some(t))
  {
  }

  lemma InterpreterStep(s: State, t: Tid, a: Action)
    requires GilOk(s) && Enabled(s, t, a) && (a.Attach? || a.Detach? || a.Yield? || a.Resume?)
    ensures StepOk(s, t, Do(s, t, a))
  {
    hide GilOk;
    ThreadIsOk(s, t);
  }

  lemma AcquireStep(s: State, t: Tid, a: Action)
    requires GilOk(s) && Enabled(s, t, a) && (a.Acquire? || a.EnsureReturns? || a.CountGuard? || a.Assume?)
    ensures StepOk(s, t, Do(s, t, a))
  {
    hide GilOk;
    ThreadIsOk(s, t);
    PositiveCountHolds(s.threads[t].stack, s.threads[t].attached);
  }

  lemma ReleaseStep(s: State, t: Tid, a: Action)
    requires GilOk(s) && Enabled(s, t, a) && (a.DropGuard? || a.Decrement?)
    ensures StepOk(s, t, Do(s, t, a))
  {
    hide GilOk;
    ThreadIsOk(s, t);
  }

  lemma SuspendStep(s: State, t: Tid, a: Action)
    requires GilOk(s) && Enabled(s, t, a)
    requires a.Suspend? || a.SaveThread? || a.DropSuspend? || a.RestoreThread?
    ensures StepOk(s, t, Do(s, t, a))
  {
    hide GilOk;
    ThreadIsOk(s, t);
    PositiveCountHolds(s.threads[t].stack, s.threads[t].attached);
  }

  // A guard under the fields of a deallocator changes nothing but the count.
  lemma GuardedStack(f: Frame, b: Stack, attached: bool)
    requires f.Finalizing?
    ensures Nested(Push(f, b), attached) <==> Nested(Push(f, Push(Guarding, b)), attached)
    ensures Count(Push(f, Push(Guarding, b))) == Count(Push(f, b)) + 1
    ensures EnsuredFrames(Push(f, Push(Guarding, b))) == EnsuredFrames(Push(f, b))
    ensures SuspendedFrames(Push(f, Push(Guarding, b))) == SuspendedFrames(Push(f, b))
  {
    var guarded := Push(Guarding, b);
    assert Count(guarded) == Count(b) + 1 && EnsuredFrames(guarded) == EnsuredFrames(b);
    assert SuspendedFrames(guarded) == SuspendedFrames(b);
    assert Nested(guarded, attached) <==> Nested(b, attached) && Holds(b, attached) && Count(b) > 0;
  }

  lemma FieldGuardStep(s: State, t: Tid, a: Action)
    requires GilOk(s) && Enabled(s, t, a) && (a.GuardFields? || a.UnguardFields?)
    ensures StepOk(s, t, Do(s, t, a))
  {
    hide GilOk, Nested, Count, EnsuredFrames, SuspendedFrames;
    ThreadIsOk(s, t);
    var th := s.threads[t];
    GuardedStack(th.stack.top, if a.GuardFields? then th.stack.below else th.stack.below.below, th.attached);
  }

  lemma TraverseStep(s: State, t: Tid, a: Action)
    requires GilOk(s) && Enabled(s, t, a) && (a.LockTraverse? || a.UnlockTraverse?)
    ensures StepOk(s, t, Do(s, t, a))
  {
    hide GilOk;
    ThreadIsOk(s, t);
  }

  lemma PoolStep(s: State, t: Tid, a: Action)
    requires GilOk(s) && Enabled(s, t, a) && (a.TakeMutex? || a.SwapPool? || a.PushPool?)
    ensures StepOk(s, t, Do(s, t, a))
  {
    hide GilOk;
    ThreadIsOk(s, t);
  }

  // A release keeps the thread in order, whether or not it enters a deallocator.
  lemma DecrefStep(s: State, t: Tid, o: Obj)
    requires t < |s.threads| && ThreadOk(s.threads[t], s.owner == Some(t), s.mutex == Some(t))
    requires s.threads[t].phase.Running? && s.threads[t].count > 0
    ensures StepOk(s, t, Decref(s, t, o)) && Decref(s, t, o).owner == s.owner && Decref(s, t, o).mutex == s.mutex
  {
    PositiveCountHolds(s.threads[t].stack, s.threads[t].attached);
  }

  lemma ReleaseRefStep(s: State, t: Tid, a: Action)
    requires GilOk(s) && Enabled(s, t, a) && (a.DrainNext? || a.FinalizeNext?)
    ensures StepOk(s, t, Do(s, t, a))
  {
    hide GilOk;
    var th := s.threads[t];
    ThreadIsOk(s, t);
    var r := if a.DrainNext? then th.stack.top.rest else th.stack.top.fields;
    if r != [] {
      var f := if a.DrainNext? then Draining(r[1..]) else Finalizing(r[1..]);
      DecrefStep(SetThread(s, t, th.(stack := Push(f, th.stack.below))), t, r[0]);
    }
  }

  lemma StepOkKeepsGilOk(s: State, t: Tid, s': State)
    requires GilOk(s) && StepOk(s, t, s')
    ensures GilOk(s')
  {
    forall u | 0 <= u < |s'.threads|
      ensures ThreadOk(s'.threads[u], s'.owner == Some(u), s'.mutex == Some(u))
    {
      if u != t {
        assert s'.threads[u] == s.threads[u];
        assert ThreadOk(s.threads[u], s.owner == Some(u), s.mutex == Some(u));
      }
    }
  }

  // Handles play no part in who may run.
  lemma BoundStep(s: State, t: Tid, s': State)
    requires GilOk(s) && t < |s.threads| == |s'.threads| && s'.owner == s.owner && s'.mutex == s.mutex
    requires s'.threads == s.threads[t := s.threads[t].(bound := s'.threads[t].bound)]
    requires s.threads[t].phase.Running?
    ensures StepOk(s, t, s')
  {
    assert ThreadOk(s.threads[t], s.owner == Some(t), s.mutex == Some(t));
  }

  lemma HandleStep(s: State, t: Tid, a: Action)
    requires GilOk(s) && Enabled(s, t, a)
    requires a.NewObject? || a.CloneBound? || a.CloneRef? || a.ClonePy? || a.Borrow?
    ensures StepOk(s, t, Do(s, t, a))
  {
    hide GilOk, StepOk, ThreadOk;
    BoundStep(s, t, Do(s, t, a));
  }

  // s' differs from s at most in handles.
  predicate SameButHandles(s: State, t: Tid, s': State) {
    && t < |s.threads| == |s'.threads| && s'.owner == s.owner && s'.mutex == s.mutex
    && s'.threads == s.threads[t := s.threads[t].(bound := s'.threads[t].bound)]
  }

  lemma WithHandlesStep(s: State, t: Tid, k: Handle, m: multiset<Obj>)
    requires t < |s.threads|
    ensures SameButHandles(s, t, WithHandles(s, t, k, m))
  {
  }

  lemma TransferStep(s: State, t: Tid, o: Obj, from: Handle, to: Handle)
    requires GilOk(s) && Enabled(s, t, Transfer(o, from, to))
    ensures StepOk(s, t, Do(s, t, Transfer(o, from, to)))
  {
    hide GilOk, StepOk, WithHandles;
    var s1 := WithHandles(s, t, from, HandlesOf(s, t, from) - multiset{o});
    WithHandlesStep(s, t, from, HandlesOf(s, t, from) - multiset{o});
    WithHandlesStep(s1, t, to, HandlesOf(s1, t, to) + multiset{o});
    BoundStep(s, t, WithHandles(s1, t, to, HandlesOf(s1, t, to) + multiset{o}));
  }

  lemma BoundIsNoMatter(th: Thread, owns: bool, locks: bool, m: multiset<Obj>)
    requires ThreadOk(th, owns, locks)
    ensures ThreadOk(th.(bound := m), owns, locks)
  {
  }

  // A step from a state that differs in handles only.
  lemma StepFromHandles(s: State, t: Tid, s1: State, s': State)
    requires SameButHandles(s, t, s1) && StepOk(s1, t, s')
    ensures StepOk(s, t, s')
  {
    hide ThreadOk;
  }

  lemma DropBoundStep(s: State, t: Tid, o: Obj)
    requires GilOk(s) && Enabled(s, t, DropBound(o))
    ensures StepOk(s, t, Do(s, t, DropBound(o)))
  {
    hide GilOk, StepOk, ThreadOk, Decref;
    var th := s.threads[t];
    ThreadIsOk(s, t);
    BoundIsNoMatter(th, s.owner == Some(t), s.mutex == Some(t), th.bound - multiset{o});
    var s1 := SetThread(s, t, th.(bound := th.bound - multiset{o}));
    DecrefStep(s1, t, o);
    StepFromHandles(s, t, s1, Decref(s1, t, o));
  }

  lemma DropPyStep(s: State, t: Tid, o: Obj)
    requires GilOk(s) && Enabled(s, t, DropPy(o)) && s.threads[t].count > 0
    ensures StepOk(s, t, Do(s, t, DropPy(o)))
  {
    hide GilOk, StepOk, ThreadOk, Decref;
    ThreadIsOk(s, t);
    var s1 := s.(py := s.py - multiset{o});
    DecrefStep(s1, t, o);
    StepFromHandles(s, t, s1, Decref(s1, t, o));
  }

  lemma QueueStep(s: State, t: Tid, o: Obj)
    requires GilOk(s) && Enabled(s, t, DropPy(o)) && s.threads[t].count <= 0
    ensures StepOk(s, t, Do(s, t, DropPy(o)))
  {
    hide GilOk, Decref;
    ThreadIsOk(s, t);
  }

  lemma StepIsOk(s: State, t: Tid, a: Action)
    requires GilOk(s) && Enabled(s, t, a)
    ensures StepOk(s, t, Do(s, t, a))
  {
    match a
    case Attach => InterpreterStep(s, t, a);
    case Detach => InterpreterStep(s, t, a);
    case Yield => InterpreterStep(s, t, a);
    case Resume => InterpreterStep(s, t, a);
    case Acquire => AcquireStep(s, t, a);
    case EnsureReturns => AcquireStep(s, t, a);
    case CountGuard => AcquireStep(s, t, a);
    case Assume => AcquireStep(s, t, a);
    case DropGuard => ReleaseStep(s, t, a);
    case Decrement => ReleaseStep(s, t, a);
    case Suspend => SuspendStep(s, t, a);
    case SaveThread => SuspendStep(s, t, a);
    case DropSuspend => SuspendStep(s, t, a);
    case RestoreThread => SuspendStep(s, t, a);
    case LockTraverse => TraverseStep(s, t, a);
    case UnlockTraverse => TraverseStep(s, t, a);
    case TakeMutex => PoolStep(s, t, a);
    case SwapPool => PoolStep(s, t, a);
    case PushPool => PoolStep(s, t, a);
    case DrainNext => ReleaseRefStep(s, t, a);
    case FinalizeNext => ReleaseRefStep(s, t, a);
    case GuardFields => FieldGuardStep(s, t, a);
    case UnguardFields => FieldGuardStep(s, t, a);
    case DropBound(o) => DropBoundStep(s, t, o);
    case DropPy(o) =>
      if s.threads[t].count > 0 {
        DropPyStep(s, t, o);
      } else {
        QueueStep(s, t, o);
      }
    case Transfer(o, from, to) => TransferStep(s, t, o, from, to);
    case _ => HandleStep(s, t, a);
  }

  // ---------------------------------------------------------------- all runs

  lemma StepKeepsInv(s: State, t: Tid, a: Action)
    requires Inv(s) && Enabled(s, t, a)
    ensures Inv(Do(s, t, a))
  {
    StepIsOk(s, t, a);
    StepOkKeepsGilOk(s, t, Do(s, t, a));
    StepConserves(s, t, a);
  }

  lemma FreshOwnsNothing(n: nat, o: Obj)
    ensures AllThreadRefs(seq(n, _ => Fresh()), o) == 0
  {
    if n > 0 {
      assert seq(n, _ => Fresh())[1..] == seq(n - 1, _ => Fresh());
      FreshOwnsNothing(n - 1, o);
    }
  }

  lemma InitInv(n: nat)
    ensures Inv(Init(n))
  {
    forall o: Obj ensures Owned(Init(n), o) == 0 { FreshOwnsNothing(n, o); }
  }

  lemma {:induction false} RunKeepsInv(s: State, es: seq<Event>)
    requires Inv(s) && Possible(s, es)
    ensures Inv(Exec(s, es))
    decreases |es|
  {
    if es != [] {
      var e := es[|es| - 1];
      RunKeepsInv(s, es[..|es| - 1]);
      StepKeepsInv(Exec(s, es[..|es| - 1]), e.t, e.a);
    }
  }

  // Every reachable state of any number of threads is a good one.
  lemma ReachableInv(n: nat, es: seq<Event>)
    requires Possible(Init(n), es)
    ensures Inv(Exec(Init(n), es))
  {
    InitInv(n);
    RunKeepsInv(Init(n), es);
  }
}
