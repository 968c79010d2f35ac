/** The promises of the GIL runtime, for every run of any number of threads. */
module GilTheorems {
  import opened GilMachine
  import opened GilProofs
  import opened Options

  // ---------------------------------------------------------------- who holds the GIL

  // Two threads are never both in Rust code with a positive GIL count, and the one that is holds the GIL.
  lemma GilOwnershipSafety(n: nat, es: seq<Event>, t: Tid, u: Tid)
    requires Possible(Init(n), es)
    requires var s := Exec(Init(n), es);
             t < |s.threads| && u < |s.threads|
             && InRust(s.threads[t].phase) && s.threads[t].count > 0
             && InRust(s.threads[u].phase) && s.threads[u].count > 0
    ensures t == u && Exec(Init(n), es).owner == Some(t)
  {
    var s := Exec(Init(n), es);
    ReachableInv(n, es);
    assert ThreadOk(s.threads[t], s.owner == Some(t), s.mutex == Some(t));
    assert ThreadOk(s.threads[u], s.owner == Some(u), s.mutex == Some(u));
    PositiveCountHolds(s.threads[t].stack, s.threads[t].attached);
    PositiveCountHolds(s.threads[u].stack, s.threads[u].attached);
  }

  // A positive count without the GIL happens in exactly three places: between PyGILState_Release and the
  // decrement, between setting the count and PyEval_RestoreThread, and inside an interpreter call.
  lemma CountWithoutGil(n: nat, es: seq<Event>, t: Tid)
    requires Possible(Init(n), es) && t < |Exec(Init(n), es).threads|
    ensures var s := Exec(Init(n), es);
            var th := s.threads[t];
            th.count > 0 ==>
              (s.owner != Some(t) <==>
                 th.phase.Restoring? || th.phase.Yielded?
                 || (th.phase.Releasing? && th.stack.Push? && !Holds(th.stack.below, th.attached)))
  {
    var s := Exec(Init(n), es);
    ReachableInv(n, es);
    var th := s.threads[t];
    assert ThreadOk(th, s.owner == Some(t), s.mutex == Some(t));
    PositiveCountHolds(th.stack, th.attached);
  }

  // ---------------------------------------------------------------- references

  // The refcount of every object is the number of its owned references, wherever they are:
  // handles, heap fields, the pool, the rest of every drain and of every deallocator.
  lemma ReferenceConservation(n: nat, es: seq<Event>, o: Obj)
    requires Possible(Init(n), es)
    ensures var s := Exec(Init(n), es);
            RefCount(s.heap, o) == Owned(s, o)
            && (o < |s.heap| ==> (s.heap[o].Live? <==> Owned(s, o) > 0))
  {
    ReachableInv(n, es);
  }

  // No object with a live handle is ever freed, no refcount is touched after that or without the GIL,
  // and decrement_gil_count never sees a count that is not positive.
  lemma NoUseAfterFree(n: nat, es: seq<Event>, t: Tid, o: Obj)
    requires Possible(Init(n), es) && t < |Exec(Init(n), es).threads|
    requires var s := Exec(Init(n), es);
             o in s.py || o in s.raw || o in s.threads[t].bound || o in s.pool
    ensures var s := Exec(Init(n), es);
            !s.fault && o < |s.heap| && s.heap[o].Live?
            && s.heap[o].rc >= s.py[o] + s.raw[o] + multiset(s.pool)[o] + s.threads[t].bound[o]
  {
    var s := Exec(Init(n), es);
    ReachableInv(n, es);
    ThreadRefsBelow(s.threads, t, o);
    assert o in s.pool ==> multiset(s.pool)[o] > 0;
    assert RefCount(s.heap, o) == Owned(s, o) > 0;
  }

  // ---------------------------------------------------------------- the pool mutex

  predicate ChangesRefCounts(s: State, t: Tid, a: Action)
    requires Enabled(s, t, a)
  {
    Do(s, t, a).heap != s.heap
  }

  // No refcount moves while the mutex is held by the thread that moves it, and whoever holds
  // the mutex can give it back at once: the pool cannot deadlock, re-entered or not.
  lemma PoolMutexIsShort(n: nat, es: seq<Event>, t: Tid)
    requires Possible(Init(n), es)
    requires Exec(Init(n), es).mutex == Some(t)
    ensures var s := Exec(Init(n), es);
            && (forall a :: Enabled(s, t, a) ==> !ChangesRefCounts(s, t, a))
            && exists a :: Enabled(s, t, a) && Do(s, t, a).mutex.None?
  {
    var s := Exec(Init(n), es);
    ReachableInv(n, es);
    var th := s.threads[t];
    assert ThreadOk(th, s.owner == Some(t), s.mutex == Some(t));
    var back := if th.phase.Swapping? then SwapPool else PushPool;
    assert Enabled(s, t, back) && Do(s, t, back).mutex.None?;
  }

  // ---------------------------------------------------------------- scopes

  // The events of thread t that lose a guard: increment_gil_count panics after PyGILState_Ensure.
  function Leaks(s: State, es: seq<Event>, t: Tid): nat
    requires Possible(s, es)
    decreases |es|
  {
    if es == [] then 0
    else
      var front, e := es[..|es| - 1], es[|es| - 1];
      Leaks(s, front, t)
      + if e.t == t && e.a.CountGuard? && Exec(s, front).threads[t].count < 0 then 1 else 0
  }

  lemma StepLeaks(s: State, t: Tid, a: Action, u: Tid)
    requires GilOk(s) && Enabled(s, t, a) && u < |s.threads|
    ensures var s' := Do(s, t, a);
            |s'.threads| == |s.threads|
            && s'.threads[u].calls.leaked
               == s.threads[u].calls.leaked + if t == u && a.CountGuard? && s.threads[u].count < 0 then 1 else 0
  {
    hide Do, GilOk;
    StepIsOk(s, t, a);
    if t != u { assert Do(s, t, a).threads[u] == s.threads[u]; }
  }

  lemma {:induction false} RunLeaks(s: State, es: seq<Event>, t: Tid)
    requires Inv(s) && Possible(s, es) && t < |s.threads|
    ensures |Exec(s, es).threads| == |s.threads|
    ensures Exec(s, es).threads[t].calls.leaked == s.threads[t].calls.leaked + Leaks(s, es, t)
    decreases |es|
  {
    if es != [] {
      var front, e := es[..|es| - 1], es[|es| - 1];
      RunLeaks(s, front, t);
      RunKeepsInv(s, front);
      StepLeaks(Exec(s, front), e.t, e.a, t);
    }
  }

  lemma RunOneMore(s: State, es: seq<Event>, e: Event)
    requires Possible(s, es) && Enabled(Exec(s, es), e.t, e.a)
    ensures Possible(s, es + [e]) && Exec(s, es + [e]) == Do(Exec(s, es), e.t, e.a)
  {
    assert (es + [e])[..|es|] == es;
  }

  // A guard acquired by the code under a traverse lock: its Ensure is lost.
  lemma AcquiringUnderTraverseLeaks()
    ensures exists es :: Possible(Init(1), es) && Exec(Init(1), es).threads == [Fresh().(
              attached := true, count := -1, stack := Push(Traversing(0), Empty), calls := Calls(1, 0, 0, 0, 1))]
  {
    hide Possible, Exec;
    var es: seq<Event> := [];
    assert Possible(Init(1), es) && Exec(Init(1), es) == Init(1) by {
      EmptyRun(Init(1));
    }
    RunOneMore(Init(1), es, Event(0, Attach));
    es := es + [Event(0, Attach)];
    RunOneMore(Init(1), es, Event(0, LockTraverse));
    es := es + [Event(0, LockTraverse)];
    RunOneMore(Init(1), es, Event(0, Acquire));
    es := es + [Event(0, Acquire)];
    RunOneMore(Init(1), es, Event(0, EnsureReturns));
    es := es + [Event(0, EnsureReturns)];
    RunOneMore(Init(1), es, Event(0, CountGuard));
    es := es + [Event(0, CountGuard)];
    assert Possible(Init(1), es);
  }

  lemma EmptyRun(s: State)
    ensures Possible(s, []) && Exec(s, []) == s
  {
  }

  lemma SameStackSameCalls(th: Thread, th': Thread, owns: bool, owns': bool, locks: bool, locks': bool)
    requires ThreadOk(th, owns, locks) && ThreadOk(th', owns', locks')
    requires th.phase.Running? && th'.phase.Running? && th'.stack == th.stack
    ensures th'.count == th.count
    ensures th'.calls.saved - th.calls.saved == th'.calls.restored - th.calls.restored
    ensures (th'.calls.ensured - th.calls.ensured) - (th'.calls.released - th.calls.released)
            == th'.calls.leaked - th.calls.leaked
  {
  }

  // Whatever a thread did in between, panics included: once the guards that were open are the ones
  // that are open again, the count is what it was, every Save has its Restore, and every Ensure has
  // its Release but for the guards lost under a traverse lock. So the interpreter calls balance
  // exactly if no guard was acquired under a traverse lock.
  lemma ScopesRestore(s: State, es: seq<Event>, t: Tid)
    requires Inv(s) && Possible(s, es) && t < |s.threads|
    requires |Exec(s, es).threads| == |s.threads|
    requires s.threads[t].phase.Running? && Exec(s, es).threads[t].phase.Running?
    requires Exec(s, es).threads[t].stack == s.threads[t].stack
    ensures var th, th' := s.threads[t], Exec(s, es).threads[t];
            && th'.count == th.count
            && th'.calls.saved - th.calls.saved == th'.calls.restored - th.calls.restored
            && (th'.calls.ensured - th.calls.ensured) - (th'.calls.released - th.calls.released) == Leaks(s, es, t)
  {
    hide Exec, Possible, Leaks, ThreadOk;
    RunKeepsInv(s, es);
    RunLeaks(s, es, t);
    var s' := Exec(s, es);
    SameStackSameCalls(s.threads[t], s'.threads[t], s.owner == Some(t), s'.owner == Some(t),
                       s.mutex == Some(t), s'.mutex == Some(t));
  }

  // ---------------------------------------------------------------- the traverse lock

  predicate Traverses(s: State, t: Tid) {
    t < |s.threads| && s.threads[t].stack.Push? && s.threads[t].stack.top.Traversing?
  }

  predicate Unlocks(e: Event, t: Tid) {
    e.t == t && e.a.UnlockTraverse?
  }

  lemma TraverseStepFreezes(s: State, t: Tid, a: Action, u: Tid)
    requires Inv(s) && Enabled(s, t, a) && Traverses(s, u) && !Unlocks(Event(t, a), u)
    ensures Traverses(Do(s, t, a), u)
    ensures Do(s, t, a).threads[u].stack == s.threads[u].stack
    ensures Do(s, t, a).threads[u].count == s.threads[u].count == -1
    ensures t == u ==> Do(s, t, a).heap == s.heap
  {
    StepIsOk(s, t, a);
    assert ThreadOk(s.threads[u], s.owner == Some(u), s.mutex == Some(u));
    if t != u { assert Do(s, t, a).threads[u] == s.threads[u]; }
  }

  // While a traverse lock is innermost, its thread creates no guard and changes no refcount, whatever
  // it tries and whatever the other threads do; a Py dropped there ends up in the pool.
  lemma {:induction false} TraverseLockFreezes(s: State, es: seq<Event>, t: Tid)
    requires Inv(s) && Possible(s, es) && Traverses(s, t)
    requires forall i :: 0 <= i < |es| ==> !Unlocks(es[i], t)
    ensures Traverses(Exec(s, es), t)
    ensures Exec(s, es).threads[t].stack == s.threads[t].stack
    ensures Exec(s, es).threads[t].count == -1
    decreases |es|
  {
    if es == [] {
      assert ThreadOk(s.threads[t], s.owner == Some(t), s.mutex == Some(t));
    } else {
      var front, e := es[..|es| - 1], es[|es| - 1];
      TraverseLockFreezes(s, front, t);
      RunKeepsInv(s, front);
      TraverseStepFreezes(Exec(s, front), e.t, e.a, t);
    }
  }

  // Dropping a Py without a positive count defers its decref: the object keeps its refcount and the
  // reference moves to the pool.
  lemma DropWithoutGilDefers(s: State, t: Tid, o: Obj)
    requires Inv(s) && Enabled(s, t, DropPy(o)) && s.threads[t].count <= 0 && s.mutex.None?
    ensures var s1 := Do(s, t, DropPy(o));
            Enabled(s1, t, TakeMutex) &&
            var s2 := Do(s1, t, TakeMutex);
            Enabled(s2, t, PushPool) &&
            var s3 := Do(s2, t, PushPool);
            s3 == s.(py := s.py - multiset{o}, pool := s.pool + [o])
  {
    var th := s.threads[t];
    assert s.threads[t := th.(phase := Queueing(o))][t := th.(phase := Pushing(o))][t := th] == s.threads;
  }
}
