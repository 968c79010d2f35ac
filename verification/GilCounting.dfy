/**
  How many decrefs a run can issue, for every run of any number of threads: drains and deallocators of
  one thread end even while the others run.
*/
module GilCounting {
  import opened GilMachine
  import opened GilProofs
  import opened GilWork
  import opened GilRuntime
  import opened Options

  // Does the action issue a Py_DECREF?
  predicate IssuesDecref(s: State, t: Tid, a: Action)
    requires Enabled(s, t, a)
  {
    match a
    case DrainNext => s.threads[t].stack.top.rest != []
    case FinalizeNext => s.threads[t].stack.top.fields != []
    case DropBound(_) => true
    case DropPy(_) => s.threads[t].count > 0
    case _ => false
  }

  // Does the action create a reference: a new object, or a Py_INCREF?
  predicate CreatesReference(s: State, t: Tid, a: Action)
    requires Enabled(s, t, a)
  {
    match a
    case NewObject(_, _) => true
    case CloneBound(_) => true
    case CloneRef(_) => true
    case ClonePy(_) => s.threads[t].count > 0
    case Borrow(_) => true
    case _ => false
  }

  lemma {:induction false} TotalCountAppend(heap: seq<Slot>, c: Slot)
    ensures TotalCount(heap + [c]) == TotalCount(heap) + SlotCount(c)
  {
    if heap == [] {
      assert [] + [c] == [c] && [c][1..] == [];
    } else {
      assert (heap + [c])[1..] == heap[1..] + [c];
      TotalCountAppend(heap[1..], c);
    }
  }

  lemma IncrefCounts(s: State, t: Tid, o: Obj)
    requires t < |s.threads| && !Incref(s, t, o).fault
    ensures TotalCount(Incref(s, t, o).heap) == TotalCount(s.heap) + 1
  {
    var c := s.heap[o];
    TotalCountUpdate(s.heap, o, Live(c.rc + 1, c.fields, c.deeds));
  }

  lemma DecrefCounts(s: State, t: Tid, o: Obj)
    requires t < |s.threads| && !Decref(s, t, o).fault
    ensures TotalCount(Decref(s, t, o).heap) + 1 == TotalCount(s.heap)
  {
    DecrefEffect(s, t, o);
  }

  lemma CreationCounts(s: State, t: Tid, a: Action)
    requires Enabled(s, t, a) && CreatesReference(s, t, a) && !Do(s, t, a).fault
    ensures TotalCount(Do(s, t, a).heap) == TotalCount(s.heap) + 1
  {
    hide TotalCount, Incref;
    var th := s.threads[t];
    match a
    case NewObject(fields, deeds) => TotalCountAppend(s.heap, Live(1, fields, deeds));
    case CloneBound(o) => IncrefCounts(SetThread(s, t, th.(bound := th.bound + multiset{o})), t, o);
    case CloneRef(o) => IncrefCounts(s.(py := s.py + multiset{o}), t, o);
    case ClonePy(o) => IncrefCounts(s.(py := s.py + multiset{o}), t, o);
    case Borrow(o) => IncrefCounts(SetThread(s, t, th.(bound := th.bound + multiset{o})), t, o);
  }

  lemma DecrefStepCounts(s: State, t: Tid, a: Action)
    requires Enabled(s, t, a) && IssuesDecref(s, t, a) && !Do(s, t, a).fault
    ensures TotalCount(Do(s, t, a).heap) + 1 == TotalCount(s.heap)
  {
    hide TotalCount, Decref;
    var th := s.threads[t];
    match a
    case DrainNext =>
      var r := th.stack.top.rest;
      DecrefCounts(SetThread(s, t, th.(stack := Push(Draining(r[1..]), th.stack.below))), t, r[0]);
    case FinalizeNext =>
      var r := th.stack.top.fields;
      DecrefCounts(SetThread(s, t, th.(stack := Push(Finalizing(r[1..]), th.stack.below))), t, r[0]);
    case DropBound(o) => DecrefCounts(SetThread(s, t, th.(bound := th.bound - multiset{o})), t, o);
    case DropPy(o) => DecrefCounts(s.(py := s.py - multiset{o}), t, o);
  }

  lemma OtherStepsKeepHeap(s: State, t: Tid, a: Action)
    requires Enabled(s, t, a) && !CreatesReference(s, t, a) && !IssuesDecref(s, t, a)
    ensures Do(s, t, a).heap == s.heap
  {
  }

  function Decrefs(s: State, es: seq<Event>): nat
    requires Possible(s, es)
    decreases |es|
  {
    if es == [] then 0
    else
      var front, e := es[..|es| - 1], es[|es| - 1];
      Decrefs(s, front) + if IssuesDecref(Exec(s, front), e.t, e.a) then 1 else 0
  }

  function Creations(s: State, es: seq<Event>): nat
    requires Possible(s, es)
    decreases |es|
  {
    if es == [] then 0
    else
      var front, e := es[..|es| - 1], es[|es| - 1];
      Creations(s, front) + if CreatesReference(Exec(s, front), e.t, e.a) then 1 else 0
  }

  // Over any run the decrefs of all threads are paid for by the references at its start and those created
  // on the way. So a drain, with every deallocator and every drain inside it, issues at most as many as
  // there were references when it took the pool, plus what anyone creates meanwhile.
  lemma {:induction false} DecrefsArePaidFor(s: State, es: seq<Event>)
    requires Inv(s) && Possible(s, es)
    ensures TotalCount(Exec(s, es).heap) + Decrefs(s, es) == TotalCount(s.heap) + Creations(s, es)
    decreases |es|
  {
    hide Do, Enabled, Inv, TotalCount, IssuesDecref, CreatesReference;
    if es != [] {
      var front, e := es[..|es| - 1], es[|es| - 1];
      DecrefsArePaidFor(s, front);
      RunKeepsInv(s, front);
      StepCounts(Exec(s, front), e.t, e.a);
    }
  }

  lemma StepCounts(s: State, t: Tid, a: Action)
    requires Inv(s) && Enabled(s, t, a)
    ensures TotalCount(Do(s, t, a).heap) + (if IssuesDecref(s, t, a) then 1 else 0)
            == TotalCount(s.heap) + if CreatesReference(s, t, a) then 1 else 0
  {
    hide Do, Enabled, TotalCount;
    StepKeepsInv(s, t, a);
    if IssuesDecref(s, t, a) {
      DecrefStepCounts(s, t, a);
    } else if CreatesReference(s, t, a) {
      CreationCounts(s, t, a);
    } else {
      OtherStepsKeepHeap(s, t, a);
    }
  }
}
