/**
  Which handles and which heap cells a step changes.
*/
module GilHandles {
  import opened GilMachine
  import opened GilProofs
  import opened GilCounting
  import opened Options

  // ---------------------------------------------------------------- handles

  // Py handles, owned pointers, and the Bound handles of thread t.
  datatype Handles = Handles(py: multiset<Obj>, raw: multiset<Obj>, bound: multiset<Obj>)

  function HandlesAt(s: State, t: Tid): Handles
    requires t < |s.threads|
  {
    Handles(s.py, s.raw, s.threads[t].bound)
  }

  lemma CountingKeepsHandles(s: State, t: Tid, o: Obj)
    requires t < |s.threads|
    ensures |Incref(s, t, o).threads| == |s.threads| == |Decref(s, t, o).threads|
    ensures HandlesAt(Incref(s, t, o), t) == HandlesAt(s, t) == HandlesAt(Decref(s, t, o), t)
  {
  }

  lemma HandlesPut(s: State, t: Tid, k: Handle, m: multiset<Obj>)
    requires t < |s.threads|
    ensures var s' := WithHandles(s, t, k, m);
            && |s'.threads| == |s.threads| && HandlesOf(s', t, k) == m
            && (forall j: Handle :: j != k ==> HandlesOf(s', t, j) == HandlesOf(s, t, j))
            && SameButHandles(s, s', t)
  {
  }

  predicate SameButHandles(s: State, s': State, t: Tid)
    requires t < |s.threads| == |s'.threads|
  {
    s' == s.(py := s'.py, raw := s'.raw, threads := s.threads[t := s.threads[t].(bound := s'.threads[t].bound)])
  }

  // A transfer takes one handle from one kind and gives it to the other; nothing else changes.
  lemma TransferMoves(s: State, t: Tid, o: Obj, from: Handle, to: Handle)
    requires Enabled(s, t, Transfer(o, from, to))
    ensures var s' := Do(s, t, Transfer(o, from, to));
            && |s'.threads| == |s.threads| && SameButHandles(s, s', t)
            && HandlesOf(s', t, from) == HandlesOf(s, t, from) - multiset{o}
            && HandlesOf(s', t, to) == HandlesOf(s, t, to) + multiset{o}
            && forall k: Handle :: k != from && k != to ==> HandlesOf(s', t, k) == HandlesOf(s, t, k)
  {
    hide WithHandles, HandlesOf, SameButHandles;
    var s1 := WithHandles(s, t, from, HandlesOf(s, t, from) - multiset{o});
    HandlesPut(s, t, from, HandlesOf(s, t, from) - multiset{o});
    HandlesPut(s1, t, to, HandlesOf(s1, t, to) + multiset{o});
    SameTwice(s, s1, WithHandles(s1, t, to, HandlesOf(s1, t, to) + multiset{o}), t);
  }

  lemma SameTwice(s0: State, s1: State, s2: State, t: Tid)
    requires t < |s0.threads| == |s1.threads| == |s2.threads| && SameButHandles(s0, s1, t) && SameButHandles(s1, s2, t)
    ensures SameButHandles(s0, s2, t)
  {
  }

  predicate MakesHandle(a: Action) {
    a.NewObject? || a.CloneBound? || a.Borrow? || a.CloneRef? || a.ClonePy?
  }

  function HandlesMade(s: State, t: Tid, a: Action): Handles
    requires t < |s.threads|
  {
    var h := HandlesAt(s, t);
    match a
    case NewObject(fields, _) => h.(raw := h.raw - multiset(fields), bound := h.bound + multiset{|s.heap|})
    case CloneBound(o) => h.(bound := h.bound + multiset{o})
    case Borrow(o) => h.(bound := h.bound + multiset{o})
    case CloneRef(o) => h.(py := h.py + multiset{o})
    case ClonePy(o) => if s.threads[t].count > 0 then h.(py := h.py + multiset{o}) else h
    case _ => h
  }

  // A clone or a borrow makes one handle of its kind, and a new object comes as a Bound, for the pointers that it
  // keeps. Cloning a Py without the GIL makes nothing.
  lemma MadeHandles(s: State, t: Tid, a: Action)
    requires Enabled(s, t, a) && MakesHandle(a)
    ensures |Do(s, t, a).threads| == |s.threads| && HandlesAt(Do(s, t, a), t) == HandlesMade(s, t, a)
  {
    hide Do, Enabled;
    if a.CloneBound? || a.Borrow? {
      MadeBound(s, t, a);
    } else if a.CloneRef? || a.ClonePy? {
      MadePy(s, t, a);
    } else {
      MadeObject(s, t, a);
    }
  }

  lemma MadeBound(s: State, t: Tid, a: Action)
    requires Enabled(s, t, a) && (a.CloneBound? || a.Borrow?)
    ensures |Do(s, t, a).threads| == |s.threads| && HandlesAt(Do(s, t, a), t) == HandlesMade(s, t, a)
  {
    hide Incref;
    var th := s.threads[t];
    CountingKeepsHandles(SetThread(s, t, th.(bound := th.bound + multiset{a.o})), t, a.o);
  }

  lemma MadePy(s: State, t: Tid, a: Action)
    requires Enabled(s, t, a) && (a.CloneRef? || a.ClonePy?)
    ensures |Do(s, t, a).threads| == |s.threads| && HandlesAt(Do(s, t, a), t) == HandlesMade(s, t, a)
  {
    hide Incref;
    CountingKeepsHandles(s.(py := s.py + multiset{a.o}), t, a.o);
  }

  lemma MadeObject(s: State, t: Tid, a: Action)
    requires Enabled(s, t, a) && a.NewObject?
    ensures |Do(s, t, a).threads| == |s.threads| && HandlesAt(Do(s, t, a), t) == HandlesMade(s, t, a)
  {
  }

  // A drop takes one handle of its kind, and no other step takes or makes one.
  lemma TakenHandles(s: State, t: Tid, a: Action)
    requires Inv(s) && Enabled(s, t, a) && !MakesHandle(a) && !a.Transfer?
    ensures var s', h := Do(s, t, a), HandlesAt(s, t);
            |s'.threads| == |s.threads| &&
            HandlesAt(s', t) ==
              match a
              case DropBound(o) => h.(bound := h.bound - multiset{o})
              case DropPy(o) => h.(py := h.py - multiset{o})
              case _ => h
  {
    if ControlOnly(a) {
      hide Do, Enabled, Conserved, GilOk;
      ControlMovesNothing(s, t, a);
    } else {
      hide Decref, Inv;
      var th := s.threads[t];
      match a
      case DropBound(o) => CountingKeepsHandles(SetThread(s, t, th.(bound := th.bound - multiset{o})), t, o);
      case DropPy(o) => CountingKeepsHandles(s.(py := s.py - multiset{o}), t, o);
      case DrainNext =>
        var r := th.stack.top.rest;
        if r != [] {
          CountingKeepsHandles(SetThread(s, t, th.(stack := Push(Draining(r[1..]), th.stack.below))), t, r[0]);
        }
      case FinalizeNext =>
        var r := th.stack.top.fields;
        if r != [] {
          CountingKeepsHandles(SetThread(s, t, th.(stack := Push(Finalizing(r[1..]), th.stack.below))), t, r[0]);
        }
      case _ =>
    }
  }

  lemma ControlMovesNothing(s: State, t: Tid, a: Action)
    requires Inv(s) && Enabled(s, t, a) && ControlOnly(a)
    ensures NothingMoved(s, t, Do(s, t, a))
  {
    hide Do, Enabled, Conserved, GilOk;
    if CallsInterpreter(a) {
      InterpreterMovesNothing(s, t, a);
    } else if MovesGuards(a) {
      GuardsMoveNothing(s, t, a);
    } else {
      FieldGuardsMoveNothing(s, t, a);
    }
  }

  // ---------------------------------------------------------------- cells

  // Live objects keep their fields and what their deallocators do until they are freed, and freed ones stay freed.
  predicate KeepsCells(heap: seq<Slot>, heap': seq<Slot>) {
    |heap| <= |heap'| &&
    forall o :: 0 <= o < |heap| ==>
      match heap[o]
      case Freed => heap'[o].Freed?
      case Live(_, fields, deeds) => heap'[o].Freed? || (heap'[o].fields == fields && heap'[o].deeds == deeds)
  }

  lemma CountingKeepsCells(s: State, t: Tid, o: Obj)
    requires t < |s.threads|
    ensures KeepsCells(s.heap, Incref(s, t, o).heap) && KeepsCells(s.heap, Decref(s, t, o).heap)
    ensures |Incref(s, t, o).heap| == |s.heap| == |Decref(s, t, o).heap|
  {
  }

  // Every step keeps the cells, and a new object has the fields and the deeds it is made with.
  lemma StepKeepsCells(s: State, t: Tid, a: Action)
    requires Enabled(s, t, a)
    ensures KeepsCells(s.heap, Do(s, t, a).heap)
    ensures if a.NewObject? then Do(s, t, a).heap == s.heap + [Live(1, a.fields, a.deeds)]
            else |Do(s, t, a).heap| == |s.heap|
  {
    hide Incref, Decref;
    if IssuesDecref(s, t, a) {
      hide KeepsCells;
      DecrefStepKeepsCells(s, t, a);
    } else if CreatesReference(s, t, a) {
      IncrefStepKeepsCells(s, t, a);
    } else {
      OtherStepsKeepHeap(s, t, a);
    }
  }

  lemma IncrefStepKeepsCells(s: State, t: Tid, a: Action)
    requires Enabled(s, t, a) && CreatesReference(s, t, a)
    ensures KeepsCells(s.heap, Do(s, t, a).heap)
    ensures if a.NewObject? then Do(s, t, a).heap == s.heap + [Live(1, a.fields, a.deeds)]
            else |Do(s, t, a).heap| == |s.heap|
  {
    hide Incref;
    var th := s.threads[t];
    match a
    case NewObject(_, _) =>
    case CloneBound(o) => CountingKeepsCells(SetThread(s, t, th.(bound := th.bound + multiset{o})), t, o);
    case CloneRef(o) => CountingKeepsCells(s.(py := s.py + multiset{o}), t, o);
    case ClonePy(o) => CountingKeepsCells(s.(py := s.py + multiset{o}), t, o);
    case Borrow(o) => CountingKeepsCells(SetThread(s, t, th.(bound := th.bound + multiset{o})), t, o);
  }

  lemma DecrefStepKeepsCells(s: State, t: Tid, a: Action)
    requires Enabled(s, t, a) && IssuesDecref(s, t, a)
    ensures KeepsCells(s.heap, Do(s, t, a).heap) && |Do(s, t, a).heap| == |s.heap|
  {
    hide Decref, KeepsCells;
    var th := s.threads[t];
    match a
    case DrainNext =>
      var r := th.stack.top.rest;
      CountingKeepsCells(SetThread(s, t, th.(stack := Push(Draining(r[1..]), th.stack.below))), t, r[0]);
    case FinalizeNext =>
      var r := th.stack.top.fields;
      CountingKeepsCells(SetThread(s, t, th.(stack := Push(Finalizing(r[1..]), th.stack.below))), t, r[0]);
    case DropBound(o) => CountingKeepsCells(SetThread(s, t, th.(bound := th.bound - multiset{o})), t, o);
    case DropPy(o) => CountingKeepsCells(s.(py := s.py - multiset{o}), t, o);
  }
}
