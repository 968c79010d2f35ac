/**
  The functions of the GIL runtime as methods: each takes the machine's steps in the order of
  the source, on behalf of one thread that no other thread interrupts. A process remembers the
  run that led to its state, so all that holds of every run holds of it.
*/
module GilRuntime {
  import opened GilMachine
  import opened GilProofs
  import opened GilTheorems
  import opened GilWork
  import opened Options

  // ---------------------------------------------------------------- one decref

  // What one Py_DECREF does: the total falls by one, and either the stack is as it was, or a deallocator is on
  // top and its work has left the heap.
  lemma DecrefEffect(s: State, t: Tid, o: Obj)
    requires t < |s.threads| && MayTouch(s, t, o)
    ensures var s', th, c := Decref(s, t, o), s.threads[t], s.heap[o];
            && TotalCount(s'.heap) == TotalCount(s.heap) - 1
            && HeapWork(s.heap) == Plus(HeapWork(s'.heap), FreedWork(c))
            && s' == s.(heap := s'.heap, threads := s'.threads) && |s'.heap| == |s.heap|
            && s'.threads == if c.rc > 1 then s.threads
                             else s.threads[t := th.(stack := Push(Finalizing(c.fields), th.stack))]
  {
    hide WorkOf;
    var c := s.heap[o];
    var c' := if c.rc > 1 then Live(c.rc - 1, c.fields, c.deeds) else Freed;
    TotalCountUpdate(s.heap, o, c');
    HeapWorkUpdate(s.heap, o, c');
    SlotWorkFalls(HeapWork(s.heap), HeapWork(s.heap[o := c']), SlotWork(c), c.rc > 1);
    assert s.threads[t := s.threads[t]] == s.threads;
  }

  // The work that one decref of this object sets free.
  function FreedWork(c: Slot): Work
    requires c.Live?
  {
    if c.rc > 1 then IDLE else WorkOf(c.deeds, true)
  }

  lemma SlotWorkFalls(h: Work, h': Work, w: Work, kept: bool)
    requires Plus(h', w) == Plus(h, if kept then w else IDLE)
    ensures h == Plus(h', if kept then IDLE else w)
  {
    assert (h'.drops + w.drops) - w.drops == h'.drops && (h.drops + w.drops) - w.drops == h.drops;
    assert h.drops + multiset{} == h.drops && h'.drops + multiset{} == h'.drops;
  }

  function Pending(f: Frame): seq<Obj>
    requires f.Draining? || f.Finalizing?
  {
    if f.Draining? then f.rest else f.fields
  }

  function WithPending(f: Frame, rest: seq<Obj>): Frame
    requires f.Draining? || f.Finalizing?
  {
    if f.Draining? then Draining(rest) else Finalizing(rest)
  }

  predicate Releases(s: State, t: Tid, a: Action) {
    (a.DrainNext? || a.FinalizeNext?) && Enabled(s, t, a) && s.mutex.None?
  }

  // Client code of thread t runs, nobody else holds the GIL, and nobody holds the pool mutex.
  predicate Calm(s: State, t: Tid) {
    t < |s.threads| && InClient(s.threads[t]) && s.mutex.None? && (s.owner.None? || s.owner == Some(t))
  }

  // The thread after GILGuard::acquire.
  function Acquired(s: State, t: Tid): Thread
    requires t < |s.threads|
  {
    var th := s.threads[t];
    if th.count > 0 then th.(count := th.count + 1, stack := Push(Assumed, th.stack))
    else
      var ensured := th.calls.(ensured := th.calls.ensured + 1);
      if th.count < 0 then th.(calls := ensured.(leaked := ensured.leaked + 1))
      else th.(count := 1, calls := ensured,
               stack := Push(Ensured(if s.owner.None? then WasUnlocked else WasLocked), th.stack))
  }

  // ---------------------------------------------------------------- what a drain leaves alone

  // From s to s' thread t and the owner of the GIL became as given, and work w was done. Otherwise only refcounts,
  // freed objects and the pool changed, and the work of the deallocators that ran was done as well.
  predicate Became(s: State, s': State, t: Tid, th: Thread, owner: Option<Tid>, w: Work)
    requires t < |s.threads|
  {
    && s'.owner == owner && s'.mutex == s.mutex && s'.raw == s.raw
    && |s'.heap| == |s.heap| && TotalCount(s'.heap) <= TotalCount(s.heap)
    && Falls(s.heap, s'.heap)
    && s'.py == s.py - Done(s.heap, s'.heap, w).drops
    && s'.threads == s.threads[t := th.(calls := Called(th.calls, Done(s.heap, s'.heap, w)))]
  }

  // ... and of the thread only the stack.
  predicate OnlyReleased(s: State, s': State, t: Tid, st: Stack, w: Work)
    requires t < |s.threads|
  {
    Became(s, s', t, s.threads[t].(stack := st, phase := Running), s.owner, w)
  }

  lemma BecameTwice(s0: State, s1: State, s2: State, t: Tid, th1: Thread, th2: Thread,
                    owner1: Option<Tid>, owner2: Option<Tid>, v: Work, w: Work)
    requires t < |s0.threads| && Became(s0, s1, t, th1, owner1, v)
    requires Became(s1, s2, t, th2.(calls := Called(th2.calls, Done(s0.heap, s1.heap, v))), owner2, w)
    ensures Became(s0, s2, t, th2, owner2, Plus(v, w))
  {
    hide TotalCount, HeapWork, Done, Falls;
    DoneTwice(s0.heap, s1.heap, s2.heap, v, w);
    TwiceDropped(s0.py, Done(s0.heap, s1.heap, v).drops, Done(s1.heap, s2.heap, w).drops);
  }

  // A step that changes neither the heap nor the handles.
  lemma BecameAtOnce(s: State, s': State, t: Tid, th: Thread, owner: Option<Tid>)
    requires t < |s.threads| && s'.heap == s.heap && s'.py == s.py && s'.raw == s.raw && s'.mutex == s.mutex
    requires s'.threads == s.threads[t := th] && s'.owner == owner
    ensures Became(s, s', t, th, owner, IDLE)
  {
    hide TotalCount, HeapWork, Done, Falls;
    NothingDone(s.heap, IDLE);
    assert s.py - multiset{} == s.py;
  }

  lemma PlusIdle(w: Work)
    ensures Plus(w, IDLE) == w == Plus(IDLE, w)
  {
    assert w.drops + multiset{} == w.drops && multiset{} + w.drops == w.drops;
  }

  lemma ReleasedFurther(s0: State, s1: State, s2: State, t: Tid, st1: Stack, st2: Stack, v: Work, w: Work)
    requires t < |s0.threads| && OnlyReleased(s0, s1, t, st1, v) && OnlyReleased(s1, s2, t, st2, w)
    ensures OnlyReleased(s0, s2, t, st2, Plus(v, w)) && |s2.threads| == |s0.threads|
    ensures s2.threads[t].stack == st2 && s2.threads[t].phase.Running? && s2.mutex == s0.mutex
  {
    hide TotalCount, HeapWork, Done, Falls;
    var th := s0.threads[t];
    BecameTwice(s0, s1, s2, t, th.(stack := st1, phase := Running), th.(stack := st2, phase := Running),
                s0.owner, s0.owner, v, w);
  }

  lemma ReleasedMeans(s: State, s': State, t: Tid, st: Stack, w: Work)
    requires t < |s.threads| && OnlyReleased(s, s', t, st, w)
    ensures |s'.threads| == |s.threads| && s'.raw == s.raw && s'.owner == s.owner && s'.mutex == s.mutex
    ensures s'.threads == s.threads[t := s.threads[t].(stack := st, phase := Running, calls := s'.threads[t].calls)]
    ensures TotalCount(s'.heap) <= TotalCount(s.heap)
  {
    hide TotalCount, HeapWork, Done, Falls;
  }

  // A thread that changed and then drained the pool.
  lemma PolledBecomes(s0: State, s1: State, s2: State, t: Tid, th: Thread, owner: Option<Tid>)
    requires t < |s0.threads| && s1 == SetThread(s0.(owner := owner), t, th.(phase := Polling)) && th.phase.Running?
    requires OnlyReleased(s1, s2, t, th.stack, IDLE)
    ensures Became(s0, s2, t, th, owner, IDLE)
  {
    hide TotalCount, HeapWork, Done, Falls;
  }

  // A decref: the work of a freed object has left the heap, and its deallocator is about to do it.
  predicate Decreffed(s: State, s': State, t: Tid, st: Stack, w: Work)
    requires t < |s.threads|
  {
    && s'.owner == s.owner && s'.mutex == s.mutex && s'.raw == s.raw && s'.py == s.py && s'.pool == s.pool
    && |s'.heap| == |s.heap| && TotalCount(s'.heap) < TotalCount(s.heap)
    && HeapWork(s.heap) == Plus(HeapWork(s'.heap), w)
    && s'.threads == s.threads[t := s.threads[t].(stack := st)]
  }

  lemma DecreffedFurther(s0: State, s1: State, s2: State, t: Tid, st1: Stack, st2: Stack, w: Work)
    requires t < |s0.threads| && s0.threads[t].phase.Running?
    requires Decreffed(s0, s1, t, st1, w) && OnlyReleased(s1, s2, t, st2, w)
    ensures OnlyReleased(s0, s2, t, st2, IDLE) && TotalCount(s2.heap) < TotalCount(s0.heap)
  {
    hide TotalCount, HeapWork, Done, Falls;
    DoneBy(s0.heap, s1.heap, s2.heap, w);
  }

  lemma AlreadyReleased(s: State, t: Tid)
    requires t < |s.threads| && s.threads[t].phase.Running?
    ensures OnlyReleased(s, s, t, s.threads[t].stack, IDLE)
  {
    hide Became;
    BecameAtOnce(s, s, t, s.threads[t], s.owner);
    assert s.threads[t := s.threads[t]] == s.threads;
  }

  lemma OnlyDecreffed(s: State, s': State, t: Tid, st: Stack)
    requires t < |s.threads| && s.threads[t].phase.Running? && Decreffed(s, s', t, st, IDLE)
    ensures OnlyReleased(s, s', t, st, IDLE)
  {
    hide TotalCount, HeapWork, Done, Falls;
    AlreadyReleased(s', t);
    DecreffedFurther(s, s', s', t, st, st, IDLE);
  }

  // Every reference that went away was released exactly once: the dropped handles, what left the pool,
  // and what the freed objects held.
  ghost predicate ReleasedOnce(s: State, s': State) {
    forall o: Obj ::
      RefCount(s.heap, o) - RefCount(s'.heap, o)
      == (s.py[o] - s'.py[o]) + (multiset(s.pool)[o] - multiset(s'.pool)[o])
         + (AllSlotRefs(s.heap, o) - AllSlotRefs(s'.heap, o))
  }

  lemma ReleasedOnceFrom(s0: State, s1: State, s2: State)
    requires s1.heap == s0.heap && s1.pool == s0.pool && s1.py == s0.py && ReleasedOnce(s1, s2)
    ensures ReleasedOnce(s0, s2)
  {
  }

  // By conservation at both ends.
  lemma ReleasesOnce(s: State, s': State, t: Tid)
    requires Inv(s) && Inv(s') && t < |s.threads|
    requires s.threads[t].phase.Polling? || s.threads[t].phase.Running?
    requires |s'.threads| == |s.threads| && s'.raw == s.raw
    requires s'.threads == s.threads[t := s.threads[t].(phase := Running, calls := s'.threads[t].calls)]
    ensures ReleasedOnce(s, s')
  {
    var th := s.threads[t].(phase := Running, calls := s'.threads[t].calls);
    forall o: Obj
      ensures RefCount(s.heap, o) - RefCount(s'.heap, o)
              == (s.py[o] - s'.py[o]) + (multiset(s.pool)[o] - multiset(s'.pool)[o])
                 + (AllSlotRefs(s.heap, o) - AllSlotRefs(s'.heap, o))
    {
      ThreadRefsUpdate(s.threads, t, th, o);
      assert ThreadRefs(th, o) == ThreadRefs(s.threads[t], o);
    }
  }

  // The reference that is released next belongs to a live object, and the thread holds the GIL.
  lemma ReleaseMayTouch(s: State, t: Tid, a: Action)
    requires Inv(s) && Releases(s, t, a) && Pending(s.threads[t].stack.top) != []
    ensures MayTouch(s, t, Pending(s.threads[t].stack.top)[0])
  {
    var th := s.threads[t];
    var o := Pending(th.stack.top)[0];
    assert ThreadOk(th, s.owner == Some(t), s.mutex == Some(t));
    ThreadRefsBelow(s.threads, t, o);
    assert multiset(Pending(th.stack.top))[o] > 0;
    assert RefCount(s.heap, o) == Owned(s, o) > 0;
  }

  // update_counts takes the whole pool and gives the mutex back before the first decref.
  lemma SwapEffect(s: State, t: Tid)
    requires t < |s.threads| && s.threads[t].phase.Polling? && s.mutex.None?
    ensures Enabled(s, t, TakeMutex) && Enabled(Do(s, t, TakeMutex), t, SwapPool)
    ensures var s' := Do(Do(s, t, TakeMutex), t, SwapPool);
            && OnlyReleased(s, s', t, Drained(s, t), IDLE)
            && s'.threads[t].phase.Running? && s'.threads[t].stack == Drained(s, t) && s'.mutex.None? && s'.pool == []
  {
    hide Became;
    var s' := Do(Do(s, t, TakeMutex), t, SwapPool);
    BecameAtOnce(s, s', t, s.threads[t].(phase := Running, stack := Drained(s, t)), s.owner);
  }

  function Drained(s: State, t: Tid): Stack
    requires t < |s.threads|
  {
    if s.pool == [] then s.threads[t].stack else Push(Draining(s.pool), s.threads[t].stack)
  }

  // One Py_DECREF of a drain or of a deallocator.
  lemma ReleaseEffect(s: State, t: Tid, a: Action)
    requires Releases(s, t, a) && Pending(s.threads[t].stack.top) != []
    requires MayTouch(s, t, Pending(s.threads[t].stack.top)[0])
    ensures var was, c := s.threads[t].stack, s.heap[Pending(s.threads[t].stack.top)[0]];
            var next := Push(WithPending(was.top, Pending(was.top)[1..]), was.below);
            Decreffed(s, Do(s, t, a), t, if c.rc == 1 then Push(Finalizing(c.fields), next) else next, FreedWork(c))
  {
    hide HeapWork, TotalCount, FreedWork;
    var was := s.threads[t].stack;
    var next := Push(WithPending(was.top, Pending(was.top)[1..]), was.below);
    var s1 := SetThread(s, t, s.threads[t].(stack := next));
    DecrefEffect(s1, t, Pending(was.top)[0]);
  }

  lemma DropPyEffect(s: State, t: Tid, o: Obj)
    requires Calm(s, t) && o in s.py && s.threads[t].count > 0 && MayTouch(s, t, o)
    ensures var st, c := s.threads[t].stack, s.heap[o];
            Decreffed(s.(py := s.py - multiset{o}), Do(s, t, DropPy(o)), t,
                      if c.rc == 1 then Push(Finalizing(c.fields), st) else st, FreedWork(c))
  {
    hide HeapWork, TotalCount, FreedWork;
    DecrefEffect(s.(py := s.py - multiset{o}), t, o);
  }

  lemma PopEffect(s: State, t: Tid, a: Action)
    requires Releases(s, t, a) && Pending(s.threads[t].stack.top) == []
    ensures OnlyReleased(s, Do(s, t, a), t, s.threads[t].stack.below, IDLE) && Do(s, t, a).pool == s.pool
  {
    hide Became;
    BecameAtOnce(s, Do(s, t, a), t, s.threads[t].(stack := s.threads[t].stack.below), s.owner);
  }

  function FieldsGuarded(s: State, t: Tid): State
    requires t < |s.threads| && s.threads[t].stack.Push?
  {
    var th := s.threads[t];
    SetThread(s, t, th.(count := th.count + 1, phase := Polling,
                        stack := Push(th.stack.top, Push(Guarding, th.stack.below))))
  }

  function FieldsUnguarded(s: State, t: Tid): State
    requires t < |s.threads| && s.threads[t].stack.Push? && s.threads[t].stack.below.Push?
  {
    var th := s.threads[t];
    SetThread(s, t, th.(count := th.count - 1, stack := Push(th.stack.top, th.stack.below.below)))
  }

  lemma FieldGuardEffect(s: State, t: Tid)
    ensures Enabled(s, t, GuardFields) ==> Do(s, t, GuardFields) == FieldsGuarded(s, t)
    ensures Enabled(s, t, UnguardFields) && s.threads[t].count > 0 ==> Do(s, t, UnguardFields) == FieldsUnguarded(s, t)
  {
  }

  // Guard, drain, body and drop of the guard together.
  lemma UnguardEffect(s0: State, s2: State, s3: State, t: Tid, n: nat, w: Work)
    requires Releases(s0, t, FinalizeNext) && Enabled(s0, t, GuardFields) && s0.threads[t].count > 0
    requires OnlyReleased(FieldsGuarded(s0, t), s2, t, FieldsGuarded(s0, t).threads[t].stack, IDLE)
    requires OnlyReleased(s2, s3, t, FieldsReleased(FieldsGuarded(s0, t).threads[t].stack, n), w)
    ensures Enabled(s3, t, UnguardFields) && s3.threads[t].count > 0 && Calm(s0, t)
    ensures OnlyReleased(s0, FieldsUnguarded(s3, t), t, FieldsReleased(s0.threads[t].stack, n), w)
    ensures FieldsUnguarded(s3, t).pool == s3.pool
  {
    hide TotalCount, OnlyReleased, FieldsReleased, Plus;
    var s1 := FieldsGuarded(s0, t);
    ReleasedFurther(s1, s2, s3, t, s1.threads[t].stack, FieldsReleased(s1.threads[t].stack, n), IDLE, w);
    PlusIdle(w);
    UnguardReleased(s0, s3, t, n, w);
  }

  lemma UnguardReleased(s0: State, s3: State, t: Tid, n: nat, w: Work)
    requires Enabled(s0, t, GuardFields) && s0.mutex.None? && s0.threads[t].count > 0
    requires OnlyReleased(FieldsGuarded(s0, t), s3, t, FieldsReleased(FieldsGuarded(s0, t).threads[t].stack, n), w)
    ensures Enabled(s3, t, UnguardFields) && s3.threads[t].count > 0
    ensures var s4 := FieldsUnguarded(s3, t);
            && OnlyReleased(s0, s4, t, FieldsReleased(s0.threads[t].stack, n), w)
            && Releases(s4, t, FinalizeNext) && s4.pool == s3.pool
  {
    hide TotalCount, HeapWork, Done, Falls, Skip;
  }

  // ---------------------------------------------------------------- what deallocators do

  function Skip(q: seq<Obj>, n: nat): seq<Obj> {
    if n < |q| then q[n..] else []
  }

  // The same guards are open; a deallocator on top has released n more fields.
  function FieldsReleased(st: Stack, n: nat): Stack {
    if st.Push? && st.top.Finalizing? then Push(Finalizing(Skip(st.top.fields, n)), st.below) else st
  }

  lemma NoFieldsReleased(st: Stack)
    ensures FieldsReleased(st, 0) == st
  {
  }

  // Deeds with this work, this many fields to release, and this effect on the pool were done.
  predicate DeedsDone(s: State, s': State, t: Tid, w: Work, n: nat, clean: bool)
    requires t < |s.threads|
  {
    OnlyReleased(s, s', t, FieldsReleased(s.threads[t].stack, n), w) && (clean ==> s'.pool == [])
  }

  lemma NoDeedsDone(s: State, t: Tid, clean: bool)
    requires Calm(s, t) && (clean ==> s.pool == [])
    ensures DeedsDone(s, s, t, IDLE, 0, clean)
  {
    hide Became;
    AlreadyReleased(s, t);
  }

  lemma DeedsDoneTwice(s0: State, s1: State, s2: State, t: Tid, v: Work, w: Work, m: nat, n: nat, c1: bool, c2: bool)
    requires t < |s0.threads| && DeedsDone(s0, s1, t, v, m, c1) && DeedsDone(s1, s2, t, w, n, c2)
    ensures DeedsDone(s0, s2, t, Plus(v, w), m + n, c2)
  {
    hide TotalCount, HeapWork, Done, Falls;
    var st := s0.threads[t].stack;
    ReleasedFurther(s0, s1, s2, t, FieldsReleased(st, m), FieldsReleased(s1.threads[t].stack, n), v, w);
    assert FieldsReleased(FieldsReleased(st, m), n) == FieldsReleased(st, m + n);
  }

  lemma DeedsKeepCalm(s: State, s': State, t: Tid, w: Work, n: nat, clean: bool)
    requires Calm(s, t) && s.threads[t].count >= 0 && DeedsDone(s, s', t, w, n, clean)
    ensures Calm(s', t) && s'.threads[t].count == s.threads[t].count && TotalCount(s'.heap) <= TotalCount(s.heap)
    ensures clean ==> s'.pool == []
  {
    hide TotalCount, HeapWork, Done, Falls;
  }

  // ---------------------------------------------------------------- the runtime

  // A properly nested use of the runtime. A panic unwinds to the nearest Catch.
  datatype Scope =
    | WithGil(body: seq<Scope>)        // GILGuard::acquire ... drop
    | AssumeGil(body: seq<Scope>)      // GILGuard::assume ... drop
    | AllowThreads(body: seq<Scope>)   // SuspendGIL::new ... drop
    | DuringTraverse(body: seq<Scope>) // LockGIL::during_traverse ... drop
    | Catch(body: seq<Scope>)
    | DropOne(o: Obj)                  // drop of a Py, if there is one
    | Panic

  // The contracts of the unsafe entry points: a token to suspend, the GIL to assume it or to traverse.
  predicate WellFormed(scopes: seq<Scope>, count: int, holds: bool) {
    scopes == [] || (WellFormedOne(scopes[0], count, holds) && WellFormed(scopes[1..], count, holds))
  }

  predicate WellFormedOne(scope: Scope, count: int, holds: bool) {
    match scope
    case WithGil(b) => count >= 0 ==> WellFormed(b, count + 1, true)
    case AssumeGil(b) => holds && (count >= 0 ==> WellFormed(b, count + 1, true))
    case AllowThreads(b) => count > 0 && WellFormed(b, 0, false)
    case DuringTraverse(b) => holds && count >= 0 && WellFormed(b, -1, true)
    case Catch(b) => WellFormed(b, count, holds)
    case DropOne(_) => true
    case Panic => true
  }

  // Does it panic, how many Ensures does it lose, what work does it do, and is the pool surely empty afterwards?
  datatype Outcome = Outcome(panics: bool, leaks: nat, work: Work, clean: bool)

  function OutcomeOf(scopes: seq<Scope>, count: int, clean: bool): Outcome {
    if scopes == [] then Outcome(false, 0, IDLE, clean)
    else
      var first := OutcomeOfOne(scopes[0], count, clean);
      if first.panics then first
      else
        var rest := OutcomeOf(scopes[1..], count, first.clean);
        Outcome(rest.panics, first.leaks + rest.leaks, Plus(first.work, rest.work), rest.clean)
  }

  // Under a traverse lock, acquiring loses an Ensure and panics, and assuming panics.
  function OutcomeOfOne(scope: Scope, count: int, clean: bool): Outcome {
    match scope
    case WithGil(b) =>
      if count < 0 then Outcome(true, 1, IDLE, clean)
      else
        var body := OutcomeOf(b, count + 1, true);
        body.(work := Plus(GuardWork(count > 0), body.work))
    case AssumeGil(b) => if count < 0 then Outcome(true, 0, IDLE, clean) else OutcomeOf(b, count + 1, true)
    case AllowThreads(b) =>
      var body := OutcomeOf(b, 0, clean);
      body.(work := Plus(Work(multiset{}, 0, 1), body.work), clean := true)
    case DuringTraverse(b) => OutcomeOf(b, -1, clean)
    case Catch(b) => OutcomeOf(b, count, clean).(panics := false)
    case DropOne(o) => Outcome(false, 0, Work(multiset{o}, 0, 0), count > 0 && clean)
    case Panic => Outcome(true, 0, IDLE, clean)
  }

  // The thread has lost this many Ensures.
  function Leaking(th: Thread, leaks: nat): Thread {
    th.(calls := th.calls.(ensured := th.calls.ensured + leaks, leaked := th.calls.leaked + leaks))
  }

  // The thread is as it was before, but for its calls; the work is done, and the pool is empty if it should be.
  predicate Restored(s: State, s': State, t: Tid, outcome: Outcome)
    requires t < |s.threads|
  {
    Became(s, s', t, Leaking(s.threads[t], outcome.leaks), s.owner, outcome.work) && (outcome.clean ==> s'.pool == [])
  }

  lemma RestoredTwice(s0: State, s1: State, s2: State, t: Tid, a: Outcome, b: Outcome)
    requires t < |s0.threads| && Restored(s0, s1, t, a) && Restored(s1, s2, t, b)
    ensures Restored(s0, s2, t, Outcome(b.panics, a.leaks + b.leaks, Plus(a.work, b.work), b.clean))
  {
    hide TotalCount, HeapWork, Done, Falls;
    var th := s0.threads[t];
    BecameTwice(s0, s1, s2, t, Leaking(th, a.leaks), Leaking(th, a.leaks + b.leaks), s0.owner, s0.owner, a.work, b.work);
  }

  lemma RestoredAtOnce(s: State, t: Tid, panics: bool, clean: bool)
    requires Calm(s, t) && (clean ==> s.pool == [])
    ensures Restored(s, s, t, Outcome(panics, 0, IDLE, clean))
  {
    hide Became;
    BecameAtOnce(s, s, t, s.threads[t], s.owner);
    assert s.threads[t := s.threads[t]] == s.threads;
  }

  lemma RestoredIsCalm(s: State, s': State, t: Tid, outcome: Outcome)
    requires Calm(s, t) && Restored(s, s', t, outcome)
    ensures Calm(s', t) && s'.owner == s.owner && |s'.threads| == |s.threads|
    ensures s'.threads[t].count == s.threads[t].count && s'.threads[t].stack == s.threads[t].stack
    ensures s'.raw == s.raw && s'.threads == s.threads[t := s.threads[t].(calls := s'.threads[t].calls)]
    ensures outcome.clean ==> s'.pool == []
  {
    hide TotalCount, HeapWork, Done, Falls;
  }

  // A dropped Py, if there was one.
  lemma DroppedIsRestored(s: State, s': State, t: Tid, o: Obj, clean: bool)
    requires Calm(s, t) && (clean ==> s'.pool == [])
    requires if o in s.py then OnlyReleased(s.(py := s.py - multiset{o}), s', t, s.threads[t].stack, IDLE) else s' == s
    ensures Restored(s, s', t, Outcome(false, 0, Work(multiset{o}, 0, 0), clean))
    ensures OnlyReleased(s, s', t, s.threads[t].stack, Work(multiset{o}, 0, 0))
  {
    hide TotalCount, HeapWork, Done, Falls;
    if o in s.py {
      DropWork(s.heap, s'.heap, o);
      TwiceDropped(s.py, multiset{o}, Done(s.heap, s'.heap, IDLE).drops);
    } else {
      NothingDone(s.heap, Work(multiset{o}, 0, 0));
      assert s.threads[t := s.threads[t]] == s.threads;
      assert s.py - multiset{o} == s.py;
    }
  }

  lemma DropWork(heap: seq<Slot>, heap': seq<Slot>, o: Obj)
    requires Falls(heap, heap')
    ensures var d := Done(heap, heap', IDLE);
            Done(heap, heap', Work(multiset{o}, 0, 0)) == d.(drops := multiset{o} + d.drops)
  {
    hide HeapWork;
    var d := HeapWork(heap).drops - HeapWork(heap').drops;
    assert multiset{o} + (multiset{} + d) == multiset{o} + d;
  }

  lemma AcquireEffect(s: State, t: Tid)
    requires Calm(s, t) && (s.threads[t].count != 0 ==> s.owner == Some(t))
    ensures Enabled(s, t, Acquire)
    ensures var th := Acquired(s, t);
            var s1 := Do(s, t, Acquire);
            if s.threads[t].count > 0 then s1 == SetThread(s, t, th.(phase := Polling))
            else
              Enabled(s1, t, EnsureReturns) &&
              var s2 := Do(s1, t, EnsureReturns);
              Enabled(s2, t, CountGuard) &&
              Do(s2, t, CountGuard)
              == SetThread(s.(owner := Some(t)), t, if th.count < 0 then th else th.(phase := Polling))
  {
  }

  // The thread after GILGuard::assume.
  function AssumedBy(th: Thread): Thread {
    if th.count < 0 then th else th.(count := th.count + 1, stack := Push(Assumed, th.stack))
  }

  lemma AssumeEffect(s: State, t: Tid)
    requires Calm(s, t) && s.owner == Some(t)
    ensures var th := AssumedBy(s.threads[t]);
            Do(s, t, Assume) == SetThread(s, t, if th.count < 0 then th else th.(phase := Polling))
  {
  }

  // The thread after SuspendGIL::new.
  function SuspendedBy(th: Thread): Thread {
    th.(count := 0, stack := Push(Suspended(th.count), th.stack),
        calls := th.calls.(saved := th.calls.saved + 1))
  }

  // The thread after the SuspendGIL is dropped.
  function Resumed(s: State, t: Tid): Thread
    requires t < |s.threads| && s.threads[t].stack.Push? && s.threads[t].stack.top.Suspended?
  {
    var th := s.threads[t];
    th.(count := th.stack.top.saved, stack := th.stack.below,
        calls := th.calls.(restored := th.calls.restored + 1))
  }

  lemma ResumeEffect(s: State, t: Tid)
    requires Calm(s, t) && s.owner.None? && Enabled(s, t, DropSuspend)
    ensures Enabled(Do(s, t, DropSuspend), t, RestoreThread)
    ensures Do(Do(s, t, DropSuspend), t, RestoreThread)
            == SetThread(s.(owner := Some(t)), t, Resumed(s, t).(phase := Polling))
  {
  }

  // The state after a guard is dropped: an ensured guard gives back what it took, and the count falls.
  function GuardDropped(s: State, t: Tid): State
    requires t < |s.threads| && s.threads[t].stack.Push?
  {
    var th := s.threads[t];
    var dropped := th.(count := th.count - 1, stack := th.stack.below);
    match th.stack.top
    case Ensured(g) =>
      SetThread(if g.WasUnlocked? then s.(owner := None) else s, t,
                dropped.(calls := th.calls.(released := th.calls.released + 1)))
    case _ => SetThread(s, t, dropped)
  }

  // The calls that the code makes itself add to the work.
  lemma OwnWork(heap: seq<Slot>, heap': seq<Slot>, own: Work, w: Work)
    requires Falls(heap, heap') && own.drops == multiset{}
    ensures var d := Done(heap, heap', w);
            Done(heap, heap', Plus(own, w)) == Work(d.drops, own.ensured + d.ensured, own.saved + d.saved)
  {
    hide HeapWork;
    var d := HeapWork(heap).drops - HeapWork(heap').drops;
    assert (multiset{} + w.drops) + d == w.drops + d;
  }

  lemma AssumedRestores(s0: State, s1: State, s2: State, t: Tid, body: Outcome)
    requires Calm(s0, t) && s0.threads[t].count >= 0 && s0.owner == Some(t)
    requires Became(s0, s1, t, AssumedBy(s0.threads[t]), Some(t), IDLE) && Restored(s1, s2, t, body)
    ensures Enabled(s2, t, DropGuard) && Restored(s0, GuardDropped(s2, t), t, body)
  {
    hide TotalCount, HeapWork, Done, Falls, Plus;
    var th := AssumedBy(s0.threads[t]);
    BecameTwice(s0, s1, s2, t, th, Leaking(th, body.leaks), Some(t), Some(t), IDLE, body.work);
    PlusIdle(body.work);
  }

  // Acquire, a body that restores, and drop restore together.
  lemma WithGilRestores(s0: State, s1: State, s2: State, t: Tid, body: Outcome)
    requires Calm(s0, t) && s0.threads[t].count >= 0 && (s0.threads[t].count != 0 ==> s0.owner == Some(t))
    requires Became(s0, s1, t, Acquired(s0, t), Some(t), IDLE) && Restored(s1, s2, t, body)
    ensures Enabled(s2, t, DropGuard)
    ensures Restored(s0, GuardDropped(s2, t), t, body.(work := Plus(GuardWork(s0.threads[t].count > 0), body.work)))
  {
    hide Became, Plus, Restored;
    if s0.threads[t].count > 0 {
      AssumedRestores(s0, s1, s2, t, body);
      PlusIdle(body.work);
    } else {
      EnsuredRestores(s0, s1, s2, t, body);
    }
  }

  lemma EnsuredRestores(s0: State, s1: State, s2: State, t: Tid, body: Outcome)
    requires Calm(s0, t) && s0.threads[t].count == 0
    requires Became(s0, s1, t, Acquired(s0, t), Some(t), IDLE) && Restored(s1, s2, t, body)
    ensures Enabled(s2, t, DropGuard)
    ensures Restored(s0, GuardDropped(s2, t), t, body.(work := Plus(GuardWork(false), body.work)))
  {
    hide TotalCount, HeapWork, Done, Falls, Plus;
    var th := Acquired(s0, t);
    BecameTwice(s0, s1, s2, t, th, Leaking(th, body.leaks), Some(t), Some(t), IDLE, body.work);
    PlusIdle(body.work);
    OwnWork(s0.heap, s2.heap, GuardWork(false), body.work);
    assert s2.threads[t] == Leaking(th, body.leaks).(calls := s2.threads[t].calls);
  }

  lemma AllowThreadsRestores(s0: State, s1: State, s2: State, s3: State, t: Tid, body: Outcome)
    requires Calm(s0, t) && s0.owner == Some(t)
    requires s1 == SetThread(s0.(owner := None), t, SuspendedBy(s0.threads[t])) && Restored(s1, s2, t, body)
    requires s2.threads[t].stack == SuspendedBy(s0.threads[t]).stack && Became(s2, s3, t, Resumed(s2, t), Some(t), IDLE)
    requires s3.pool == []
    ensures Restored(s0, s3, t, body.(work := Plus(Work(multiset{}, 0, 1), body.work), clean := true))
  {
    hide TotalCount, HeapWork, Done, Falls, Plus;
    var th := SuspendedBy(s0.threads[t]);
    var back := th.(count := s0.threads[t].count, stack := s0.threads[t].stack,
                    calls := th.calls.(restored := th.calls.restored + 1));
    BecameTwice(s1, s2, s3, t, Leaking(th, body.leaks), Leaking(back, body.leaks), None, Some(t), body.work, IDLE);
    PlusIdle(body.work);
    OwnWork(s0.heap, s3.heap, Work(multiset{}, 0, 1), body.work);
  }

  function TraversedBy(th: Thread): Thread {
    th.(count := -1, stack := Push(Traversing(th.count), th.stack))
  }

  lemma TraverseEffect(s: State, t: Tid)
    requires Calm(s, t) && s.owner == Some(t) && s.threads[t].count >= 0
    ensures Enabled(s, t, LockTraverse) && Do(s, t, LockTraverse) == SetThread(s, t, TraversedBy(s.threads[t]))
    ensures Calm(Do(s, t, LockTraverse), t)
  {
  }

  lemma TraverseRestores(s0: State, s1: State, s2: State, t: Tid, body: Outcome)
    requires Calm(s0, t) && s1 == SetThread(s0, t, TraversedBy(s0.threads[t])) && Restored(s1, s2, t, body)
    ensures Enabled(s2, t, UnlockTraverse) && Restored(s0, Do(s2, t, UnlockTraverse), t, body)
  {
    hide TotalCount, HeapWork, Done, Falls, Plus;
  }

  lemma CountsAgree(s: State, t: Tid)
    requires Inv(s) && t < |s.threads| && s.threads[t].phase.Running?
    ensures s.threads[t].count == Count(s.threads[t].stack)
    ensures s.threads[t].count != 0 ==> s.owner == Some(t)
    ensures s.threads[t].count >= -1
  {
    assert ThreadOk(s.threads[t], s.owner == Some(t), s.mutex == Some(t));
    PositiveCountHolds(s.threads[t].stack, s.threads[t].attached);
    NonzeroCountHolds(s.threads[t].stack, s.threads[t].attached);
  }

  lemma NonzeroCountHolds(st: Stack, attached: bool)
    requires Nested(st, attached)
    ensures Count(st) != 0 ==> Holds(st, attached)
  {
  }

  // A pool that is emptier before is emptier afterwards.
  lemma {:induction false} CleanerRun(scopes: seq<Scope>, count: int, clean: bool, cleaner: bool)
    requires clean ==> cleaner
    ensures var a, b := OutcomeOf(scopes, count, clean), OutcomeOf(scopes, count, cleaner);
            a == b.(clean := a.clean) && (a.clean ==> b.clean)
    decreases scopes
  {
    hide Plus;
    if scopes != [] {
      CleanerRunOne(scopes[0], count, clean, cleaner);
      CleanerRun(scopes[1..], count, OutcomeOfOne(scopes[0], count, clean).clean, OutcomeOfOne(scopes[0], count, cleaner).clean);
    }
  }

  lemma {:induction false} CleanerRunOne(scope: Scope, count: int, clean: bool, cleaner: bool)
    requires clean ==> cleaner
    ensures var a, b := OutcomeOfOne(scope, count, clean), OutcomeOfOne(scope, count, cleaner);
            a == b.(clean := a.clean) && (a.clean ==> b.clean)
    decreases scope
  {
    hide Plus, GuardWork;
    match scope
    case AllowThreads(b) => CleanerRun(b, 0, clean, cleaner);
    case DuringTraverse(b) => CleanerRun(b, -1, clean, cleaner);
    case Catch(b) => CleanerRun(b, count, clean, cleaner);
    case _ =>
  }

  lemma RestoredLessClean(s: State, s': State, t: Tid, outcome: Outcome, clean: bool)
    requires t < |s.threads| && (outcome.clean ==> clean)
    requires Restored(s, s', t, outcome.(clean := clean))
    ensures Restored(s, s', t, outcome)
  {
    hide Became;
  }

  lemma Caught(s: State, s': State, t: Tid, outcome: Outcome)
    requires t < |s.threads| && Restored(s, s', t, outcome)
    ensures Restored(s, s', t, outcome.(panics := false))
  {
    hide Became;
  }

  lemma CleanerDone(s: State, s': State, t: Tid, w: Work, n: nat, clean: bool, less: bool)
    requires t < |s.threads| && (less ==> clean) && DeedsDone(s, s', t, w, n, clean)
    ensures DeedsDone(s, s', t, w, n, less)
  {
    hide Became;
  }

  lemma OnlyQueued(s: State, s': State, t: Tid)
    requires Calm(s, t) && s' == s.(pool := s'.pool)
    ensures OnlyReleased(s, s', t, s.threads[t].stack, IDLE)
  {
    hide Became;
    BecameAtOnce(s, s', t, s.threads[t], s.owner);
    assert s.threads[t := s.threads[t]] == s.threads;
  }

  class Process {
    const n: nat
    ghost var log: seq<Event>
    var st: State

    // The state is the one that the run so far leads to.
    ghost predicate Valid()
      reads this
    {
      Possible(Init(n), log) && st == Exec(Init(n), log)
    }

    constructor (n: nat)
      ensures Valid() && this.n == n && log == []
    {
      this.n := n;
      log := [];
      st := Init(n);
    }

    lemma ValidInv()
      requires Valid()
      ensures Inv(st)
    {
      ReachableInv(n, log);
    }

    method Step(t: Tid, a: Action)
      requires Valid() && Enabled(st, t, a)
      modifies this
      ensures Valid() && log == old(log) + [Event(t, a)] && st == Do(old(st), t, a)
    {
      st := Do(st, t, a);
      log := log + [Event(t, a)];
      assert log[..|log| - 1] == old(log);
    }

    // ReferencePool::update_counts. A deallocator may come back here while a batch is open.
    method UpdateCounts(t: Tid)
      requires Valid() && t < |st.threads| && st.threads[t].phase.Polling? && st.mutex.None?
      modifies this
      ensures Valid() && old(log) <= log
      ensures OnlyReleased(old(st), st, t, old(st).threads[t].stack, IDLE)
      ensures st.pool == [] && ReleasedOnce(old(st), st)
      decreases TotalCount(st.heap), 2
    {
      hide Exec, Possible, Do, TotalCount, ReleasedOnce, Inv, OnlyReleased, Plus, HeapWork, Done, Falls;
      ghost var s0 := st;
      ValidInv();
      SwapEffect(st, t);
      var empty := st.pool == [];
      Step(t, TakeMutex);
      Step(t, SwapPool);
      ReleasedMeans(s0, st, t, Drained(s0, t), IDLE);
      if !empty {
        ghost var s1 := st;
        DrainBatch(t);
        ReleasedFurther(s0, s1, st, t, Drained(s0, t), s0.threads[t].stack, IDLE, IDLE);
        PlusIdle(IDLE);
      }
      ValidInv();
      ReleasedMeans(s0, st, t, s0.threads[t].stack, IDLE);
      ReleasesOnce(s0, st, t);
    }

    method DrainBatch(t: Tid)
      requires Valid() && Releases(st, t, DrainNext) && st.pool == []
      modifies this
      ensures Valid() && old(log) <= log && st.pool == []
      ensures OnlyReleased(old(st), st, t, old(st).threads[t].stack.below, IDLE)
      decreases TotalCount(st.heap), 1
    {
      hide Exec, Possible, Do, TotalCount, OnlyReleased, Inv, Plus, ReleasedOnce, HeapWork, Done, Falls;
      ghost var s0 := st;
      ghost var base := st.threads[t].stack.below;
      AlreadyReleased(s0, t);
      PlusIdle(IDLE);
      while st.threads[t].stack.top.rest != []
        invariant Valid() && old(log) <= log && st.pool == []
        invariant |st.threads| == |s0.threads| && Releases(st, t, DrainNext)
        invariant OnlyReleased(s0, st, t, st.threads[t].stack, IDLE) && st.threads[t].stack.below == base
        invariant TotalCount(st.heap) <= TotalCount(s0.heap)
        decreases |st.threads[t].stack.top.rest|
      {
        ghost var s1 := st;
        ghost var next := Push(Draining(st.threads[t].stack.top.rest[1..]), base);
        ReleaseNext(t, DrainNext);
        ReleasedMeans(s1, st, t, next, IDLE);
        ReleasedFurther(s0, s1, st, t, s1.threads[t].stack, next, IDLE, IDLE);
      }
      ghost var s1 := st;
      PopEffect(st, t, DrainNext);
      Step(t, DrainNext);
      ReleasedFurther(s0, s1, st, t, s1.threads[t].stack, base, IDLE, IDLE);
    }

    // One turn of the drain loop, or of a deallocator: Py_DECREF, with all that it sets off.
    method ReleaseNext(t: Tid, a: Action)
      requires Valid() && Releases(st, t, a) && Pending(st.threads[t].stack.top) != []
      modifies this
      ensures Valid() && old(log) <= log
      ensures var was := old(st).threads[t].stack;
              OnlyReleased(old(st), st, t, Push(WithPending(was.top, Pending(was.top)[1..]), was.below), IDLE)
      ensures TotalCount(st.heap) < TotalCount(old(st).heap)
      ensures old(st).pool == [] ==> st.pool == []
      decreases TotalCount(st.heap), 0
    {
      hide Exec, Possible, Do, TotalCount, HeapWork, Done, Falls, Plus, Inv;
      ghost var s0 := st;
      var o := Pending(st.threads[t].stack.top)[0];
      assert MayTouch(st, t, o) by {
        ValidInv();
        ReleaseMayTouch(st, t, a);
      }
      ReleaseEffect(st, t, a);
      var freed, deeds := st.heap[o].rc == 1, st.heap[o].deeds;
      Step(t, a);
      ghost var s1 := st;
      if freed {
        Finalize(t, deeds);
        StaysClean(deeds);
        DecreffedFurther(s0, s1, st, t, s1.threads[t].stack, s1.threads[t].stack.below, WorkOf(deeds, true));
      } else {
        OnlyDecreffed(s0, st, t, st.threads[t].stack);
      }
    }

    // A deallocator: what it does, then the release of the fields that are left. Each guard that it takes, and
    // each return of the GIL, drains the pool again. It creates nothing.
    method Finalize(t: Tid, deeds: seq<Deed>)
      requires Valid() && Releases(st, t, FinalizeNext)
      modifies this
      ensures Valid() && old(log) <= log
      ensures OnlyReleased(old(st), st, t, old(st).threads[t].stack.below, WorkOf(deeds, true))
      ensures CleanAfter(deeds, true, old(st).pool == []) ==> st.pool == []
      decreases TotalCount(st.heap), 6
    {
      hide Exec, Possible, Do, TotalCount, HeapWork, Done, Falls, WorkOf, CleanAfter, Plus, Inv;
      ghost var s0 := st;
      ghost var w := WorkOf(deeds, true);
      ghost var clean := CleanAfter(deeds, true, st.pool == []);
      assert st.owner == Some(t) && st.threads[t].count > 0 by {
        ValidInv();
        FinalizerHolds(st, t);
      }
      PlusIdle(w);
      RunDeeds(t, deeds);
      while st.threads[t].stack.top.fields != []
        invariant Valid() && old(log) <= log && (clean ==> st.pool == [])
        invariant |st.threads| == |s0.threads| && Releases(st, t, FinalizeNext)
        invariant OnlyReleased(s0, st, t, st.threads[t].stack, w)
        invariant st.threads[t].stack.below == s0.threads[t].stack.below
        decreases |st.threads[t].stack.top.fields|
      {
        ghost var s1 := st;
        ReleaseNext(t, FinalizeNext);
        ReleasedFurther(s0, s1, st, t, s1.threads[t].stack, st.threads[t].stack, w, IDLE);
      }
      ghost var s1 := st;
      PopEffect(st, t, FinalizeNext);
      Step(t, FinalizeNext);
      ReleasedFurther(s0, s1, st, t, s1.threads[t].stack, s0.threads[t].stack.below, w, IDLE);
    }

    method RunDeeds(t: Tid, deeds: seq<Deed>)
      requires Valid() && Calm(st, t) && st.threads[t].count >= 0
      modifies this
      ensures Valid() && old(log) <= log && Calm(st, t) && TotalCount(st.heap) <= TotalCount(old(st).heap)
      ensures var holds := old(st).threads[t].count > 0;
              DeedsDone(old(st), st, t, WorkOf(deeds, holds), FieldsIn(deeds), CleanAfter(deeds, holds, old(st).pool == []))
      decreases TotalCount(st.heap), 5, deeds, 0
    {
      hide Exec, Possible, Do, TotalCount, HeapWork, DeedsDone, Plus, Inv, Done, Falls;
      ghost var s0 := st;
      ghost var holds := st.threads[t].count > 0;
      if deeds == [] {
        NoDeedsDone(st, t, st.pool == []);
      } else {
        RunDeed(t, deeds[0]);
        ghost var s1 := st;
        ghost var clean := CleanAfterOne(deeds[0], holds, s0.pool == []);
        DeedsKeepCalm(s0, s1, t, WorkOfOne(deeds[0], holds), FieldsInOne(deeds[0]), clean);
        RunDeeds(t, deeds[1..]);
        DeedsDoneTwice(s0, s1, st, t, WorkOfOne(deeds[0], holds), WorkOf(deeds[1..], holds),
                       FieldsInOne(deeds[0]), FieldsIn(deeds[1..]), clean, CleanAfter(deeds[1..], holds, s1.pool == []));
        CleanerStays(deeds[1..], holds, clean, s1.pool == []);
        CleanerDone(s0, st, t, WorkOf(deeds, holds), FieldsIn(deeds), CleanAfter(deeds[1..], holds, s1.pool == []),
                    CleanAfter(deeds, holds, s0.pool == []));
      }
    }

    method RunDeed(t: Tid, deed: Deed)
      requires Valid() && Calm(st, t) && st.threads[t].count >= 0
      modifies this
      ensures Valid() && old(log) <= log && Calm(st, t) && TotalCount(st.heap) <= TotalCount(old(st).heap)
      ensures var holds := old(st).threads[t].count > 0;
              DeedsDone(old(st), st, t, WorkOfOne(deed, holds), FieldsInOne(deed), CleanAfterOne(deed, holds, old(st).pool == []))
      decreases TotalCount(st.heap), 5, deed, 1
    {
      hide Exec, Possible, Do, TotalCount, HeapWork, Done, Falls, Plus, Inv, DeedsDone, FieldsReleased;
      match deed {
        case ReleaseField => ReleaseOneField(t);
        case DropHandle(o) => DropOneHandle(t, o);
        case Guarded(_) =>
          if st.threads[t].stack.Push? && st.threads[t].stack.top.Finalizing? {
            assert st.threads[t].count > 0 by {
              ValidInv();
              FinalizerHolds(st, t);
            }
            RunGuarded(t, deed);
          } else {
            RunReacquired(t, deed);
          }
        case WithoutGil(_) =>
          if st.threads[t].count > 0 {
            RunWithoutGil(t, deed);
          } else {
            NoDeedsDone(st, t, st.pool == []);
          }
      }
    }

    // The next field of a deallocator on top, if there is one.
    method ReleaseOneField(t: Tid)
      requires Valid() && Calm(st, t) && st.threads[t].count >= 0
      modifies this
      ensures Valid() && old(log) <= log && Calm(st, t) && TotalCount(st.heap) <= TotalCount(old(st).heap)
      ensures DeedsDone(old(st), st, t, IDLE, 1, old(st).pool == [])
      decreases TotalCount(st.heap), 3
    {
      hide Exec, Possible, Do, TotalCount, HeapWork, Done, Falls, Plus, Inv, OnlyReleased;
      var was := st.threads[t].stack;
      if was.Push? && was.top.Finalizing? && was.top.fields != [] {
        ghost var s0 := st;
        ReleaseNext(t, FinalizeNext);
        ReleasedMeans(s0, st, t, Push(WithPending(was.top, Pending(was.top)[1..]), was.below), IDLE);
        assert Skip(was.top.fields, 1) == was.top.fields[1..];
      } else {
        NoDeedsDone(st, t, st.pool == []);
        assert FieldsReleased(was, 0) == FieldsReleased(was, 1);
      }
    }

    method DropOneHandle(t: Tid, o: Obj)
      requires Valid() && Calm(st, t) && st.threads[t].count >= 0
      modifies this
      ensures Valid() && old(log) <= log && Calm(st, t) && TotalCount(st.heap) <= TotalCount(old(st).heap)
      ensures DeedsDone(old(st), st, t, Work(multiset{o}, 0, 0), 0, old(st).threads[t].count > 0 && old(st).pool == [])
      decreases TotalCount(st.heap), 4
    {
      hide Exec, Possible, Do, TotalCount, HeapWork, Done, Falls, ReleasedOnce, Plus, Inv, OnlyReleased;
      ghost var s0 := st;
      if o in st.py {
        RegisterDecref(t, o);
      }
      DroppedIsRestored(s0, st, t, o, s0.threads[t].count > 0 && s0.pool == []);
      ReleasedMeans(s0, st, t, s0.threads[t].stack, Work(multiset{o}, 0, 0));
      NoFieldsReleased(s0.threads[t].stack);
    }

    // A guard of the deallocator's own: assume, which drains, the body, and the drop of the guard.
    method RunGuarded(t: Tid, deed: Deed)
      requires Valid() && Releases(st, t, FinalizeNext) && deed.Guarded?
      modifies this
      ensures Valid() && old(log) <= log && Calm(st, t) && TotalCount(st.heap) <= TotalCount(old(st).heap)
      ensures DeedsDone(old(st), st, t, WorkOfOne(deed, true), FieldsInOne(deed), CleanAfterOne(deed, true, old(st).pool == []))
      decreases TotalCount(st.heap), 5, deed, 0
    {
      hide Exec, Possible, Do, Enabled, TotalCount, FieldsReleased, WorkOf, CleanAfter, OnlyReleased, Plus, Inv;
      ghost var s0 := st;
      TakeFieldGuard(t);
      ghost var s2 := st;
      RunDeeds(t, deed.body);
      UnguardEffect(s0, s2, st, t, FieldsIn(deed.body), WorkOf(deed.body, true));
      FieldGuardEffect(st, t);
      ghost var w, n, clean := WorkOf(deed.body, true), FieldsIn(deed.body), CleanAfter(deed.body, true, true);
      assert s2.pool == [] && (clean ==> st.pool == []);
      Step(t, UnguardFields);
      DeedsKeepCalm(s0, st, t, w, n, clean);
      PlusIdle(w);
    }

    method TakeFieldGuard(t: Tid)
      requires Valid() && Releases(st, t, FinalizeNext)
      modifies this
      ensures Valid() && old(log) <= log && Calm(st, t) && TotalCount(st.heap) <= TotalCount(old(st).heap)
      ensures Enabled(old(st), t, GuardFields) && old(st).threads[t].count > 0 && st.threads[t].count > 0
      ensures OnlyReleased(FieldsGuarded(old(st), t), st, t, FieldsGuarded(old(st), t).threads[t].stack, IDLE)
      ensures st.threads[t].stack == FieldsGuarded(old(st), t).threads[t].stack && st.pool == []
      decreases TotalCount(st.heap), 4
    {
      hide Exec, Possible, Do, TotalCount, ReleasedOnce, OnlyReleased, Plus, Inv;
      assert Enabled(st, t, GuardFields) && st.threads[t].count > 0 by {
        ValidInv();
        FinalizerHolds(st, t);
      }
      FieldGuardEffect(st, t);
      Step(t, GuardFields);
      ghost var s1 := st;
      UpdateCounts(t);
      ReleasedMeans(s1, st, t, s1.threads[t].stack, IDLE);
    }

    // A guard elsewhere: under another guard, or after the GIL was given up.
    method RunReacquired(t: Tid, deed: Deed)
      requires Valid() && Calm(st, t) && st.threads[t].count >= 0 && deed.Guarded?
      requires st.threads[t].stack.Push? ==> !st.threads[t].stack.top.Finalizing?
      modifies this
      ensures Valid() && old(log) <= log && Calm(st, t) && TotalCount(st.heap) <= TotalCount(old(st).heap)
      ensures var holds := old(st).threads[t].count > 0;
              DeedsDone(old(st), st, t, WorkOfOne(deed, holds), FieldsInOne(deed), CleanAfterOne(deed, holds, old(st).pool == []))
      decreases TotalCount(st.heap), 5, deed, 0
    {
      hide Exec, Possible, Do, TotalCount, HeapWork, Done, Falls, ReleasedOnce, WorkOf, CleanAfter, Plus, Inv;
      ghost var s0 := st;
      assert s0.threads[t].count != 0 ==> s0.owner == Some(t) by {
        ValidInv();
        CountsAgree(s0, t);
      }
      var panicked := AcquireGuard(t);
      ghost var s1 := st;
      RunDeeds(t, deed.body);
      ghost var body := Outcome(false, 0, WorkOf(deed.body, true), CleanAfter(deed.body, true, true));
      WithGilRestores(s0, s1, st, t, body);
      DropGilGuard(t);
    }

    // SuspendGIL inside a deallocator.
    method RunWithoutGil(t: Tid, deed: Deed)
      requires Valid() && Calm(st, t) && st.threads[t].count > 0 && deed.WithoutGil?
      modifies this
      ensures Valid() && old(log) <= log && Calm(st, t) && TotalCount(st.heap) <= TotalCount(old(st).heap)
      ensures DeedsDone(old(st), st, t, WorkOfOne(deed, true), FieldsInOne(deed), CleanAfterOne(deed, true, old(st).pool == []))
      decreases TotalCount(st.heap), 5, deed, 0
    {
      hide Exec, Possible, Do, TotalCount, HeapWork, Done, Falls, ReleasedOnce, WorkOf, CleanAfter, Plus, Inv;
      ghost var s0 := st;
      assert st.owner == Some(t) by {
        ValidInv();
        CountsAgree(st, t);
      }
      SuspendGil(t);
      ghost var s1 := st;
      RunDeeds(t, deed.body);
      ghost var s2 := st;
      ResumeGil(t);
      AllowThreadsRestores(s0, s1, s2, st, t, Outcome(false, 0, WorkOf(deed.body, false), false));
    }

    // Drop of a Py (register_decref): an immediate decref with a positive count, the pool otherwise.
    method RegisterDecref(t: Tid, o: Obj)
      requires Valid() && Calm(st, t) && o in st.py
      modifies this
      ensures Valid() && old(log) <= log
      ensures OnlyReleased(old(st).(py := old(st).py - multiset{o}), st, t, old(st).threads[t].stack, IDLE)
      ensures ReleasedOnce(old(st), st)
      ensures old(st).threads[t].count <= 0 ==>
                st == old(st).(py := old(st).py - multiset{o}, pool := old(st).pool + [o])
      ensures old(st).threads[t].count > 0 ==>
                TotalCount(st.heap) < TotalCount(old(st).heap) && (old(st).pool == [] ==> st.pool == [])
      decreases TotalCount(st.heap), 3
    {
      hide Exec, Possible, Do, TotalCount, HeapWork, Done, Falls, ReleasedOnce, Inv, OnlyReleased, Plus;
      if st.threads[t].count > 0 {
        DropNow(t, o);
      } else {
        DropLater(t, o);
      }
    }

    method DropLater(t: Tid, o: Obj)
      requires Valid() && Calm(st, t) && o in st.py && st.threads[t].count <= 0
      modifies this
      ensures Valid() && old(log) <= log
      ensures OnlyReleased(old(st).(py := old(st).py - multiset{o}), st, t, old(st).threads[t].stack, IDLE)
      ensures ReleasedOnce(old(st), st)
      ensures st == old(st).(py := old(st).py - multiset{o}, pool := old(st).pool + [o])
      decreases TotalCount(st.heap), 2
    {
      hide Exec, Possible, Do, TotalCount, ReleasedOnce, Inv, OnlyReleased;
      ghost var s0 := st;
      ValidInv();
      DropWithoutGilDefers(st, t, o);
      Step(t, DropPy(o));
      Step(t, TakeMutex);
      Step(t, PushPool);
      OnlyQueued(s0.(py := s0.py - multiset{o}), st, t);
      ValidInv();
      assert s0.threads == s0.threads[t := s0.threads[t]];
      ReleasesOnce(s0, st, t);
    }

    method DropNow(t: Tid, o: Obj)
      requires Valid() && Calm(st, t) && o in st.py && st.threads[t].count > 0
      modifies this
      ensures Valid() && old(log) <= log
      ensures OnlyReleased(old(st).(py := old(st).py - multiset{o}), st, t, old(st).threads[t].stack, IDLE)
      ensures ReleasedOnce(old(st), st) && TotalCount(st.heap) < TotalCount(old(st).heap)
      ensures old(st).pool == [] ==> st.pool == []
      decreases TotalCount(st.heap), 2
    {
      hide Exec, Possible, Do, TotalCount, HeapWork, Done, Falls, ReleasedOnce, Inv, Plus;
      ghost var s0 := st;
      ghost var gone := st.(py := st.py - multiset{o});
      assert MayTouch(st, t, o) by {
        ValidInv();
        HandleMayTouch(st, t, o);
      }
      DropPyEffect(st, t, o);
      var freed, deeds := st.heap[o].rc == 1, st.heap[o].deeds;
      Step(t, DropPy(o));
      ghost var s1 := st;
      if freed {
        Finalize(t, deeds);
        StaysClean(deeds);
        DecreffedFurther(gone, s1, st, t, s1.threads[t].stack, s1.threads[t].stack.below, WorkOf(deeds, true));
      } else {
        OnlyDecreffed(gone, st, t, st.threads[t].stack);
      }
      assert ReleasedOnce(s0, st) by {
        ReachableInv(n, old(log));
        ValidInv();
        ReleasesOnce(s0, st, t);
      }
    }

    // GILGuard::acquire. With a count of zero it ensures the GIL, with a positive one it assumes it;
    // a negative one panics after the GIL was ensured.
    method AcquireGuard(t: Tid) returns (panicked: bool)
      requires Valid() && Calm(st, t)
      modifies this
      ensures Valid() && old(log) <= log
      ensures panicked == (old(st).threads[t].count < 0)
      ensures Became(old(st), st, t, Acquired(old(st), t), Some(t), IDLE)
      ensures !panicked ==> st.pool == [] && ReleasedOnce(old(st), st)
      ensures panicked ==> st.pool == old(st).pool
      decreases TotalCount(st.heap), 3
    {
      hide Exec, Possible, Do, TotalCount, HeapWork, Done, Falls, ReleasedOnce, Became, Plus, Inv;
      ghost var s0 := st;
      var count := st.threads[t].count;
      assert count != 0 ==> st.owner == Some(t) by {
        ValidInv();
        CountsAgree(st, t);
      }
      AcquireEffect(st, t);
      Step(t, Acquire);
      if count <= 0 {
        Step(t, EnsureReturns);
        Step(t, CountGuard);
      }
      panicked := count < 0;
      ghost var s1 := st;
      if panicked {
        BecameAtOnce(s0, s1, t, Acquired(s0, t), Some(t));
      } else {
        UpdateCounts(t);
        ReleasedOnceFrom(s0, s1, st);
        PolledBecomes(s0, s1, st, t, Acquired(s0, t), Some(t));
      }
    }

    // GILGuard::assume.
    method AssumeGuard(t: Tid) returns (panicked: bool)
      requires Valid() && Calm(st, t) && st.owner == Some(t)
      modifies this
      ensures Valid() && old(log) <= log
      ensures panicked == (old(st).threads[t].count < 0)
      ensures Became(old(st), st, t, AssumedBy(old(st).threads[t]), Some(t), IDLE)
      ensures if panicked then st == old(st) else st.pool == [] && ReleasedOnce(old(st), st)
      decreases TotalCount(st.heap), 3
    {
      hide Exec, Possible, Do, TotalCount, HeapWork, Done, Falls, ReleasedOnce, Became, Plus, Inv;
      ghost var s0 := st;
      panicked := st.threads[t].count < 0;
      AssumeEffect(st, t);
      Step(t, Assume);
      ghost var s1 := st;
      if panicked {
        BecameAtOnce(s0, s1, t, s0.threads[t], Some(t));
        assert s0.threads[t := s0.threads[t]] == s0.threads;
      } else {
        UpdateCounts(t);
        ReleasedOnceFrom(s0, s1, st);
        PolledBecomes(s0, s1, st, t, AssumedBy(s0.threads[t]), Some(t));
      }
    }

    // Drop of a GILGuard.
    method DropGilGuard(t: Tid)
      requires Valid() && Enabled(st, t, DropGuard)
      modifies this
      ensures Valid() && old(log) <= log
      ensures st == GuardDropped(old(st), t)
    {
      hide Exec, Possible;
      assert st.threads[t].count > 0 by {
        ValidInv();
        assert ThreadOk(st.threads[t], st.owner == Some(t), st.mutex == Some(t));
      }
      var ensured := st.threads[t].stack.top.Ensured?;
      Step(t, DropGuard);
      if ensured {
        Step(t, Decrement);
      }
    }

    // SuspendGIL::new.
    method SuspendGil(t: Tid)
      requires Valid() && Enabled(st, t, Suspend)
      modifies this
      ensures Valid() && old(log) <= log
      ensures st == SetThread(old(st).(owner := None), t, SuspendedBy(old(st).threads[t]))
    {
      hide Exec, Possible;
      Step(t, Suspend);
      Step(t, SaveThread);
    }

    // Drop of a SuspendGIL.
    method ResumeGil(t: Tid)
      requires Valid() && Calm(st, t) && st.owner.None? && Enabled(st, t, DropSuspend)
      modifies this
      ensures Valid() && old(log) <= log
      ensures Became(old(st), st, t, Resumed(old(st), t), Some(t), IDLE)
      ensures st.pool == [] && ReleasedOnce(old(st), st)
      decreases TotalCount(st.heap), 3
    {
      hide Exec, Possible, Do, TotalCount, HeapWork, Done, Falls, ReleasedOnce, Became, Plus, Inv;
      ghost var s0 := st;
      ResumeEffect(st, t);
      Step(t, DropSuspend);
      Step(t, RestoreThread);
      ghost var s1 := st;
      UpdateCounts(t);
      ReleasedOnceFrom(s0, s1, st);
      PolledBecomes(s0, s1, st, t, Resumed(s0, t), Some(t));
    }

    method RunOne(t: Tid, scope: Scope) returns (panicked: bool)
      requires Valid() && Calm(st, t)
      requires WellFormedOne(scope, st.threads[t].count, st.owner == Some(t))
      modifies this
      ensures Valid() && old(log) <= log
      ensures var outcome := OutcomeOfOne(scope, old(st).threads[t].count, old(st).pool == []);
              panicked == outcome.panics && Restored(old(st), st, t, outcome)
      ensures ReleasedOnce(old(st), st)
      ensures scope.DropOne? && scope.o in old(st).py && old(st).threads[t].count <= 0 ==> st.pool == old(st).pool + [scope.o]
      decreases scope, 1
    {
      hide Exec, Possible, Do, TotalCount, HeapWork, Done, Falls, ReleasedOnce, Restored, Plus, Inv;
      ghost var s0 := st;
      match scope {
        case WithGil(_) => panicked := RunWithGil(t, scope);
        case AssumeGil(_) => panicked := RunAssumed(t, scope);
        case AllowThreads(_) => panicked := RunSuspended(t, scope);
        case DuringTraverse(_) => panicked := RunTraverse(t, scope);
        case Catch(body) =>
          panicked := Run(t, body);
          Caught(s0, st, t, OutcomeOf(body, s0.threads[t].count, s0.pool == []));
          panicked := false;
        case DropOne(o) =>
          panicked := false;
          if o in st.py {
            RegisterDecref(t, o);
          }
          DroppedIsRestored(s0, st, t, o, s0.threads[t].count > 0 && s0.pool == []);
        case Panic =>
          panicked := true;
          RestoredAtOnce(st, t, true, st.pool == []);
      }
      assert ReleasedOnce(s0, st) by {
        ReachableInv(n, old(log));
        ValidInv();
        RestoredIsCalm(s0, st, t, OutcomeOfOne(scope, s0.threads[t].count, s0.pool == []));
        ReleasesOnce(s0, st, t);
      }
    }

    method RunWithGil(t: Tid, scope: Scope) returns (panicked: bool)
      requires Valid() && Calm(st, t) && scope.WithGil?
      requires WellFormedOne(scope, st.threads[t].count, st.owner == Some(t))
      modifies this
      ensures Valid() && old(log) <= log
      ensures var outcome := OutcomeOfOne(scope, old(st).threads[t].count, old(st).pool == []);
              panicked == outcome.panics && Restored(old(st), st, t, outcome)
      decreases scope, 0
    {
      hide Exec, Possible, Do, TotalCount, HeapWork, Done, Falls, ReleasedOnce, Plus, Inv;
      ghost var s0 := st;
      assert s0.threads[t].count != 0 ==> s0.owner == Some(t) by {
        ValidInv();
        CountsAgree(s0, t);
      }
      panicked := AcquireGuard(t);
      if !panicked {
        ghost var s1 := st;
        panicked := Run(t, scope.body);
        WithGilRestores(s0, s1, st, t, OutcomeOf(scope.body, s1.threads[t].count, true));
        DropGilGuard(t);
      }
    }

    method RunAssumed(t: Tid, scope: Scope) returns (panicked: bool)
      requires Valid() && Calm(st, t) && scope.AssumeGil?
      requires WellFormedOne(scope, st.threads[t].count, st.owner == Some(t))
      modifies this
      ensures Valid() && old(log) <= log
      ensures var outcome := OutcomeOfOne(scope, old(st).threads[t].count, old(st).pool == []);
              panicked == outcome.panics && Restored(old(st), st, t, outcome)
      decreases scope, 0
    {
      hide Exec, Possible, Do, TotalCount, HeapWork, Done, Falls, ReleasedOnce, Plus, Inv;
      ghost var s0 := st;
      panicked := AssumeGuard(t);
      if !panicked {
        ghost var s1 := st;
        panicked := Run(t, scope.body);
        AssumedRestores(s0, s1, st, t, OutcomeOf(scope.body, s1.threads[t].count, true));
        DropGilGuard(t);
      }
    }

    method RunSuspended(t: Tid, scope: Scope) returns (panicked: bool)
      requires Valid() && Calm(st, t) && scope.AllowThreads?
      requires WellFormedOne(scope, st.threads[t].count, st.owner == Some(t))
      modifies this
      ensures Valid() && old(log) <= log
      ensures var outcome := OutcomeOfOne(scope, old(st).threads[t].count, old(st).pool == []);
              panicked == outcome.panics && Restored(old(st), st, t, outcome)
      decreases scope, 0
    {
      hide Exec, Possible, Do, TotalCount, HeapWork, Done, Falls, ReleasedOnce, Plus, Inv;
      ghost var s0 := st;
      assert st.owner == Some(t) by {
        ValidInv();
        CountsAgree(st, t);
      }
      SuspendGil(t);
      ghost var s1 := st;
      panicked := Run(t, scope.body);
      ghost var s2 := st;
      ResumeGil(t);
      AllowThreadsRestores(s0, s1, s2, st, t, OutcomeOf(scope.body, 0, s0.pool == []));
    }

    method RunTraverse(t: Tid, scope: Scope) returns (panicked: bool)
      requires Valid() && Calm(st, t) && scope.DuringTraverse?
      requires WellFormedOne(scope, st.threads[t].count, st.owner == Some(t))
      modifies this
      ensures Valid() && old(log) <= log
      ensures var outcome := OutcomeOfOne(scope, old(st).threads[t].count, old(st).pool == []);
              panicked == outcome.panics && Restored(old(st), st, t, outcome)
      decreases scope, 0
    {
      hide Exec, Possible, Do, Enabled, TotalCount, ReleasedOnce, Inv, Restored;
      ghost var s0 := st;
      assert s0.owner == Some(t) && s0.threads[t].count >= 0;
      TraverseEffect(st, t);
      Step(t, LockTraverse);
      ghost var s1 := st;
      panicked := Run(t, scope.body);
      TraverseRestores(s0, s1, st, t, OutcomeOf(scope.body, -1, s0.pool == []));
      Step(t, UnlockTraverse);
    }

    // Runs properly nested scopes. Every guard is dropped on the way out, panic or not.
    method Run(t: Tid, scopes: seq<Scope>) returns (panicked: bool)
      requires Valid() && Calm(st, t)
      requires WellFormed(scopes, st.threads[t].count, st.owner == Some(t))
      modifies this
      ensures Valid() && old(log) <= log
      ensures var outcome := OutcomeOf(scopes, old(st).threads[t].count, old(st).pool == []);
              panicked == outcome.panics && Restored(old(st), st, t, outcome)
      ensures ReleasedOnce(old(st), st)
      decreases scopes
    {
      hide Exec, Possible, Do, TotalCount, HeapWork, Done, Falls, ReleasedOnce, Restored, Plus, Inv;
      panicked := false;
      ghost var s0 := st;
      ghost var outcome := OutcomeOf(scopes, st.threads[t].count, st.pool == []);
      if scopes == [] {
        RestoredAtOnce(st, t, false, st.pool == []);
      } else {
        ghost var first := OutcomeOfOne(scopes[0], s0.threads[t].count, s0.pool == []);
        panicked := RunOne(t, scopes[0]);
        RestoredIsCalm(s0, st, t, first);
        if !panicked {
          ghost var s1 := st;
          panicked := Run(t, scopes[1..]);
          RestoredTwice(s0, s1, st, t, first, OutcomeOf(scopes[1..], s0.threads[t].count, s1.pool == []));
          CleanerRun(scopes[1..], s0.threads[t].count, first.clean, s1.pool == []);
          RestoredLessClean(s0, st, t, outcome, OutcomeOf(scopes[1..], s0.threads[t].count, s1.pool == []).clean);
        }
      }
      assert ReleasedOnce(s0, st) by {
        ReachableInv(n, old(log));
        ValidInv();
        RestoredIsCalm(s0, st, t, outcome);
        ReleasesOnce(s0, st, t);
      }
    }
  }

  lemma HandleMayTouch(s: State, t: Tid, o: Obj)
    requires Inv(s) && Calm(s, t) && o in s.py && s.threads[t].count > 0
    ensures MayTouch(s, t, o)
  {
    TokenOwns(s, t);
    assert RefCount(s.heap, o) == Owned(s, o) > 0;
  }

  lemma FinalizerHolds(s: State, t: Tid)
    requires Inv(s) && Releases(s, t, FinalizeNext)
    ensures s.owner == Some(t) && s.threads[t].count > 0 && Enabled(s, t, GuardFields)
  {
    assert ThreadOk(s.threads[t], s.owner == Some(t), s.mutex == Some(t));
  }
}
