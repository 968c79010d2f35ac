/**
  What deallocators still have to do: the work stored in the heap. An object that is freed has its
  work done, so what a piece of code does is its own work and the work that left the heap.
*/
module GilWork {
  import opened GilMachine
  import opened Options

  // ---------------------------------------------------------------- the total of all refcounts

  function SlotCount(c: Slot): nat {
    if c.Live? then c.rc else 0
  }

  function TotalCount(heap: seq<Slot>): nat {
    if heap == [] then 0 else SlotCount(heap[0]) + TotalCount(heap[1..])
  }

  lemma {:induction false} TotalCountUpdate(heap: seq<Slot>, o: Obj, c: Slot)
    requires o < |heap|
    ensures TotalCount(heap[o := c]) + SlotCount(heap[o]) == TotalCount(heap) + SlotCount(c)
  {
    if o == 0 {
      assert heap[o := c][1..] == heap[1..];
    } else {
      assert heap[o := c][1..] == heap[1..][o - 1 := c];
      TotalCountUpdate(heap[1..], o - 1, c);
    }
  }

  // ---------------------------------------------------------------- work

  // Drops of Py handles, and calls of PyGILState_Ensure and PyEval_SaveThread, each with its counterpart.
  datatype Work = Work(drops: multiset<Obj>, ensured: nat, saved: nat)

  const IDLE: Work := Work(multiset{}, 0, 0)

  function Plus(v: Work, w: Work): Work {
    Work(v.drops + w.drops, v.ensured + w.ensured, v.saved + w.saved)
  }

  predicate Within(v: Work, w: Work) {
    v.drops <= w.drops && v.ensured <= w.ensured && v.saved <= w.saved
  }

  function Minus(v: Work, w: Work): Work
    requires Within(w, v)
  {
    Work(v.drops - w.drops, v.ensured - w.ensured, v.saved - w.saved)
  }

  // Acquiring ensures the GIL when no guard is open.
  function GuardWork(holds: bool): Work {
    Work(multiset{}, if holds then 0 else 1, 0)
  }

  // What deeds do, with or without the GIL; giving it up needs it.
  function WorkOf(deeds: seq<Deed>, holds: bool): Work {
    if deeds == [] then IDLE else Plus(WorkOfOne(deeds[0], holds), WorkOf(deeds[1..], holds))
  }

  function WorkOfOne(deed: Deed, holds: bool): Work {
    match deed
    case ReleaseField => IDLE
    case DropHandle(o) => Work(multiset{o}, 0, 0)
    case Guarded(b) => Plus(GuardWork(holds), WorkOf(b, true))
    case WithoutGil(b) => if holds then Plus(Work(multiset{}, 0, 1), WorkOf(b, false)) else IDLE
  }

  // How many fields deeds release by themselves.
  function FieldsIn(deeds: seq<Deed>): nat {
    if deeds == [] then 0 else FieldsInOne(deeds[0]) + FieldsIn(deeds[1..])
  }

  function FieldsInOne(deed: Deed): nat {
    match deed
    case ReleaseField => 1
    case Guarded(b) => FieldsIn(b)
    case _ => 0
  }

  // Is the pool surely empty after deeds? A guard drains it, and so does taking the GIL back.
  predicate CleanAfter(deeds: seq<Deed>, holds: bool, clean: bool) {
    if deeds == [] then clean else CleanAfter(deeds[1..], holds, CleanAfterOne(deeds[0], holds, clean))
  }

  predicate CleanAfterOne(deed: Deed, holds: bool, clean: bool) {
    match deed
    case ReleaseField => clean
    case DropHandle(_) => holds && clean
    case Guarded(b) => CleanAfter(b, true, true)
    case WithoutGil(_) => holds || clean
  }

  lemma {:induction false} StaysClean(deeds: seq<Deed>)
    ensures CleanAfter(deeds, true, true)
    decreases deeds
  {
    if deeds != [] {
      if deeds[0].Guarded? { StaysClean(deeds[0].body); }
      StaysClean(deeds[1..]);
    }
  }

  lemma {:induction false} CleanerStays(deeds: seq<Deed>, holds: bool, clean: bool, cleaner: bool)
    requires clean ==> cleaner
    ensures CleanAfter(deeds, holds, clean) ==> CleanAfter(deeds, holds, cleaner)
    decreases |deeds|
  {
    if deeds != [] {
      CleanerStays(deeds[1..], holds, CleanAfterOne(deeds[0], holds, clean), CleanAfterOne(deeds[0], holds, cleaner));
    }
  }

  // ---------------------------------------------------------------- the work in the heap

  function SlotWork(c: Slot): Work {
    if c.Live? then WorkOf(c.deeds, true) else IDLE
  }

  function HeapWork(heap: seq<Slot>): Work {
    if heap == [] then IDLE else Plus(SlotWork(heap[0]), HeapWork(heap[1..]))
  }

  lemma {:induction false} HeapWorkUpdate(heap: seq<Slot>, o: Obj, c: Slot)
    requires o < |heap|
    ensures Plus(HeapWork(heap[o := c]), SlotWork(heap[o])) == Plus(HeapWork(heap), SlotWork(c))
    decreases |heap|
  {
    hide SlotWork;
    if o == 0 {
      assert heap[o := c][1..] == heap[1..];
      PlusSwaps(SlotWork(c), HeapWork(heap[1..]), SlotWork(heap[0]));
    } else {
      assert heap[o := c][1..] == heap[1..][o - 1 := c];
      HeapWorkUpdate(heap[1..], o - 1, c);
      PlusInside(SlotWork(heap[0]), HeapWork(heap[1..][o - 1 := c]), SlotWork(heap[o]), HeapWork(heap[1..]), SlotWork(c));
    }
  }

  lemma PlusSwaps(a: Work, b: Work, c: Work)
    ensures Plus(Plus(a, b), c) == Plus(Plus(c, b), a)
  {
  }

  lemma PlusInside(a: Work, b: Work, c: Work, b': Work, c': Work)
    requires Plus(b, c) == Plus(b', c')
    ensures Plus(Plus(a, b), c) == Plus(Plus(a, b'), c')
  {
    assert Plus(Plus(a, b), c) == Plus(a, Plus(b, c));
    assert Plus(Plus(a, b'), c') == Plus(a, Plus(b', c'));
  }

  // What was done from one heap to the next, given the work of the code that ran: that, and what left the heap.
  predicate Falls(heap: seq<Slot>, heap': seq<Slot>) {
    Within(HeapWork(heap'), HeapWork(heap))
  }

  function Done(heap: seq<Slot>, heap': seq<Slot>, w: Work): Work
    requires Falls(heap, heap')
  {
    Plus(w, Minus(HeapWork(heap), HeapWork(heap')))
  }

  lemma NothingDone(heap: seq<Slot>, w: Work)
    ensures Falls(heap, heap) && Done(heap, heap, w) == w
  {
    assert w.drops + (HeapWork(heap).drops - HeapWork(heap).drops) == w.drops;
  }

  lemma DoneTwice(h0: seq<Slot>, h1: seq<Slot>, h2: seq<Slot>, v: Work, w: Work)
    requires Falls(h0, h1) && Falls(h1, h2)
    ensures Falls(h0, h2) && Done(h0, h2, Plus(v, w)) == Plus(Done(h0, h1, v), Done(h1, h2, w))
  {
    hide HeapWork;
    var a, b, c := HeapWork(h0).drops, HeapWork(h1).drops, HeapWork(h2).drops;
    assert (v.drops + w.drops) + (a - c) == (v.drops + (a - b)) + (w.drops + (b - c));
  }

  // Work that left the heap by itself can also be counted as the work of the code that does it.
  lemma DoneBy(h0: seq<Slot>, h1: seq<Slot>, h2: seq<Slot>, w: Work)
    requires HeapWork(h0) == Plus(HeapWork(h1), w) && Falls(h1, h2)
    ensures Falls(h0, h2) && Done(h0, h2, IDLE) == Done(h1, h2, w)
  {
    hide HeapWork;
    var b, c := HeapWork(h1).drops, HeapWork(h2).drops;
    assert multiset{} + ((b + w.drops) - c) == w.drops + (b - c);
  }

  function Called(c: Calls, w: Work): Calls {
    c.(ensured := c.ensured + w.ensured, released := c.released + w.ensured,
       saved := c.saved + w.saved, restored := c.restored + w.saved)
  }

  lemma TwiceDropped(m: multiset<Obj>, a: multiset<Obj>, b: multiset<Obj>)
    ensures (m - a) - b == m - (a + b)
  {
  }
}
