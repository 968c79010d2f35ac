/**
  GILOnceCell: a cell that racing initialisers may try to fill. Every operation is atomic under
  the GIL, but an initialiser may release it before it comes back with a value, so operations of
  different callers interleave in any order. Between them, `take` empties the cell.
*/
module OnceCell {
  import opened Options

  // Set: a call of `set`. Finish, Fail: an initialiser inside `get_or_try_init` comes back.
  datatype Op<T> = Set(value: T) | Finish(value: T) | Fail | Get | Take

  // What an operation hands to its caller, and the value it discards.
  datatype Answer<T> =
    | Stored                   // set returned Ok
    | HandedBack(value: T)     // set returned Err(value)
    | Ref(value: T)            // a reference to the value in the cell
    | Empty                    // no value
    | Failed                   // the error of the initialiser
    | TakenOut(value: T)

  datatype Step<T> = Step(answer: Answer<T>, discarded: Option<T>)

  // ---------------------------------------------------------------- what the cell promises

  predicate Sets<T>(op: Op<T>) {
    op.Set? || op.Finish?
  }

  // Position k brought the first value since the cell was last emptied.
  ghost predicate FirstSet<T>(ops: seq<Op<T>>, k: nat) {
    && k < |ops| && Sets(ops[k])
    && exists e: nat :: EmptiedAt(ops, e) && e <= k
                   && forall i :: e <= i < |ops| ==> !ops[i].Take? && (i < k ==> !Sets(ops[i]))
  }

  // v is the first value since the cell was last emptied.
  ghost predicate IsFirst<T>(ops: seq<Op<T>>, v: T) {
    exists k: nat :: FirstSet(ops, k) && v == ops[k].value
  }

  // The cell is empty before position e: at the start, or just after a take.
  predicate EmptiedAt<T>(ops: seq<Op<T>>, e: nat) {
    e == 0 || (e <= |ops| && ops[e - 1].Take?)
  }

  // No value has come since the cell was last emptied.
  ghost predicate NothingSet<T>(ops: seq<Op<T>>) {
    exists e: nat :: EmptiedAt(ops, e) && e <= |ops| && forall i :: e <= i < |ops| ==> !ops[i].Take? && !Sets(ops[i])
  }

  // The values that operations brought along.
  function Brought<T>(ops: seq<Op<T>>): multiset<T> {
    if ops == [] then multiset{}
    else
      var op := ops[|ops| - 1];
      Brought(ops[..|ops| - 1]) + if Sets(op) then multiset{op.value} else multiset{}
  }

  // The values that left the cell's hands: handed back, taken out, or discarded.
  function Released<T>(steps: seq<Step<T>>): multiset<T> {
    if steps == [] then multiset{}
    else
      var s := steps[|steps| - 1];
      Released(steps[..|steps| - 1])
      + (if s.answer.HandedBack? || s.answer.TakenOut? then multiset{s.answer.value} else multiset{})
      + if s.discarded.Some? then multiset{s.discarded.value} else multiset{}
  }

  // ---------------------------------------------------------------- first values

  lemma AfterSet<T>(ops: seq<Op<T>>, op: Op<T>)
    requires NothingSet(ops) && Sets(op)
    ensures IsFirst(ops + [op], op.value)
  {
    var e: nat :| EmptiedAt(ops, e) && e <= |ops| && forall i :: e <= i < |ops| ==> !ops[i].Take? && !Sets(ops[i]);
    assert EmptiedAt(ops + [op], e);
    assert FirstSet(ops + [op], |ops|);
  }

  lemma StillFirst<T>(ops: seq<Op<T>>, op: Op<T>, v: T)
    requires IsFirst(ops, v) && !op.Take?
    ensures IsFirst(ops + [op], v)
  {
    var k: nat :| FirstSet(ops, k) && v == ops[k].value;
    var e: nat :| EmptiedAt(ops, e) && e <= k
                  && forall i :: e <= i < |ops| ==> !ops[i].Take? && (i < k ==> !Sets(ops[i]));
    assert EmptiedAt(ops + [op], e);
    assert FirstSet(ops + [op], k);
  }

  lemma StillNothing<T>(ops: seq<Op<T>>, op: Op<T>)
    requires NothingSet(ops) && !Sets(op) && !op.Take?
    ensures NothingSet(ops + [op])
  {
    var e: nat :| EmptiedAt(ops, e) && e <= |ops| && forall i :: e <= i < |ops| ==> !ops[i].Take? && !Sets(ops[i]);
    assert EmptiedAt(ops + [op], e);
  }

  lemma AfterTake<T>(ops: seq<Op<T>>)
    ensures NothingSet(ops + [Take])
  {
    assert EmptiedAt(ops + [Take], |ops| + 1);
  }

  // There is only one first value.
  lemma FirstSetIsUnique<T>(ops: seq<Op<T>>, j: nat, k: nat)
    requires FirstSet(ops, j) && FirstSet(ops, k)
    ensures j == k && !NothingSet(ops)
  {
    var d: nat :| EmptiedAt(ops, d) && d <= j
             && forall i :: d <= i < |ops| ==> !ops[i].Take? && (i < j ==> !Sets(ops[i]));
    var e: nat :| EmptiedAt(ops, e) && e <= k
             && forall i :: e <= i < |ops| ==> !ops[i].Take? && (i < k ==> !Sets(ops[i]));
    forall c: nat | EmptiedAt(ops, c) && c <= |ops|
      ensures exists i :: c <= i < |ops| && Sets(ops[i])
    {
      assert c <= j && Sets(ops[j]);
    }
  }

  // ---------------------------------------------------------------- the cell

  class GILOnceCell<T(==)> {
    var completed: bool
    var data: Option<T>              // None stands for uninitialised memory
    ghost var history: seq<Op<T>>
    ghost var steps: seq<Step<T>>

    // The cell holds the first value since it was last emptied, or none came; and no value is lost or doubled.
    ghost predicate Valid()
      reads this
    {
      && (completed ==> data.Some?)
      && |steps| == |history|
      && (if completed then IsFirst(history, data.value) else NothingSet(history))
      && Brought(history) == Released(steps) + if completed then multiset{data.value} else multiset{}
    }

    constructor ()
      ensures Valid() && history == [] && !completed
    {
      completed, data, history, steps := false, None, [], [];
      new;
      assert EmptiedAt(history, 0);
    }

    ghost method Record(op: Op<T>, step: Step<T>)
      modifies this`history, this`steps
      ensures history == old(history) + [op] && steps == old(steps) + [step]
      ensures Brought(history) == Brought(old(history)) + if Sets(op) then multiset{op.value} else multiset{}
      ensures Released(steps)
              == Released(old(steps))
                 + (if step.answer.HandedBack? || step.answer.TakenOut? then multiset{step.answer.value} else multiset{})
                 + if step.discarded.Some? then multiset{step.discarded.value} else multiset{}
    {
      history, steps := history + [op], steps + [step];
      assert history[..|history| - 1] == old(history) && steps[..|steps| - 1] == old(steps);
    }

    // Once::call_once_force around the write; gives back the value if the cell was already written.
    method Write(value: T) returns (back: Option<T>)
      modifies this`completed, this`data
      ensures completed
      ensures old(completed) ==> data == old(data) && back == Some(value)
      ensures !old(completed) ==> data == Some(value) && back.None?
    {
      back := Some(value);
      if !completed {
        data, back := back, None;
        completed := true;
      }
    }

    method Get() returns (answer: Answer<T>)
      requires Valid()
      modifies this
      ensures Valid() && history == old(history) + [Op.Get] && steps == old(steps) + [Step(answer, None)]
      ensures completed == old(completed) && data == old(data)
      ensures answer == if completed then Ref(data.value) else Empty
    {
      hide IsFirst, NothingSet, Brought, Released;
      answer := if completed then Ref(data.value) else Empty;
      ghost var was := history;
      Record(Op.Get, Step(answer, None));
      if completed {
        StillFirst(was, Op.Get, data.value);
      } else {
        StillNothing(was, Op.Get);
      }
    }

    method Set(value: T) returns (answer: Answer<T>)
      requires Valid()
      modifies this
      ensures Valid() && history == old(history) + [Op.Set(value)] && steps == old(steps) + [Step(answer, None)]
      ensures completed && data == if old(completed) then old(data) else Some(value)
      ensures answer == if old(completed) then HandedBack(value) else Stored
    {
      hide IsFirst, NothingSet, Brought, Released;
      ghost var was, full := history, completed;
      var back := Write(value);
      answer := if back.Some? then HandedBack(back.value) else Stored;
      Record(Op.Set(value), Step(answer, None));
      Keep(was, Op.Set(value), full);
    }

    // The end of `init`: the initialiser has returned, maybe long after the cell was found empty.
    method Finish(value: T) returns (answer: Answer<T>)
      requires Valid()
      modifies this
      ensures Valid() && history == old(history) + [Op.Finish(value)]
      ensures completed && data == if old(completed) then old(data) else Some(value)
      ensures answer == Ref(data.value)
      ensures steps == old(steps) + [Step(answer, if old(completed) then Some(value) else None)]
    {
      hide IsFirst, NothingSet, Brought, Released;
      ghost var was, full := history, completed;
      var back := Write(value);
      // the unwrap of `get`: the cell cannot be empty here
      answer := Ref(data.value);
      Record(Op.Finish(value), Step(answer, back));
      Keep(was, Op.Finish(value), full);
    }

    // `init` with a failing initialiser.
    method Fail() returns (answer: Answer<T>)
      requires Valid()
      modifies this
      ensures Valid() && history == old(history) + [Op.Fail] && steps == old(steps) + [Step(answer, None)]
      ensures completed == old(completed) && data == old(data) && answer.Failed?
    {
      hide IsFirst, NothingSet, Brought, Released;
      answer := Failed;
      ghost var was := history;
      Record(Op.Fail, Step(answer, None));
      if completed {
        StillFirst(was, Op.Fail, data.value);
      } else {
        StillNothing(was, Op.Fail);
      }
    }

    // Needs the cell exclusively, so no reference from before survives it. `into_inner` and drop are a take.
    method Take() returns (answer: Answer<T>)
      requires Valid()
      modifies this
      ensures Valid() && history == old(history) + [Op.Take] && steps == old(steps) + [Step(answer, None)]
      ensures !completed
      ensures answer == if old(completed) then TakenOut(old(data).value) else Empty
    {
      hide IsFirst, NothingSet, Brought, Released;
      answer := if completed then TakenOut(data.value) else Empty;
      ghost var was := history;
      completed := false;
      Record(Op.Take, Step(answer, None));
      AfterTake(was);
    }

    lemma Keep(was: seq<Op<T>>, op: Op<T>, full: bool)
      requires history == was + [op] && Sets(op) && completed && data.Some?
      requires if full then IsFirst(was, data.value) else NothingSet(was) && data == Some(op.value)
      ensures IsFirst(history, data.value)
    {
      if full {
        StillFirst(was, op, data.value);
      } else {
        AfterSet(was, op);
      }
    }

    method Apply(op: Op<T>) returns (answer: Answer<T>)
      requires Valid()
      modifies this
      ensures Valid() && history == old(history) + [op] && |steps| == |old(steps)| + 1
      ensures steps[..|old(steps)|] == old(steps) && steps[|old(steps)|].answer == answer
      ensures answer.Ref? ==> IsFirst(history, answer.value)
      ensures (op.Finish? ==> answer.Ref?) && (op.Fail? ==> answer.Failed?)
      ensures answer.TakenOut? ==> IsFirst(old(history), answer.value)
      ensures answer.Stored? || answer.Empty? ==> NothingSet(old(history))
    {
      hide IsFirst, NothingSet, Brought, Released;
      match op
      case Set(v) => answer := Set(v);
      case Finish(v) => answer := Finish(v);
      case Fail => answer := Fail();
      case Get => answer := Get();
      case Take => answer := Take();
    }
  }

  // ---------------------------------------------------------------- every interleaving

  // Runs the operations of any number of callers in any order on a new cell.
  method Interleave<T(==)>(ops: seq<Op<T>>) returns (answers: seq<Answer<T>>, ghost steps: seq<Step<T>>)
    ensures |answers| == |ops| == |steps|
    ensures forall i :: 0 <= i < |ops| ==> steps[i].answer == answers[i]
    // every reference that is handed out denotes the first value since the cell was last emptied
    ensures forall i :: 0 <= i < |ops| && answers[i].Ref? ==> IsFirst(ops[..i + 1], answers[i].value)
    // an initialiser that succeeds always gets a reference; one that fails, its error
    ensures forall i :: 0 <= i < |ops| ==>
              (ops[i].Finish? ==> answers[i].Ref?) && (ops[i].Fail? ==> answers[i].Failed?)
    // what is taken out is the first value, and a value is stored, or none found, only in an empty cell
    ensures forall i :: 0 <= i < |ops| ==>
              && (answers[i].TakenOut? ==> IsFirst(ops[..i], answers[i].value))
              && (answers[i].Stored? || answers[i].Empty? ==> NothingSet(ops[..i]))
    // each value is handed back once, taken out once or discarded once, or it is the one still in the cell
    ensures Brought(ops) == Released(steps)
            || exists v :: IsFirst(ops, v) && Brought(ops) == Released(steps) + multiset{v}
  {
    hide IsFirst, NothingSet, Brought, Released;
    var cell := new GILOnceCell<T>();
    answers := [];
    for n := 0 to |ops|
      invariant fresh(cell) && cell.Valid() && cell.history == ops[..n]
      invariant |answers| == n == |cell.steps|
      invariant forall i :: 0 <= i < n ==> cell.steps[i].answer == answers[i]
      invariant forall i :: 0 <= i < n && answers[i].Ref? ==> IsFirst(ops[..i + 1], answers[i].value)
      invariant forall i :: 0 <= i < n ==>
                  (ops[i].Finish? ==> answers[i].Ref?) && (ops[i].Fail? ==> answers[i].Failed?)
      invariant forall i :: 0 <= i < n ==>
                  && (answers[i].TakenOut? ==> IsFirst(ops[..i], answers[i].value))
                  && (answers[i].Stored? || answers[i].Empty? ==> NothingSet(ops[..i]))
    {
      assert ops[..n + 1] == ops[..n] + [ops[n]];
      ghost var before := cell.steps;
      var answer := cell.Apply(ops[n]);
      assert forall i :: 0 <= i < n ==> cell.steps[i] == before[i] by {
        assert forall i :: 0 <= i < n ==> cell.steps[..n][i] == before[i];
      }
      answers := answers + [answer];
    }
    assert ops[..|ops|] == ops;
    steps := cell.steps;
  }
}
