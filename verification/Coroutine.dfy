/**
  The coroutine that drives a Rust future from Python: send, throw, next and close, the waker that is
  reset in place or replaced, and the cancel handle.
*/
module Coroutine {
  import opened Options

  type Value = int
  type Exception = int

  // ---------------------------------------------------------------- wakers

  // The cell of a waker: empty, woken before there was an asyncio future, or an asyncio future to release.
  datatype Cell = Empty | Woken | Waiting(future: nat)

  // A clone of a waker, with the number of the poll that handed it out.
  datatype Handle = Handle(waker: nat, poll: nat)

  // The cancel handle behind the throw callback.
  datatype Cancel = NoCallback | Callback(exception: Option<Exception>, waker: Option<Handle>)

  // open: the future is still there. cells: by waker; epochs: the poll that last reset each waker.
  // held: clones kept outside the coroutine. futures: the poll in which each asyncio future was made.
  // released: asyncio futures whose result was set.
  datatype State = State(open: bool, waker: Option<nat>, cells: seq<Cell>, epochs: seq<nat>, held: seq<Handle>,
                         futures: seq<nat>, released: set<nat>, cancel: Cancel, polls: nat)

  function Initial(hasCallback: bool): State {
    State(true, None, [], [], [], [], {}, if hasCallback then Callback(None, None) else NoCallback, 0)
  }

  function WakeWaker(s: State, w: nat): State {
    if w >= |s.cells| then s
    else
      match s.cells[w]
      case Empty => s.(cells := s.cells[w := Woken])
      case Woken => s
      case Waiting(f) => s.(released := s.released + {f})
  }

  // Arc::get_mut: is there no clone besides the coroutine's own?
  predicate Unique(s: State, w: nat) {
    && (forall i :: 0 <= i < |s.held| ==> s.held[i].waker != w)
    && !(s.cancel.Callback? && s.cancel.waker.Some? && s.cancel.waker.value.waker == w)
  }

  // A waker for the next poll: the old one reset, if nobody else has it, or a new one.
  function WithWaker(s: State): State {
    var n := s.polls + 1;
    if s.waker.Some? && s.waker.value < |s.cells| && |s.epochs| == |s.cells| && Unique(s, s.waker.value) then
      s.(cells := s.cells[s.waker.value := Empty], epochs := s.epochs[s.waker.value := n], polls := n)
    else
      s.(waker := Some(|s.cells|), cells := s.cells + [Empty], epochs := s.epochs + [n], polls := n)
  }

  // ---------------------------------------------------------------- the world

  // What the future does while it is polled, and other threads at any time: clone, drop and wake
  // wakers, and look for a thrown exception.
  datatype Action = KeepContext | WakeContext | CheckCancelled | Clone(i: nat) | Discard(i: nat) | Wake(i: nat)

  function Act(s: State, a: Action): State {
    match a
    case KeepContext => if s.waker.Some? then s.(held := s.held + [Handle(s.waker.value, s.polls)]) else s
    case WakeContext => if s.waker.Some? then WakeWaker(s, s.waker.value) else s
    case CheckCancelled =>
      if s.cancel.NoCallback? || s.waker.None? then s
      else if s.cancel.exception.Some? then s.(cancel := s.cancel.(exception := None))
      else if s.cancel.waker.Some? && s.cancel.waker.value.waker == s.waker.value then s
      else s.(cancel := s.cancel.(waker := Some(Handle(s.waker.value, s.polls))))
    case Clone(i) => if i < |s.held| then s.(held := s.held + [s.held[i]]) else s
    case Discard(i) => if i < |s.held| then s.(held := s.held[..i] + s.held[i + 1..]) else s
    case Wake(i) => if i < |s.held| then WakeWaker(s, s.held[i].waker) else s
  }

  function Acts(s: State, actions: seq<Action>): State
    decreases |actions|
  {
    if actions == [] then s else Acts(Act(s, actions[0]), actions[1..])
  }

  datatype Polled = Pending | Ready(v: Value) | Failed(e: Exception) | Panicked(payload: int)

  datatype Start = Started | StartFailed(e: Exception)

  // How the world behaves during one call: the poll, and the making of the asyncio future after it.
  datatype World = World(polling: seq<Action>, polled: Polled, starting: seq<Action>, start: Start)

  // ---------------------------------------------------------------- calls

  datatype Outcome =
    | Reused                      // cannot reuse already awaited coroutine
    | StopIteration(v: Value) | Raised(e: Exception) | PanicException(payload: int) | Rethrown(e: Exception)
    | LoopError(e: Exception)     // no asyncio future could be made
    | Yielded(future: nat) | YieldedNone
    | Closed | Quiet

  predicate Final(o: Outcome) {
    o.StopIteration? || o.Raised? || o.PanicException? || o.Rethrown?
  }

  predicate Raises(o: Outcome) {
    Final(o) || o.Reused? || o.LoopError?
  }

  // The cancel handle keeps the last exception and wakes whoever waits for one.
  function ThrowInto(s: State, e: Exception): State
    requires s.cancel.Callback?
  {
    var stored := s.(cancel := Callback(Some(e), None));
    if s.cancel.waker.Some? then WakeWaker(stored, s.cancel.waker.value.waker) else stored
  }

  // initialize_future: GILOnceCell keeps the first value if the cell was filled meanwhile.
  function Initialize(s: State, world: World): (State, Outcome)
    requires s.waker.Some? && s.waker.value < |s.cells|
  {
    var w := s.waker.value;
    match s.cells[w]
    case Waiting(f) => (s, Yielded(f))
    case Woken => (s, YieldedNone)
    case Empty =>
      var s1 := Acts(s, world.starting);
      match world.start
      case StartFailed(e) => (s1, LoopError(e))
      case Started =>
        var f := |s1.futures|;
        var s2 := s1.(futures := s1.futures + [s1.polls]);
        if w >= |s2.cells| then (s2, YieldedNone)
        else
          match s2.cells[w]
          case Empty => (s2.(cells := s2.cells[w := Waiting(f)]), Yielded(f))
          case Woken => (s2, YieldedNone)
          case Waiting(g) => (s2, Yielded(g))
  }

  // What no action changes.
  predicate SameRun(s: State, s': State) {
    s'.waker == s.waker && |s'.cells| == |s.cells| && s'.epochs == s.epochs && s'.polls == s.polls
    && s'.open == s.open && s'.futures == s.futures && s'.cancel.Callback? == s.cancel.Callback?
  }

  lemma ActKeepsRun(s: State, a: Action)
    ensures SameRun(s, Act(s, a))
  {
  }

  lemma {:induction false} ActsKeepRun(s: State, actions: seq<Action>)
    ensures SameRun(s, Acts(s, actions))
    decreases |actions|
  {
    hide Act;
    if actions != [] {
      ActKeepsRun(s, actions[0]);
      ActsKeepRun(Act(s, actions[0]), actions[1..]);
    }
  }

  function PollFuture(s: State, world: World): (State, Outcome) {
    var ready := WithWaker(s);
    var after := Acts(ready, world.polling);
    match world.polled
    case Ready(v) => (after.(open := false), StopIteration(v))
    case Failed(e) => (after.(open := false), Raised(e))
    case Panicked(p) => (after.(open := false), PanicException(p))
    case Pending =>
      ActsKeepRun(ready, world.polling);
      Initialize(after, world)
  }

  function Poll(s: State, throw_: Option<Exception>, world: World): (State, Outcome) {
    if !s.open then (s, Reused)
    else if throw_.Some? && s.cancel.NoCallback? then (s.(open := false), Rethrown(throw_.value))
    else PollFuture(if throw_.Some? then ThrowInto(s, throw_.value) else s, world)
  }

  datatype Step = Send(world: World) | Next(world: World) | Throw(e: Exception, world: World) | Close | Outside(a: Action)

  predicate IsCall(step: Step) {
    step.Send? || step.Next? || step.Throw?
  }

  function Take(s: State, step: Step): (State, Outcome) {
    match step
    case Send(world) => Poll(s, None, world)
    case Next(world) => Poll(s, None, world)
    case Throw(e, world) => Poll(s, Some(e), world)
    case Close => (s.(open := false), Closed)
    case Outside(a) => (Act(s, a), Quiet)
  }

  function Run(s: State, steps: seq<Step>): (State, seq<Outcome>)
    decreases |steps|
  {
    if steps == [] then (s, [])
    else
      var (s', o) := Take(s, steps[0]);
      var (end, os) := Run(s', steps[1..]);
      (end, [o] + os)
  }

  // ---------------------------------------------------------------- the object

  class Coroutine {
    var open: bool                 // future.is_some()
    var waker: Option<nat>
    // shared with the future, other threads and the event loop
    var cells: seq<Cell>
    var epochs: seq<nat>
    var held: seq<Handle>
    var futures: seq<nat>
    var released: set<nat>
    var cancel: Cancel
    var polls: nat

    function Now(): State
      reads this
    {
      State(open, waker, cells, epochs, held, futures, released, cancel, polls)
    }

    constructor (hasCallback: bool)
      ensures Now() == Initial(hasCallback)
    {
      open, waker, cells, epochs, held, futures, released, polls := true, None, [], [], [], [], {}, 0;
      cancel := if hasCallback then Callback(None, None) else NoCallback;
    }

    method WakeCell(w: nat)
      modifies this
      ensures Now() == WakeWaker(old(Now()), w)
    {
      if w < |cells| {
        match cells[w] {
          case Empty => cells := cells[w := Woken];
          case Woken =>
          case Waiting(f) => released := released + {f};
        }
      }
    }

    method Perform(a: Action)
      modifies this
      ensures Now() == Act(old(Now()), a)
    {
      match a
      case KeepContext => if waker.Some? { held := held + [Handle(waker.value, polls)]; }
      case WakeContext => if waker.Some? { WakeCell(waker.value); }
      case CheckCancelled =>
        if cancel.Callback? && waker.Some? {
          if cancel.exception.Some? {
            cancel := cancel.(exception := None);
          } else if !(cancel.waker.Some? && cancel.waker.value.waker == waker.value) {
            cancel := cancel.(waker := Some(Handle(waker.value, polls)));
          }
        }
      case Clone(i) => if i < |held| { held := held + [held[i]]; }
      case Discard(i) => if i < |held| { held := held[..i] + held[i + 1..]; }
      case Wake(i) => if i < |held| { WakeCell(held[i].waker); }
    }

    method PerformAll(actions: seq<Action>)
      modifies this
      ensures Now() == Acts(old(Now()), actions)
    {
      hide Act;
      assert actions[0..] == actions;
      for i := 0 to |actions|
        invariant Acts(old(Now()), actions) == Acts(Now(), actions[i..])
      {
        assert actions[i..][0] == actions[i] && actions[i..][1..] == actions[i + 1..];
        Perform(actions[i]);
      }
      assert actions[|actions|..] == [];
    }

    method ResetOrReplaceWaker()
      modifies this
      ensures Now() == WithWaker(old(Now()))
    {
      var n := polls + 1;
      if waker.Some? && waker.value < |cells| && |epochs| == |cells| && Unique(Now(), waker.value) {
        cells, epochs := cells[waker.value := Empty], epochs[waker.value := n];
      } else {
        waker := Some(|cells|);
        cells, epochs := cells + [Empty], epochs + [n];
      }
      polls := n;
    }

    method ThrowCallback(e: Exception)
      requires cancel.Callback?
      modifies this
      ensures Now() == ThrowInto(old(Now()), e)
    {
      var waiting := cancel.waker;
      cancel := Callback(Some(e), None);
      if waiting.Some? {
        WakeCell(waiting.value.waker);
      }
    }

    method InitializeFuture(world: World) returns (o: Outcome)
      requires waker.Some? && waker.value < |cells|
      modifies this
      ensures (Now(), o) == Initialize(old(Now()), world)
    {
      hide Acts, Act;
      var w := waker.value;
      match cells[w] {
        case Waiting(f) => return Yielded(f);
        case Woken => return YieldedNone;
        case Empty =>
      }
      ghost var before := Now();
      PerformAll(world.starting);
      ActsKeepRun(before, world.starting);
      if world.start.StartFailed? {
        return LoopError(world.start.e);
      }
      var f := |futures|;
      futures := futures + [polls];
      match cells[w] {
        case Empty =>
          cells := cells[w := Waiting(f)];
          o := Yielded(f);
        case Woken => o := YieldedNone;
        case Waiting(g) => o := Yielded(g);
      }
    }

    method DoPoll(throw_: Option<Exception>, world: World) returns (o: Outcome)
      modifies this
      ensures (Now(), o) == Poll(old(Now()), throw_, world)
    {
      hide Acts, Act, Initialize, ThrowInto, Unique;
      if !open {
        return Reused;
      }
      if throw_.Some? {
        if cancel.Callback? {
          ThrowCallback(throw_.value);
        } else {
          DoClose();
          return Rethrown(throw_.value);
        }
      }
      ResetOrReplaceWaker();
      ghost var ready := Now();
      PerformAll(world.polling);
      ActsKeepRun(ready, world.polling);
      match world.polled
      case Ready(v) =>
        DoClose();
        o := StopIteration(v);
      case Failed(e) =>
        DoClose();
        o := Raised(e);
      case Panicked(p) =>
        DoClose();
        o := PanicException(p);
      case Pending =>
        o := InitializeFuture(world);
    }

    method DoClose()
      modifies this
      ensures Now() == old(Now()).(open := false)
    {
      open := false;
    }

    method Advance(step: Step) returns (o: Outcome)
      modifies this
      ensures (Now(), o) == Take(old(Now()), step)
    {
      hide Poll, Act;
      match step
      case Send(world) => o := DoPoll(None, world);
      case Next(world) => o := DoPoll(None, world);
      case Throw(e, world) => o := DoPoll(Some(e), world);
      case Close =>
        DoClose();
        o := Closed;
      case Outside(a) =>
        Perform(a);
        o := Quiet;
    }
  }
}
