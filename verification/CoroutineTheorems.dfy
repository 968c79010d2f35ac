/**
  What holds of every sequence of calls on a coroutine, with the future, other threads and the event
  loop doing what they like in between.
*/
module CoroutineTheorems {
  import opened Coroutine
  import opened Options

  // ---------------------------------------------------------------- wakers belong to one poll

  // Every clone of a waker and every asyncio future in a waker's cell is of the poll that last reset that
  // waker, and no two wakers were reset by the same poll.
  predicate Inv(s: State) {
    && |s.cells| == |s.epochs|
    && (s.waker.Some? ==> s.waker.value < |s.cells| && s.epochs[s.waker.value] == s.polls)
    && (forall w :: 0 <= w < |s.epochs| ==> s.epochs[w] <= s.polls)
    && (forall v, w :: 0 <= v < w < |s.epochs| ==> s.epochs[v] != s.epochs[w])
    && (forall i :: 0 <= i < |s.held| ==> OfItsPoll(s, s.held[i]))
    && (s.cancel.Callback? && s.cancel.waker.Some? ==> OfItsPoll(s, s.cancel.waker.value))
    && (forall w :: 0 <= w < |s.cells| && s.cells[w].Waiting? ==>
          s.cells[w].future < |s.futures| && s.futures[s.cells[w].future] == s.epochs[w])
    && (forall f :: 0 <= f < |s.futures| ==> s.futures[f] <= s.polls)
    && forall f :: f in s.released ==> f < |s.futures|
  }

  predicate OfItsPoll(s: State, h: Handle) {
    h.waker < |s.epochs| && h.poll == s.epochs[h.waker]
  }

  lemma WakeKeepsInv(s: State, w: nat)
    requires Inv(s)
    ensures Inv(WakeWaker(s, w))
  {
  }

  lemma ActKeepsInv(s: State, a: Action)
    requires Inv(s)
    ensures Inv(Act(s, a))
  {
    hide Inv, WakeWaker;
    match a
    case WakeContext => if s.waker.Some? { WakeKeepsInv(s, s.waker.value); }
    case Wake(i) => if i < |s.held| { WakeKeepsInv(s, s.held[i].waker); }
    case _ => MoveKeepsInv(s, a);
  }

  lemma MoveKeepsInv(s: State, a: Action)
    requires Inv(s) && !a.WakeContext? && !a.Wake?
    ensures Inv(Act(s, a))
  {
  }

  lemma {:induction false} ActsKeepInv(s: State, actions: seq<Action>)
    requires Inv(s)
    ensures Inv(Acts(s, actions))
    decreases |actions|
  {
    hide Inv, Act;
    if actions != [] {
      ActKeepsInv(s, actions[0]);
      ActsKeepInv(Act(s, actions[0]), actions[1..]);
    }
  }

  // A waker that is reset in place has no clone left that could remember an earlier poll.
  lemma WithWakerKeepsInv(s: State)
    requires Inv(s)
    ensures Inv(WithWaker(s))
  {
  }

  // The waker is reset in place exactly when nobody else has a clone of it; otherwise a new one takes its place
  // and the old one stays as it is.
  lemma ResetExactly(s: State)
    requires Inv(s) && s.waker.Some?
    ensures var s', w := WithWaker(s), s.waker.value;
            var others := (exists i :: 0 <= i < |s.held| && s.held[i].waker == w)
                          || (s.cancel.Callback? && s.cancel.waker.Some? && s.cancel.waker.value.waker == w);
            && s'.waker == Some(if others then |s.cells| else w)
            && s'.polls == s.polls + 1 && s'.held == s.held && s'.cancel == s.cancel
            && s'.cells == (if others then s.cells + [Empty] else s.cells[w := Empty])
            && s'.epochs == (if others then s.epochs + [s'.polls] else s.epochs[w := s'.polls])
  {
  }

  lemma ThrowKeepsInv(s: State, e: Exception)
    requires Inv(s) && s.cancel.Callback?
    ensures Inv(ThrowInto(s, e))
  {
    hide WakeWaker;
    var stored := s.(cancel := Callback(Some(e), None));
    assert Inv(stored);
    if s.cancel.waker.Some? { WakeKeepsInv(stored, s.cancel.waker.value.waker); }
  }

  lemma InitializeKeepsInv(s: State, world: World)
    requires Inv(s) && s.waker.Some?
    ensures Inv(Initialize(s, world).0)
  {
    hide Acts;
    ActsKeepInv(s, world.starting);
    ActsKeepRun(s, world.starting);
  }

  lemma PollKeepsInv(s: State, throw_: Option<Exception>, world: World)
    requires Inv(s)
    ensures Inv(Poll(s, throw_, world).0)
  {
    hide Acts, WithWaker, ThrowInto, Initialize, Inv;
    if s.open && !(throw_.Some? && s.cancel.NoCallback?) {
      var thrown := if throw_.Some? then ThrowInto(s, throw_.value) else s;
      if throw_.Some? { ThrowKeepsInv(s, throw_.value); }
      WithWakerKeepsInv(thrown);
      var ready := WithWaker(thrown);
      ActsKeepInv(ready, world.polling);
      ActsKeepRun(ready, world.polling);
      CloseKeepsInv(Acts(ready, world.polling));
      HasWaker(thrown);
      if world.polled.Pending? { InitializeKeepsInv(Acts(ready, world.polling), world); }
    } else {
      CloseKeepsInv(s);
    }
  }

  lemma HasWaker(s: State)
    ensures WithWaker(s).waker.Some?
  {
  }

  lemma CloseKeepsInv(s: State)
    requires Inv(s)
    ensures Inv(s.(open := false))
  {
  }

  lemma {:induction false} RunKeepsInv(s: State, steps: seq<Step>)
    requires Inv(s)
    ensures Inv(Run(s, steps).0)
    decreases |steps|
  {
    hide Inv, Poll, Act;
    if steps != [] {
      match steps[0] {
        case Send(world) => PollKeepsInv(s, None, world);
        case Next(world) => PollKeepsInv(s, None, world);
        case Throw(e, world) => PollKeepsInv(s, Some(e), world);
        case Close => CloseKeepsInv(s);
        case Outside(a) => ActKeepsInv(s, a);
      }
      RunKeepsInv(Take(s, steps[0]).0, steps[1..]);
    }
  }

  // After any run: waking a clone releases at most an asyncio future of the poll that the clone is from,
  // and a clone from an earlier poll leaves the current waker alone.
  lemma StaleClonesAreHarmless(hasCallback: bool, steps: seq<Step>, i: nat)
    requires i < |Run(Initial(hasCallback), steps).0.held|
    ensures var s := Run(Initial(hasCallback), steps).0;
            var s' := Act(s, Wake(i));
            && (forall f :: f in s'.released && f !in s.released ==> f < |s.futures| && s.futures[f] == s.held[i].poll)
            && (s.held[i].poll < s.polls && s.waker.Some? ==>
                  && s.waker.value < |s.cells| && s'.cells[s.waker.value] == s.cells[s.waker.value]
                  && forall f :: 0 <= f < |s.futures| && s.futures[f] == s.polls ==> (f in s'.released <==> f in s.released))
  {
    hide Run;
    assert Inv(Initial(hasCallback));
    RunKeepsInv(Initial(hasCallback), steps);
  }

  // ---------------------------------------------------------------- polls and outcomes

  predicate Ends(step: Step, o: Outcome) {
    Final(o) || step.Close?
  }

  lemma InitializeStaysOpen(s: State, world: World)
    requires s.waker.Some? && s.waker.value < |s.cells|
    ensures var (s', o) := Initialize(s, world);
            s'.open == s.open && s'.polls == s.polls && (o.Yielded? || o.YieldedNone? || o.LoopError?)
  {
    hide Acts;
    ActsKeepRun(s, world.starting);
  }

  // A cell that was filled stays as it is, and what is yielded is what the cell holds afterwards.
  lemma InitializeTellsCell(s: State, world: World)
    requires s.waker.Some? && s.waker.value < |s.cells|
    ensures var (s', o) := Initialize(s, world);
            var w, meanwhile := s.waker.value, Acts(s, world.starting);
            && w < |s'.cells| == |meanwhile.cells|
            && (!s.cells[w].Empty? ==> s' == s)
            && (!meanwhile.cells[w].Empty? && s.cells[w].Empty? ==> s'.cells == meanwhile.cells)
            && (o.LoopError? || match s'.cells[w]
                                case Waiting(f) => o == Yielded(f)
                                case Woken => o == YieldedNone
                                case Empty => false)
  {
    hide Acts;
    ActsKeepRun(s, world.starting);
  }

  // One call: the future is polled once or not at all, and never when it is gone; the coroutine closes
  // on a final outcome and on nothing else.
  lemma OneCall(s: State, step: Step)
    ensures var (s', o) := Take(s, step);
            && s'.polls == s.polls + (if IsCall(step) && s.open && !(step.Throw? && s.cancel.NoCallback?) then 1 else 0)
            && (s'.open <==> s.open && !Ends(step, o))
            && (o.Reused? <==> IsCall(step) && !s.open)
  {
    hide Acts, Act, Initialize;
    if step.Outside? {
      ActKeepsRun(s, step.a);
    } else if IsCall(step) && s.open && !(step.Throw? && s.cancel.NoCallback?) {
      var thrown := if step.Throw? then ThrowInto(s, step.e) else s;
      var ready := WithWaker(thrown);
      ActsKeepRun(ready, step.world.polling);
      if step.world.polled.Pending? { InitializeStaysOpen(Acts(ready, step.world.polling), step.world); }
    }
  }

  // Whole runs: a call is refused exactly when a final outcome was delivered or the coroutine was closed
  // before it, so at most one call delivers a final outcome.
  lemma {:induction false} RefusedExactly(s: State, steps: seq<Step>, j: nat)
    requires j < |steps|
    ensures var os := Run(s, steps).1;
            |os| == |steps| &&
            (os[j].Reused? <==>
               IsCall(steps[j]) && (!s.open || exists i :: 0 <= i < j && Ends(steps[i], os[i])))
    decreases |steps|
  {
    hide Take, Ends;
    var (s', o) := Take(s, steps[0]);
    var rest := Run(s', steps[1..]).1;
    var os := Run(s, steps).1;
    assert os == [o] + rest;
    OneCall(s, steps[0]);
    if j > 0 {
      RefusedExactly(s', steps[1..], j - 1);
      assert os[j] == rest[j - 1] && steps[j] == steps[1..][j - 1];
      if i :| 0 <= i < j && Ends(steps[i], os[i]) {
        if i > 0 { assert Ends(steps[1..][i - 1], rest[i - 1]); }
      }
      if i :| 0 <= i < j - 1 && Ends(steps[1..][i], rest[i]) { assert Ends(steps[i + 1], os[i + 1]); }
    } else if |steps| > 1 {
      RefusedExactly(s', steps[1..], 0);
    }
  }

  lemma AtMostOneFinal(hasCallback: bool, steps: seq<Step>, i: nat, j: nat)
    requires i < j < |steps| && IsCall(steps[j])
    ensures var os := Run(Initial(hasCallback), steps).1;
            |os| == |steps| && (Final(os[i]) ==> os[j].Reused?)
  {
    hide Run;
    RefusedExactly(Initial(hasCallback), steps, j);
  }

  // Does the call get as far as polling the future?
  predicate GetsToPoll(s: State, step: Step) {
    IsCall(step) && s.open && !(step.Throw? && s.cancel.NoCallback?)
  }

  // The state after the future was polled.
  function AfterPolling(s: State, step: Step): State
    requires IsCall(step) && (step.Throw? ==> s.cancel.Callback?)
  {
    Acts(WithWaker(if step.Throw? then ThrowInto(s, step.e) else s), step.world.polling)
  }

  // What a call delivers: the result, the error or the panic of the future, each as that; a thrown exception
  // that nobody takes; and what to await when the future is pending.
  lemma OutcomeExactly(s: State, step: Step)
    requires IsCall(step)
    ensures var o := Take(s, step).1;
            && (o.Reused? <==> !s.open)
            && (forall v :: o == StopIteration(v) <==> GetsToPoll(s, step) && step.world.polled == Ready(v))
            && (forall e :: o == Raised(e) <==> GetsToPoll(s, step) && step.world.polled == Failed(e))
            && (forall p :: o == PanicException(p) <==> GetsToPoll(s, step) && step.world.polled == Panicked(p))
            && (forall e :: o == Rethrown(e) <==> s.open && s.cancel.NoCallback? && step.Throw? && step.e == e)
            && (o.Yielded? || o.YieldedNone? || o.LoopError? <==> GetsToPoll(s, step) && step.world.polled.Pending?)
  {
    hide Acts, Act, ThrowInto, Unique, Initialize;
    if GetsToPoll(s, step) {
      var ready := WithWaker(if step.Throw? then ThrowInto(s, step.e) else s);
      ActsKeepRun(ready, step.world.polling);
      if step.world.polled.Pending? { InitializeStaysOpen(Acts(ready, step.world.polling), step.world); }
    }
  }

  // The guard of the failing branch: the future is pending, nothing has woken its waker while it was
  // polled, and the event loop gives no asyncio future.
  predicate LoopFails(s: State, step: Step) {
    && GetsToPoll(s, step) && step.world.polled.Pending? && step.world.start.StartFailed?
    && var after := AfterPolling(s, step);
       after.waker.Some? && after.waker.value < |after.cells| && after.cells[after.waker.value].Empty?
  }

  lemma LoopErrorExactly(s: State, step: Step)
    requires IsCall(step)
    ensures Take(s, step).1.LoopError? <==> LoopFails(s, step)
  {
    hide Acts, Act, ThrowInto, Unique;
    if GetsToPoll(s, step) {
      var ready := WithWaker(if step.Throw? then ThrowInto(s, step.e) else s);
      ActsKeepRun(ready, step.world.polling);
    }
  }

  // An error from the event loop is raised without closing the coroutine; every other error closes it.
  lemma RaisingClosesUnlessLoop(s: State, step: Step)
    requires IsCall(step) && Raises(Take(s, step).1)
    ensures Take(s, step).0.open <==> LoopFails(s, step)
    ensures Take(s, step).1.LoopError? <==> LoopFails(s, step)
  {
    hide Take, Acts, Act, WithWaker, ThrowInto;
    OneCall(s, step);
    LoopErrorExactly(s, step);
  }

  lemma LoopErrorIsRetried(e: Exception, v: Value)
    ensures Run(Initial(false), [Send(World([], Pending, [], StartFailed(e))), Send(World([], Ready(v), [], Started))]).1
            == [LoopError(e), StopIteration(v)]
  {
    var first, second := Send(World([], Pending, [], StartFailed(e))), Send(World([], Ready(v), [], Started));
    var (s, o) := Take(Initial(false), first);
    assert o == LoopError(e) && s.open;
    var (end, o') := Take(s, second);
    assert o' == StopIteration(v);
    assert [first, second][1..] == [second] && [second][1..] == [];
    assert Run(end, []) == (end, []);
    assert Run(s, [second]).1 == [o'] + [];
    assert Run(Initial(false), [first, second]).1 == [o] + [o'];
  }

  // ---------------------------------------------------------------- what the future can do with its waker

  // A clone that is kept wakes what the context's own waker wakes, and a discarded one is gone.
  lemma KeptCloneWakes(s: State)
    requires s.waker.Some?
    ensures var kept, i := Act(s, KeepContext), |s.held|;
            && kept == s.(held := s.held + [Handle(s.waker.value, s.polls)])
            && Act(kept, Wake(i)) == Act(s, WakeContext).(held := kept.held)
            && Act(kept, Discard(i)) == s
            && Act(kept, Clone(i)) == kept.(held := kept.held + [kept.held[i]])
  {
    var kept := Act(s, KeepContext);
    assert kept.held[..|s.held|] + kept.held[|s.held| + 1..] == s.held;
  }

  // A future that has looked for an exception in vain is woken by the next throw.
  lemma ThrowWakesWaiter(s: State, e: Exception)
    requires s.cancel.Callback? && s.cancel.exception.None? && s.waker.Some? && s.waker.value < |s.cells|
    ensures var w, s' := s.waker.value, ThrowInto(Act(s, CheckCancelled), e);
            && s'.cancel == Callback(Some(e), None)
            && match s.cells[w]
               case Waiting(f) => f in s'.released
               case _ => w < |s'.cells| && s'.cells[w] == Woken
  {
  }

  // ---------------------------------------------------------------- no wake-up is lost

  lemma YieldedIsWaiting(s: State, throw_: Option<Exception>, world: World)
    requires Poll(s, throw_, world).1.Yielded?
    ensures var (s', o) := Poll(s, throw_, world);
            s'.waker.Some? && s'.waker.value < |s'.cells| && s'.cells[s'.waker.value] == Waiting(o.future)
  {
    hide Acts, Act, ThrowInto, Unique;
    var ready := WithWaker(if throw_.Some? then ThrowInto(s, throw_.value) else s);
    ActsKeepRun(ready, world.polling);
    ActsKeepRun(Acts(ready, world.polling), world.starting);
  }

  lemma {:induction false} WaitingStays(s: State, actions: seq<Action>, w: nat)
    requires w < |s.cells| && s.cells[w].Waiting?
    ensures var s' := Acts(s, actions); w < |s'.cells| && s'.cells[w] == s.cells[w]
    decreases |actions|
  {
    if actions != [] { WaitingStays(Act(s, actions[0]), actions[1..], w); }
  }

  // Once a call has yielded an asyncio future, any clone of that poll's waker releases it, whatever other
  // threads did in between.
  lemma YieldedIsReleased(s: State, throw_: Option<Exception>, world: World, between: seq<Action>, i: nat)
    requires Inv(s) && Poll(s, throw_, world).1.Yielded?
    requires var s' := Acts(Poll(s, throw_, world).0, between); i < |s'.held| && s'.held[i].poll == s'.polls
    ensures var (s', o) := Poll(s, throw_, world);
            o.future in Act(Acts(s', between), Wake(i)).released
  {
    hide Poll, Acts;
    var (s', o) := Poll(s, throw_, world);
    PollKeepsInv(s, throw_, world);
    YieldedIsWaiting(s, throw_, world);
    ActsKeepInv(s', between);
    ActsKeepRun(s', between);
    WaitingStays(s', between, s'.waker.value);
    var later := Acts(s', between);
    assert OfItsPoll(later, later.held[i]);
    assert later.held[i].waker == later.waker.value;
  }

  lemma {:induction false} WokenStays(s: State, actions: seq<Action>, w: nat)
    requires w < |s.cells| && s.cells[w].Woken?
    ensures var s' := Acts(s, actions); w < |s'.cells| && s'.cells[w].Woken?
    decreases |actions|
  {
    if actions != [] { WokenStays(Act(s, actions[0]), actions[1..], w); }
  }

  lemma {:induction false} WokenWhilePolled(s: State, actions: seq<Action>)
    requires s.waker.Some? && s.waker.value < |s.cells| && !s.cells[s.waker.value].Waiting? && WakeContext in actions
    ensures var s' := Acts(s, actions); s.waker.value < |s'.cells| && s'.cells[s.waker.value].Woken?
    decreases |actions|
  {
    ActKeepsRun(s, actions[0]);
    if actions[0].WakeContext? {
      WokenStays(Act(s, actions[0]), actions[1..], s.waker.value);
    } else {
      WokenWhilePolled(Act(s, actions[0]), actions[1..]);
    }
  }

  // A future that wakes its own waker while it is pending is polled again at once: the call yields None.
  lemma WokenYieldsNone(s: State, world: World)
    requires s.open && world.polled.Pending? && WakeContext in world.polling
    ensures Poll(s, None, world).1 == YieldedNone
  {
    hide Acts, Act, Unique;
    WokenWhilePolled(WithWaker(s), world.polling);
    ActsKeepRun(WithWaker(s), world.polling);
  }

  // A thrown exception is there for the future to find when the same call polls it, and whoever waited
  // for one is woken.
  lemma ThrowReachesFuture(s: State, e: Exception)
    requires Inv(s) && s.cancel.Callback?
    ensures var ready := WithWaker(ThrowInto(s, e));
            && ready.cancel == Callback(Some(e), None)
            && Act(ready, CheckCancelled).cancel == Callback(None, None)
            && (s.cancel.waker.Some? && s.cancel.waker.value.waker < |s.cells|
                && s.cells[s.cancel.waker.value.waker].Waiting? ==>
                  s.cells[s.cancel.waker.value.waker].future in ready.released)
  {
  }
}
