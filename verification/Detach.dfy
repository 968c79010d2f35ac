/**
  Blocking on a mutex or on a one-time initialiser from threads that hold the GIL: `lock_py_attached`,
  `call_once_py_attached` and `call_once_force_py_attached`. The machine runs any number of threads
  against one such lock; it also contains the variant that does not detach, to show what detaching buys.
*/
module Detach {
  import opened Options

  type Tid = nat

  datatype Kind = Mutex | Once

  // How a call ended: the lock was taken (and was it poisoned?), the initialiser had already run,
  // or the poisoned Once refused with a panic.
  datatype Result = Took(poisoned: bool) | AlreadyDone | Refused

  datatype Pc =
    | Start                      // waits for the GIL
    | Calling                    // attached, enters the call
    | Blocked                    // in the blocking call
    | Returning(result: Result)  // the blocking call is over, the GIL is not back yet
    | Using(poisoned: bool)      // attached, in the critical section or in the initialiser
    | Yielded(poisoned: bool)    // the interpreter dropped the GIL inside a call made there
    | Leaving                    // attached, done
    | Finished

  datatype Thread = Thread(
    pc: Pc,
    force: bool,        // call_once_force rather than call_once
    rounds: nat,        // calls still to make after this one
    switches: nat,        // interpreter calls that may still drop the GIL
    saves: nat,         // PyEval_SaveThread and PyEval_RestoreThread made by SuspendGIL
    restores: nat,
    results: seq<Result>)

  // holder: who is inside; complete: the initialiser has run; runs: how often it ran to completion
  datatype Lock = Lock(holder: Option<Tid>, poisoned: bool, complete: bool, runs: nat)

  datatype State = State(kind: Kind, detaches: bool, gil: Option<Tid>, lock: Lock, threads: seq<Thread>)

  datatype Action = Attach | Call | Wake | Reattach | DropGil | TakeGilBack | Done(panics: bool) | Leave

  // What the blocking call does once the lock is not held.
  function Verdict(s: State, force: bool): Result {
    if s.kind.Once? && s.lock.complete then AlreadyDone
    else if s.kind.Once? && s.lock.poisoned && !force then Refused
    else Took(s.lock.poisoned)
  }

  predicate Enabled(s: State, t: Tid, a: Action) {
    t < |s.threads| &&
    var th := s.threads[t];
    match a
    case Attach => th.pc.Start? && s.gil.None?
    case Call => th.pc.Calling?
    case Wake => th.pc.Blocked? && s.lock.holder.None?
    case Reattach => th.pc.Returning? && (s.gil.None? || s.gil == Some(t))
    case DropGil => th.pc.Using? && th.switches > 0
    case TakeGilBack => th.pc.Yielded? && s.gil.None?
    case Done(_) => th.pc.Using?
    case Leave => th.pc.Leaving?
  }

  function Put(s: State, t: Tid, th: Thread): State
    requires t < |s.threads|
  {
    s.(threads := s.threads[t := th])
  }

  // The call is over without the lock, or after it was given back.
  function Return(th: Thread, r: Result): Thread {
    if th.rounds > 0 && !r.Refused? then th.(pc := Calling, rounds := th.rounds - 1, results := th.results + [r])
    else th.(pc := Leaving, results := th.results + [r])
  }

  function Do(s: State, t: Tid, a: Action): State
    requires Enabled(s, t, a)
  {
    var th := s.threads[t];
    match a
    case Attach => Put(s.(gil := Some(t)), t, th.(pc := Calling))
    case Call =>
      // try_lock, or is_completed
      if s.kind.Mutex? && s.lock.holder.None? then
        Put(s.(lock := s.lock.(holder := Some(t))), t, th.(pc := Using(s.lock.poisoned)))
      else if s.kind.Once? && s.lock.complete then Put(s, t, Return(th, AlreadyDone))
      else if s.detaches then Put(s.(gil := None), t, th.(pc := Blocked, saves := th.saves + 1))
      else Put(s, t, th.(pc := Blocked))
    case Wake =>
      var r := Verdict(s, th.force);
      Put(if r.Took? then s.(lock := s.lock.(holder := Some(t))) else s, t, th.(pc := Returning(r)))
    case Reattach =>
      var back := if s.detaches then th.(restores := th.restores + 1) else th;
      Put(s.(gil := Some(t)), t,
          match th.pc.result
          case Took(p) => back.(pc := Using(p))
          case r => Return(back, r))
    case DropGil => Put(s.(gil := None), t, th.(pc := Yielded(th.pc.poisoned), switches := th.switches - 1))
    case TakeGilBack => Put(s.(gil := Some(t)), t, th.(pc := Using(th.pc.poisoned)))
    case Done(panics) =>
      var lock :=
        match s.kind
        case Mutex => s.lock.(holder := None, poisoned := s.lock.poisoned || panics)
        case Once =>
          if panics then s.lock.(holder := None, poisoned := true)
          else s.lock.(holder := None, poisoned := false, complete := true, runs := s.lock.runs + 1);
      Put(s.(lock := lock), t,
          if panics then th.(pc := Leaving, results := th.results + [Took(th.pc.poisoned)])
          else Return(th, Took(th.pc.poisoned)))
    case Leave => Put(s.(gil := None), t, th.(pc := Finished))
  }

  // ---------------------------------------------------------------- invariant

  predicate Holding(pc: Pc) {
    pc.Using? || pc.Yielded? || (pc.Returning? && pc.result.Took?)
  }

  predicate Attached(pc: Pc) {
    pc.Calling? || pc.Using? || pc.Leaving?
  }

  predicate ThreadOk(th: Thread, owns: bool, holds: bool) {
    && (owns <==> Attached(th.pc))
    && (holds <==> Holding(th.pc))
    && th.saves == th.restores + if th.pc.Blocked? || th.pc.Returning? then 1 else 0
  }

  predicate Inv(s: State) {
    && s.detaches
    && (s.gil.Some? ==> s.gil.value < |s.threads|)
    && (s.lock.holder.Some? ==> s.lock.holder.value < |s.threads|)
    && s.lock.runs == (if s.lock.complete then 1 else 0)
    && (s.lock.complete ==> s.kind.Once? && s.lock.holder.None?)
    && forall t :: 0 <= t < |s.threads| ==>
         ThreadOk(s.threads[t], s.gil == Some(t), s.lock.holder == Some(t))
  }

  // Fresh threads of which each makes its own number of calls, with its own number of switches.
  predicate Initial(s: State) {
    && s.gil.None? && s.lock == Lock(None, false, false, 0)
    && forall t :: 0 <= t < |s.threads| ==>
         var th := s.threads[t];
         th.pc.Start? && th.saves == th.restores == 0 && th.results == []
  }

  lemma InitialInv(s: State)
    requires Initial(s) && s.detaches
    ensures Inv(s)
  {
  }

  lemma StepKeepsInv(s: State, t: Tid, a: Action)
    requires Inv(s) && Enabled(s, t, a)
    ensures Inv(Do(s, t, a))
  {
    var s' := Do(s, t, a);
    assert ThreadOk(s.threads[t], s.gil == Some(t), s.lock.holder == Some(t));
    forall u | 0 <= u < |s'.threads|
      ensures ThreadOk(s'.threads[u], s'.gil == Some(u), s'.lock.holder == Some(u))
    {
      if u != t { assert s'.threads[u] == s.threads[u]; }
      assert ThreadOk(s.threads[u], s.gil == Some(u), s.lock.holder == Some(u));
    }
  }

  // ---------------------------------------------------------------- runs

  datatype Event = Event(t: Tid, a: Action)

  predicate Possible(s: State, es: seq<Event>)
    decreases |es|
  {
    es == [] || (Enabled(s, es[0].t, es[0].a) && Possible(Do(s, es[0].t, es[0].a), es[1..]))
  }

  function Exec(s: State, es: seq<Event>): State
    requires Possible(s, es)
    decreases |es|
  {
    if es == [] then s else Exec(Do(s, es[0].t, es[0].a), es[1..])
  }

  lemma {:induction false} RunKeepsInv(s: State, es: seq<Event>)
    requires Inv(s) && Possible(s, es)
    ensures Inv(Exec(s, es))
    decreases |es|
  {
    if es != [] {
      StepKeepsInv(s, es[0].t, es[0].a);
      RunKeepsInv(Do(s, es[0].t, es[0].a), es[1..]);
    }
  }

  predicate AllFinished(s: State) {
    forall t :: 0 <= t < |s.threads| ==> s.threads[t].pc.Finished?
  }

  ghost predicate Stuck(s: State) {
    forall t: Tid, a: Action :: !Enabled(s, t, a)
  }

  // ---------------------------------------------------------------- progress

  // Whoever holds the GIL is not blocked on the lock: it can always go on.
  lemma OwnerCanStep(s: State, t: Tid)
    requires Inv(s) && s.gil == Some(t)
    ensures !s.threads[t].pc.Blocked?
    ensures exists a :: Enabled(s, t, a)
  {
    var th := s.threads[t];
    assert ThreadOk(th, true, s.lock.holder == Some(t));
    var a := if th.pc.Calling? then Call else if th.pc.Using? then Done(false) else Leave;
    assert Enabled(s, t, a);
  }

  // Whatever has happened, as long as some thread has not finished, some thread can step.
  lemma Progress(s: State)
    requires Inv(s) && !AllFinished(s)
    ensures !Stuck(s)
  {
    if s.gil.Some? {
      OwnerCanStep(s, s.gil.value);
    } else {
      var t :| 0 <= t < |s.threads| && !s.threads[t].pc.Finished?;
      var u := if s.threads[t].pc.Blocked? && s.lock.holder.Some? then s.lock.holder.value else t;
      assert ThreadOk(s.threads[t], false, s.lock.holder == Some(t));
      assert ThreadOk(s.threads[u], false, s.lock.holder == Some(u));
      var pc := s.threads[u].pc;
      var a := if pc.Start? then Attach else if pc.Blocked? then Wake
               else if pc.Returning? then Reattach else TakeGilBack;
      assert Enabled(s, u, a);
    }
  }

  // ---------------------------------------------------------------- termination

  function Rank(th: Thread): nat {
    8 * th.rounds + 2 * th.switches +
    match th.pc
    case Start => 8
    case Calling => 7
    case Blocked => 6
    case Returning(_) => 5
    case Yielded(_) => 4
    case Using(_) => 3
    case Leaving => 1
    case Finished => 0
  }

  function TotalRank(ths: seq<Thread>): nat {
    if ths == [] then 0 else Rank(ths[0]) + TotalRank(ths[1..])
  }

  lemma {:induction false} TotalRankUpdate(ths: seq<Thread>, t: Tid, th: Thread)
    requires t < |ths|
    ensures TotalRank(ths[t := th]) + Rank(ths[t]) == TotalRank(ths) + Rank(th)
  {
    if t == 0 {
      assert ths[t := th][1..] == ths[1..];
    } else {
      assert ths[t := th][1..] == ths[1..][t - 1 := th];
      TotalRankUpdate(ths[1..], t - 1, th);
    }
  }

  lemma ThreadRanksDown(s: State, t: Tid, a: Action)
    requires Enabled(s, t, a)
    ensures var s' := Do(s, t, a);
            |s'.threads| == |s.threads| && s'.threads == s.threads[t := s'.threads[t]]
            && Rank(s'.threads[t]) < Rank(s.threads[t])
  {
  }

  lemma StepRanksDown(s: State, t: Tid, a: Action)
    requires Enabled(s, t, a)
    ensures TotalRank(Do(s, t, a).threads) < TotalRank(s.threads)
  {
    hide Do, Rank;
    ThreadRanksDown(s, t, a);
    TotalRankUpdate(s.threads, t, Do(s, t, a).threads[t]);
  }

  lemma {:induction false} RunsAreBounded(s: State, es: seq<Event>)
    requires Possible(s, es)
    ensures |es| + TotalRank(Exec(s, es).threads) <= TotalRank(s.threads)
    decreases |es|
  {
    if es != [] {
      StepRanksDown(s, es[0].t, es[0].a);
      RunsAreBounded(Do(s, es[0].t, es[0].a), es[1..]);
    }
  }

  // Any number of threads, any interleaving, any panics: every run is finite; it is stuck only when every
  // thread has finished, with both locks free; the initialiser runs to completion at most once; and on
  // every path each SaveThread is matched by one RestoreThread as soon as the blocking call is over.
  lemma EveryRunFinishes(s: State, es: seq<Event>)
    requires Initial(s) && s.detaches && Possible(s, es)
    ensures |es| <= TotalRank(s.threads)
    ensures var s' := Exec(s, es);
            && s'.lock.runs <= 1
            && (Stuck(s') <==> AllFinished(s'))
            && (AllFinished(s') ==> s'.gil.None? && s'.lock.holder.None?)
            && forall t :: 0 <= t < |s'.threads| ==>
                 var th := s'.threads[t];
                 th.saves == th.restores + if th.pc.Blocked? || th.pc.Returning? then 1 else 0
  {
    InitialInv(s);
    RunKeepsInv(s, es);
    RunsAreBounded(s, es);
    var s' := Exec(s, es);
    if AllFinished(s') {
      forall t | 0 <= t < |s'.threads| ensures s'.gil != Some(t) && s'.lock.holder != Some(t) {
        assert ThreadOk(s'.threads[t], s'.gil == Some(t), s'.lock.holder == Some(t));
      }
    } else {
      Progress(s');
    }
    forall t | 0 <= t < |s'.threads|
      ensures var th := s'.threads[t];
              th.saves == th.restores + if th.pc.Blocked? || th.pc.Returning? then 1 else 0
    {
      assert ThreadOk(s'.threads[t], s'.gil == Some(t), s'.lock.holder == Some(t));
    }
  }

  // The critical section and the initialiser are exclusive.
  lemma MutualExclusion(s: State, es: seq<Event>, t: Tid, u: Tid)
    requires Initial(s) && s.detaches && Possible(s, es)
    requires t < |Exec(s, es).threads| && u < |Exec(s, es).threads|
    requires Holding(Exec(s, es).threads[t].pc) && Holding(Exec(s, es).threads[u].pc)
    ensures t == u
  {
    InitialInv(s);
    RunKeepsInv(s, es);
    var s' := Exec(s, es);
    assert ThreadOk(s'.threads[t], s'.gil == Some(t), s'.lock.holder == Some(t));
    assert ThreadOk(s'.threads[u], s'.gil == Some(u), s'.lock.holder == Some(u));
  }

  // ---------------------------------------------------------------- poison

  // Did some critical section panic? Did the initialiser that ran last? Has one run to completion?
  predicate SomePanicked(es: seq<Event>) {
    exists i :: 0 <= i < |es| && es[i].a == Done(true)
  }

  predicate LastPanicked(es: seq<Event>) {
    exists i :: 0 <= i < |es| && es[i].a == Done(true) && forall j :: i < j < |es| ==> !es[j].a.Done?
  }

  predicate NoneDone(es: seq<Event>) {
    forall i :: 0 <= i < |es| ==> !es[i].a.Done?
  }

  predicate SomeCompleted(es: seq<Event>) {
    exists i :: 0 <= i < |es| && es[i].a == Done(false)
  }

  lemma FirstSome(es: seq<Event>, a: Action)
    requires es != []
    ensures (exists i :: 0 <= i < |es| && es[i].a == a)
            <==> es[0].a == a || exists i :: 0 <= i < |es| - 1 && es[1..][i].a == a
  {
    if i :| 0 < i < |es| && es[i].a == a { assert es[1..][i - 1].a == a; }
    if i :| 0 <= i < |es| - 1 && es[1..][i].a == a { assert es[i + 1].a == a; }
  }

  lemma FirstNone(es: seq<Event>)
    requires es != []
    ensures NoneDone(es) <==> !es[0].a.Done? && NoneDone(es[1..])
  {
    assert forall i :: 0 < i < |es| ==> es[i] == es[1..][i - 1];
    if NoneDone(es) {
      forall i | 0 <= i < |es[1..]| ensures !es[1..][i].a.Done? { assert !es[i + 1].a.Done?; }
    }
  }

  lemma FirstLast(es: seq<Event>)
    requires es != []
    ensures LastPanicked(es) <==> (es[0].a == Done(true) && NoneDone(es[1..])) || LastPanicked(es[1..])
    ensures LastPanicked(es) ==> !NoneDone(es)
  {
    var rest := es[1..];
    if LastPanicked(rest) {
      var i :| 0 <= i < |rest| && rest[i].a == Done(true) && forall j :: i < j < |rest| ==> !rest[j].a.Done?;
      assert es[i + 1].a == Done(true);
      assert forall j :: i + 1 < j < |es| ==> es[j] == rest[j - 1];
    }
    if es[0].a == Done(true) && NoneDone(rest) {
      assert forall j :: 0 < j < |es| ==> es[j] == rest[j - 1];
    }
    if LastPanicked(es) {
      var i :| 0 <= i < |es| && es[i].a == Done(true) && forall j :: i < j < |es| ==> !es[j].a.Done?;
      assert forall j :: 0 <= j < |rest| ==> rest[j] == es[j + 1];
      if i > 0 { assert rest[i - 1].a == Done(true); }
    }
  }

  // Only the end of a critical section or of an initialiser changes these.
  lemma StepPoisons(s: State, t: Tid, a: Action)
    requires Enabled(s, t, a)
    ensures var s' := Do(s, t, a);
            && s'.kind == s.kind && |s'.threads| == |s.threads|
            && s'.lock.poisoned == (if a.Done? then a.panics || (s.kind.Mutex? && s.lock.poisoned) else s.lock.poisoned)
            && s'.lock.complete == (s.lock.complete || (s.kind.Once? && a == Done(false)))
  {
  }

  // A mutex stays poisoned after any panic; a Once is poisoned until an initialiser succeeds.
  lemma {:induction false} PoisonExactly(s: State, es: seq<Event>)
    requires Possible(s, es)
    ensures var s' := Exec(s, es);
            && s'.kind == s.kind && |s'.threads| == |s.threads|
            && (s'.lock.poisoned <==> if s.kind.Mutex? then s.lock.poisoned || SomePanicked(es)
                                      else LastPanicked(es) || (s.lock.poisoned && NoneDone(es)))
            && (s'.lock.complete <==> s.lock.complete || (s.kind.Once? && SomeCompleted(es)))
    decreases |es|
  {
    hide SomePanicked, LastPanicked, NoneDone, SomeCompleted, Do, Enabled;
    if es == [] {
      NoEvents();
    } else {
      StepPoisons(s, es[0].t, es[0].a);
      PoisonExactly(Do(s, es[0].t, es[0].a), es[1..]);
      FirstPanicked(es);
      FirstNone(es);
      FirstLast(es);
    }
  }

  lemma FirstPanicked(es: seq<Event>)
    requires es != []
    ensures SomePanicked(es) <==> es[0].a == Done(true) || SomePanicked(es[1..])
    ensures SomeCompleted(es) <==> es[0].a == Done(false) || SomeCompleted(es[1..])
  {
    FirstSome(es, Done(true));
    FirstSome(es, Done(false));
  }

  lemma NoEvents()
    ensures !SomePanicked([]) && !LastPanicked([]) && NoneDone([]) && !SomeCompleted([])
  {
  }

  // What a thread that holds the lock was told about it.
  function Told(pc: Pc): bool
    requires Holding(pc)
  {
    if pc.Using? || pc.Yielded? then pc.poisoned else pc.result.poisoned
  }

  predicate ToldRight(s: State) {
    forall t :: 0 <= t < |s.threads| && Holding(s.threads[t].pc) ==> Told(s.threads[t].pc) == s.lock.poisoned
  }

  lemma StepTellsRight(s: State, t: Tid, a: Action)
    requires Inv(s) && ToldRight(s) && Enabled(s, t, a)
    ensures ToldRight(Do(s, t, a))
  {
    var s' := Do(s, t, a);
    assert ThreadOk(s.threads[t], s.gil == Some(t), s.lock.holder == Some(t));
    forall u | 0 <= u < |s'.threads| && Holding(s'.threads[u].pc) ensures Told(s'.threads[u].pc) == s'.lock.poisoned {
      if u != t {
        assert s'.threads[u] == s.threads[u];
        assert ThreadOk(s.threads[u], s.gil == Some(u), s.lock.holder == Some(u));
      }
    }
  }

  lemma {:induction false} RunTellsRight(s: State, es: seq<Event>)
    requires Inv(s) && ToldRight(s) && Possible(s, es)
    ensures ToldRight(Exec(s, es))
    decreases |es|
  {
    hide Inv, ToldRight, Do;
    if es != [] {
      StepKeepsInv(s, es[0].t, es[0].a);
      StepTellsRight(s, es[0].t, es[0].a);
      RunTellsRight(Do(s, es[0].t, es[0].a), es[1..]);
    }
  }

  predicate PoisonedBy(kind: Kind, es: seq<Event>) {
    if kind.Mutex? then SomePanicked(es) else LastPanicked(es)
  }

  // In every run, whoever holds the lock was told that it is poisoned exactly if a panic left it so; and the
  // blocking call ends as it should: with nothing to do if an initialiser has completed, with a refusal if
  // the last one panicked and the call does not force it, and otherwise with the lock.
  lemma PoisonIsReported(s: State, es: seq<Event>, t: Tid)
    requires Initial(s) && s.detaches && Possible(s, es)
    requires t < |Exec(s, es).threads|
    ensures var s', done := Exec(s, es), s.kind.Once? && SomeCompleted(es);
            && (Holding(s'.threads[t].pc) ==> Told(s'.threads[t].pc) == PoisonedBy(s.kind, es))
            && (Enabled(s', t, Wake) ==>
                  Do(s', t, Wake).threads[t].pc
                  == Returning(if done then AlreadyDone
                               else if s.kind.Once? && LastPanicked(es) && !s'.threads[t].force then Refused
                               else Took(PoisonedBy(s.kind, es))))
  {
    hide SomePanicked, LastPanicked, NoneDone, SomeCompleted, Possible, Exec;
    InitialInv(s);
    assert ToldRight(s);
    RunTellsRight(s, es);
    PoisonExactly(s, es);
  }

  // How each call ended is recorded once: when the lock is given back, when the thread is attached again
  // without it, or at once if the initialiser had run. The next call follows, unless there is none or it panicked.
  lemma ResultsGrow(s: State, t: Tid, a: Action)
    requires Enabled(s, t, a)
    ensures var th, th' := s.threads[t], Do(s, t, a).threads[t];
            var quick := a.Call? && s.kind.Once? && s.lock.complete;
            var late := a.Reattach? && !th.pc.result.Took?;
            && th'.results == th.results + (if a.Done? then [Took(th.pc.poisoned)]
                                            else if late then [th.pc.result]
                                            else if quick then [AlreadyDone] else [])
            && (th'.results != th.results ==>
                  var ends := th.rounds == 0 || (late && th.pc.result.Refused?) || a == Done(true);
                  th'.pc == (if ends then Leaving else Calling) && (!ends ==> th'.rounds == th.rounds - 1))
            && (forall u :: 0 <= u < |s.threads| && u != t ==> Do(s, t, a).threads[u] == s.threads[u])
  {
    assert s.threads[t].results + [] == s.threads[t].results;
  }

  lemma Then(s: State, e: Event, es: seq<Event>)
    requires Enabled(s, e.t, e.a) && Possible(Do(s, e.t, e.a), es)
    ensures Possible(s, [e] + es) && Exec(s, [e] + es) == Exec(Do(s, e.t, e.a), es)
  {
    assert ([e] + es)[1..] == es;
  }

  // Without detaching the same threads deadlock: the first takes the mutex and an interpreter call drops
  // the GIL; the second attaches and blocks with the GIL.
  lemma BlockingAttachedDeadlocks()
    ensures exists s, es :: Initial(s) && !s.detaches && Possible(s, es)
                            && Stuck(Exec(s, es)) && !AllFinished(Exec(s, es))
  {
    var th := Thread(Start, false, 0, 1, 0, 0, []);
    var s := State(Mutex, false, None, Lock(None, false, false, 0), [th, th]);
    var s1 := Do(s, 0, Attach);
    var s2 := Do(s1, 0, Call);
    var s3 := Do(s2, 0, DropGil);
    var s4 := Do(s3, 1, Attach);
    var s5 := Do(s4, 1, Call);
    assert Possible(s5, []) && Exec(s5, []) == s5;
    assert Stuck(s5) && !AllFinished(s5) by { assert !s5.threads[0].pc.Finished?; }
    hide Possible, Exec, Stuck, AllFinished;
    Then(s4, Event(1, Call), []);
    Then(s3, Event(1, Attach), [Event(1, Call)] + []);
    Then(s2, Event(0, DropGil), [Event(1, Attach)] + ([Event(1, Call)] + []));
    Then(s1, Event(0, Call), [Event(0, DropGil)] + ([Event(1, Attach)] + ([Event(1, Call)] + [])));
    Then(s, Event(0, Attach), [Event(0, Call)] + ([Event(0, DropGil)] + ([Event(1, Attach)] + ([Event(1, Call)] + []))));
  }
}
