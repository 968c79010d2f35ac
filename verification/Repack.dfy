/**
  From the Rust function to the emitted binder and back: which parameters are bound, how the bound
  values are packed into one argument list, and how the extraction code hands them out again.
*/
module Repack {
  import opened Signature
  import opened Binder
  import opened Options

  // A parameter of the Rust function; the interpreter token is passed without asking the caller.
  datatype RustParam = PythonToken | Arg(name: Name)

  const PLAIN: Spec := Spec(None, false, false, false, false)

  // The parameters that take part in binding, each with the next spec of the signature.
  function Emit(params: seq<RustParam>, specs: seq<Spec>): seq<Slot> {
    if params == [] then []
    else
      match params[0]
      case PythonToken => Emit(params[1..], specs)
      case Arg(name) =>
        [Slot(name, if specs == [] then PLAIN else specs[0])]
        + Emit(params[1..], if specs == [] then [] else specs[1..])
  }

  // The loop over the inputs in generate_constructor_impl and generate_pyresult_wrapper.
  method GenerateBinder(params: seq<RustParam>, specs: seq<Spec>) returns (slots: seq<Slot>)
    ensures slots == Emit(params, specs)
  {
    slots := [];
    var next := specs;
    assert params[0..] == params;
    for i := 0 to |params|
      invariant Emit(params, specs) == slots + Emit(params[i..], next)
    {
      ghost var before := Emit(params[i..], next);
      assert params[i..][0] == params[i] && params[i..][1..] == params[i + 1..];
      if params[i].Arg? {
        var spec := PLAIN;
        if next != [] {
          spec, next := next[0], next[1..];
        }
        assert before == [Slot(params[i].name, spec)] + Emit(params[i + 1..], next);
        slots := slots + [Slot(params[i].name, spec)];
      }
    }
    assert params[|params|..] == [] && slots + [] == slots;
  }

  function ArgNames(params: seq<RustParam>): seq<Name> {
    if params == [] then []
    else (if params[0].Arg? then [params[0].name] else []) + ArgNames(params[1..])
  }

  // How many bound parameters come before position i.
  function Rank(params: seq<RustParam>, i: nat): nat
    requires i <= |params|
  {
    if i == 0 then 0 else Rank(params[1..], i - 1) + if params[0].Arg? then 1 else 0
  }

  lemma {:induction false} EmitMatches(params: seq<RustParam>, specs: seq<Spec>)
    requires |ArgNames(params)| == |specs|
    ensures Emit(params, specs) == Slots(ArgNames(params), specs)
    decreases |params|
  {
    if params != [] {
      if params[0].Arg? {
        assert ArgNames(params)[1..] == ArgNames(params[1..]);
        EmitMatches(params[1..], specs[1..]);
        assert Slots(ArgNames(params), specs)
               == [Slot(params[0].name, specs[0])] + Slots(ArgNames(params[1..]), specs[1..]);
      } else {
        assert ArgNames(params) == ArgNames(params[1..]);
        EmitMatches(params[1..], specs);
      }
    }
  }

  // Parameters that the signature does not list are required, by position or by name; specs beyond the
  // parameters are dropped.
  lemma {:induction false} UnlistedArePlain(params: seq<RustParam>, specs: seq<Spec>)
    ensures Emit(params, specs) == Slots(ArgNames(params), Padded(specs, |ArgNames(params)|))
    decreases |params|
  {
    if params != [] {
      var names := ArgNames(params);
      if params[0].Arg? {
        var rest := if specs == [] then [] else specs[1..];
        UnlistedArePlain(params[1..], rest);
        assert names[1..] == ArgNames(params[1..]);
        assert Padded(specs, |names|)[1..] == Padded(rest, |names| - 1);
        assert Slots(names, Padded(specs, |names|))
               == [Slot(params[0].name, Padded(specs, |names|)[0])] + Slots(names[1..], Padded(specs, |names|)[1..]);
      } else {
        assert names == ArgNames(params[1..]);
        UnlistedArePlain(params[1..], specs);
      }
    }
  }

  function Padded(specs: seq<Spec>, n: nat): (padded: seq<Spec>)
    ensures |padded| == n
  {
    seq(n, i requires 0 <= i < n => if i < |specs| then specs[i] else Spec(None, false, false, false, false))
  }

  // ---------------------------------------------------------------- repacking

  // The call arguments of the Rust function, or an error if the packed list runs out.
  datatype Passed = Token | Given(value: Bound)

  function Deliver(params: seq<RustParam>, packed: seq<Bound>): Option<seq<Passed>> {
    if params == [] then Some([])
    else if params[0].PythonToken? then
      match Deliver(params[1..], packed)
      case None => None
      case Some(rest) => Some([Token] + rest)
    else if packed == [] then None
    else
      match Deliver(params[1..], packed[1..])
      case None => None
      case Some(rest) => Some([Given(packed[0])] + rest)
  }

  // generate_funcargs_extraction: one take_positional for each parameter that is not the token.
  method Extract(params: seq<RustParam>, packed: seq<Bound>) returns (passed: Option<seq<Passed>>)
    ensures passed == Deliver(params, packed)
  {
    var args := packed;
    var exprs: seq<Passed> := [];
    assert params[0..] == params && forall rest :: exprs + rest == rest;
    for i := 0 to |params|
      invariant Deliver(params, packed)
                == match Deliver(params[i..], args)
                   case None => None
                   case Some(rest) => Some(exprs + rest)
    {
      assert params[i..][0] == params[i] && params[i..][1..] == params[i + 1..];
      if params[i].PythonToken? {
        assert forall rest :: exprs + ([Token] + rest) == (exprs + [Token]) + rest;
        exprs := exprs + [Token];
      } else {
        if args == [] {
          return None;
        }
        assert forall rest :: exprs + ([Given(args[0])] + rest) == (exprs + [Given(args[0])]) + rest;
        exprs := exprs + [Given(args[0])];
        args := args[1..];
      }
    }
    assert params[|params|..] == [] && exprs + [] == exprs;
    return Some(exprs);
  }

  // Wherever the interpreter tokens stand, each bound parameter is handed the value packed for it.
  lemma {:induction false} DeliverEach(params: seq<RustParam>, packed: seq<Bound>)
    requires |packed| == |ArgNames(params)|
    ensures var passed := Deliver(params, packed);
            && passed.Some? && |passed.value| == |params|
            && forall i :: 0 <= i < |params| ==>
                 Rank(params, i) <= |packed|
                 && (params[i].PythonToken? ==> passed.value[i] == Token)
                 && (params[i].Arg? ==> Rank(params, i) < |packed| && passed.value[i] == Given(packed[Rank(params, i)]))
    decreases |params|
  {
    if params != [] {
      var isArg := params[0].Arg?;
      var rest := if isArg then packed[1..] else packed;
      DeliverEach(params[1..], rest);
      forall i | 0 < i < |params|
        ensures Rank(params, i) == Rank(params[1..], i - 1) + if isArg then 1 else 0
      {
      }
    }
  }

  // ---------------------------------------------------------------- names

  // Can a keyword argument fill this parameter of the signature?
  predicate TakesKeyword(sig: Sig, i: nat) {
    var afterStar := |Positionals(sig)| + |StarNames(sig.star)|;
    |sig.posOnly| <= i < |Positionals(sig)| || afterStar <= i < afterStar + |sig.kwOnly|
  }

  // The parser drops the names of the signature; the binder goes by those of the Rust parameters.
  predicate NamesAgree(sig: Sig, names: seq<Name>) {
    && |names| == |NamesOf(sig)|
    && forall i :: 0 <= i < |names| && TakesKeyword(sig, i) ==> names[i] == NamesOf(sig)[i]
  }

  // The name of a slot that no keyword fills is not looked at.
  predicate SameSlot(p: Slot, q: Slot) {
    p.spec == q.spec
    && (p.name == q.name || p.spec.varargs || p.spec.varKeyword || (p.spec.positionalOnly && !p.spec.keywordOnly))
  }

  lemma {:induction false} SameSlotsTakeAlike(ps: seq<Slot>, qs: seq<Slot>, a: Args)
    requires |ps| == |qs| && forall i :: 0 <= i < |ps| ==> SameSlot(ps[i], qs[i])
    ensures TakeAll(ps, a) == TakeAll(qs, a)
    decreases |ps|
  {
    if ps != [] {
      assert SameSlot(ps[0], qs[0]);
      if TakeOne(ps[0], a).Some? { SameSlotsTakeAlike(ps[1..], qs[1..], TakeOne(ps[0], a).value.1); }
    }
  }

  lemma AgreeingNamesBindAlike(sig: Sig, names: seq<Name>, a: Args)
    requires NamesAgree(sig, names) && |SpecsOf(sig)| == |names|
    ensures Bind(Slots(names, SpecsOf(sig)), a) == Bind(Slots(NamesOf(sig), SpecsOf(sig)), a)
  {
    hide TakeAll, TakeOne;
    var ps, qs := Slots(names, SpecsOf(sig)), Slots(NamesOf(sig), SpecsOf(sig));
    forall i | 0 <= i < |ps| ensures SameSlot(ps[i], qs[i]) {
    }
    SameSlotsTakeAlike(ps, qs, a);
  }

  // The call that gives every parameter by name where it can; each value says which parameter it is for.
  function AllByName(sig: Sig): Args
    requires WellFormed(sig)
  {
    Args(seq(|sig.posOnly|, i => i),
         map i | 0 <= i < |NamesOf(sig)| && TakesKeyword(sig, i) :: NamesOf(sig)[i] := i)
  }

  lemma NamesAfterStar(sig: Sig)
    ensures var k := |Positionals(sig)| + |StarNames(sig.star)|;
            && |NamesOf(sig)| == k + |sig.kwOnly| + |KwargsNames(sig.kwargs)|
            && forall i :: 0 <= i < |sig.kwOnly| ==> NamesOf(sig)[k + i] == sig.kwOnly[i].name
  {
  }

  lemma AllByNameFills(sig: Sig)
    requires WellFormed(sig) && sig.kwargs.None?
    ensures var a, n := AllByName(sig), |Positionals(sig)|;
            && (forall i :: 0 <= i < |sig.posOnly| ==> PositionalSlot(sig, a, i).Some?)
            && (forall i :: |sig.posOnly| <= i < n ==> PositionalSlot(sig, a, i) == Some(Keyword(i)))
            && forall i :: 0 <= i < |sig.kwOnly| ==>
                 KeywordSlot(sig.kwOnly[i], a) == Some(Keyword(n + |StarNames(sig.star)| + i))
  {
    hide StarNames, Distinct, NamesOf, AllByName;
    var a, n := AllByName(sig), |Positionals(sig)|;
    var k := n + |StarNames(sig.star)|;
    AllByNameCount(sig);
    PositionalNames(sig);
    NamesAfterStar(sig);
    forall i | |sig.posOnly| <= i < n ensures PositionalSlot(sig, a, i) == Some(Keyword(i)) {
      AllByNameHas(sig, i);
    }
    forall i | 0 <= i < |sig.kwOnly| ensures KeywordSlot(sig.kwOnly[i], a) == Some(Keyword(k + i)) {
      AllByNameHas(sig, k + i);
    }
  }

  lemma AllByNameHas(sig: Sig, i: nat)
    requires WellFormed(sig) && i < |NamesOf(sig)| && TakesKeyword(sig, i)
    ensures NamesOf(sig)[i] in AllByName(sig).kwargs && AllByName(sig).kwargs[NamesOf(sig)[i]] == i
  {
    hide NamesOf, TakesKeyword;
  }

  lemma AllByNameIsUsed(sig: Sig)
    requires WellFormed(sig)
    ensures AllByName(sig).kwargs.Keys <= UsedKeywords(sig, AllByName(sig))
  {
    hide StarNames, Distinct;
    var names, n := NamesOf(sig), |Positionals(sig)|;
    var k := n + |StarNames(sig.star)|;
    forall i | 0 <= i < |names| && TakesKeyword(sig, i) ensures names[i] in UsedKeywords(sig, AllByName(sig)) {
      if i < n {
        assert Positionals(sig)[i].name == names[i];
      } else {
        assert sig.kwOnly[i - k].name == names[i];
      }
    }
  }

  lemma AllByNameIsAccepted(sig: Sig)
    requires WellFormed(sig) && sig.kwargs.None?
    ensures Python(sig, AllByName(sig)).Some?
    ensures var values := Python(sig, AllByName(sig)).value;
            && |values| == |NamesOf(sig)|
            && forall i :: 0 <= i < |values| && TakesKeyword(sig, i) ==> values[i] == Keyword(i)
  {
    hide AllByName, PositionalSlot, KeywordSlot, UsedKeywords, Distinct;
    AllByNameFills(sig);
    AllByNameIsUsed(sig);
    assert |AllByName(sig).args| == |sig.posOnly| by { AllByNameCount(sig); }
  }

  lemma AllByNameCount(sig: Sig)
    requires WellFormed(sig)
    ensures |AllByName(sig).args| == |sig.posOnly|
  {
  }

  // A value taken by name is the one that the call has under that name.
  lemma {:induction false} TakenByName(ps: seq<Slot>, a: Args)
    requires TakeAll(ps, a).Some?
    ensures var bs := TakeAll(ps, a).value.0;
            && |bs| == |ps|
            && forall i :: 0 <= i < |ps| && bs[i].Keyword? ==> ps[i].name in a.kwargs && bs[i].v == a.kwargs[ps[i].name]
    decreases |ps|
  {
    if ps != [] { TakenByName(ps[1..], TakeOne(ps[0], a).value.1); }
  }

  // With the signature printed over any Rust function, binder and Python agree on all calls exactly when
  // the names of the parameters that a keyword can fill are the same in both.
  lemma NamesMatterExactly(sig: Sig, trailing: bool, params: seq<RustParam>)
    requires WellFormed(sig) && sig.kwargs.None?
    ensures Parse(Print(sig, trailing)).Some?
    ensures (forall a :: Bind(Emit(params, Parse(Print(sig, trailing)).value), a) == Python(sig, a))
            <==> NamesAgree(sig, ArgNames(params))
  {
    hide TakeAll, Python, TakesKeyword, Emit, ArgNames, Print, Parse, AllByName, Bind;
    ParsePrint(sig, trailing);
    var specs, names := SpecsOf(sig), ArgNames(params);
    assert |specs| == |NamesOf(sig)|;
    if NamesAgree(sig, names) {
      EmitMatches(params, specs);
      forall a ensures Bind(Emit(params, specs), a) == Python(sig, a) {
        AgreeingNamesBindAlike(sig, names, a);
        BinderRefinesPython(sig, trailing, a);
      }
    }
    if forall a :: Bind(Emit(params, specs), a) == Python(sig, a) {
      AllByNameIsAccepted(sig);
      AgreementNeedsNames(sig, params);
    }
  }

  lemma AgreementNeedsNames(sig: Sig, params: seq<RustParam>)
    requires WellFormed(sig) && sig.kwargs.None?
    requires Bind(Emit(params, SpecsOf(sig)), AllByName(sig)) == Python(sig, AllByName(sig))
    ensures NamesAgree(sig, ArgNames(params))
  {
    hide TakeAll, Python, Emit, ArgNames, SpecsOf;
    var a := AllByName(sig);
    AllByNameIsAccepted(sig);
    EmitNames(params, SpecsOf(sig));
    TakenByName(Emit(params, SpecsOf(sig)), a);
  }

  lemma {:induction false} EmitNames(params: seq<RustParam>, specs: seq<Spec>)
    ensures |Emit(params, specs)| == |ArgNames(params)|
    ensures forall i :: 0 <= i < |ArgNames(params)| ==> Emit(params, specs)[i].name == ArgNames(params)[i]
    decreases |params|
  {
    if params != [] { EmitNames(params[1..], if params[0].PythonToken? || specs == [] then specs else specs[1..]); }
  }

  // signature = (x) on f(y): Python takes x by name, the binder takes y.
  lemma OtherNameDiffers()
    ensures var sig, params := Sig([], [Param("x", None)], NoStar, [], None), [Arg("y")];
            var slots, x, y := Emit(params, SpecsOf(sig)), Args([], map["x" := 1]), Args([], map["y" := 1]);
            && WellFormed(sig) && !NamesAgree(sig, ArgNames(params))
            && Accepts(sig, x) && Bind(slots, x) == None
            && !Accepts(sig, y) && Bind(slots, y) == Some([Keyword(1)])
  {
    var sig, params := Sig([], [Param("x", None)], NoStar, [], None), [Arg("y")];
    var specs, x, y := SpecsOf(sig), Args([], map["x" := 1]), Args([], map["y" := 1]);
    var slots := Emit(params, specs);
    assert params[1..] == [];
    assert NamesOf(sig) == ["x"] && ArgNames(params) == ["y"] && "x"[0] != "y"[0];
    assert Positionals(sig) == [Param("x", None)] && TakesKeyword(sig, 0);
    assert specs == [PLAIN];
    assert specs[1..] == [] && Emit([], specs[1..]) == [];
    assert slots == [Slot("y", PLAIN)];
    TakeSingle(slots[0], x);
    TakeSingle(slots[0], y);
    assert y.kwargs - {"y"} == map[];
    assert PositionalSlot(sig, x, 0) == Some(Keyword(1));
    assert PositionalSlot(sig, y, 0) == None;
  }

  // ---------------------------------------------------------------- the whole way

  // From the call to the Rust function: with the signature printed over parameters of those names, a call
  // that Python accepts reaches each parameter with Python's value for it, and another call is rejected.
  lemma CallDelivers(sig: Sig, trailing: bool, params: seq<RustParam>, a: Args)
    requires WellFormed(sig) && sig.kwargs.None? && NamesAgree(sig, ArgNames(params))
    ensures var specs := Parse(Print(sig, trailing));
            specs.Some? &&
            var bound := Bind(Emit(params, specs.value), a);
            && (bound.Some? <==> Accepts(sig, a))
            && (bound.Some? ==>
                  var passed := Deliver(params, bound.value);
                  && passed.Some? && |passed.value| == |params|
                  && forall i :: 0 <= i < |params| && params[i].Arg? ==>
                       Rank(params, i) < |Values(sig, a)| && passed.value[i] == Given(Values(sig, a)[Rank(params, i)]))
  {
    NamesMatterExactly(sig, trailing, params);
    var specs := Parse(Print(sig, trailing)).value;
    var bound := Bind(Emit(params, specs), a);
    if bound.Some? {
      EmitNames(params, specs);
      OneValueEach(Emit(params, specs), a);
      DeliverEach(params, bound.value);
    }
  }

  lemma {:induction false} OneValueEach(ps: seq<Slot>, a: Args)
    requires TakeAll(ps, a).Some?
    ensures |TakeAll(ps, a).value.0| == |ps|
    decreases |ps|
  {
    if ps != [] { OneValueEach(ps[1..], TakeOne(ps[0], a).value.1); }
  }

  // ---------------------------------------------------------------- conservation

  // The positional arguments in a bound value.
  function PositionalPart(b: Bound): seq<Value> {
    match b
    case Positional(v) => [v]
    case Rest(vs) => vs
    case _ => []
  }

  // The keyword arguments in a bound value, under their names.
  function KeywordPart(name: Name, b: Bound): map<Name, Value> {
    match b
    case Keyword(v) => map[name := v]
    case RestKeywords(m) => m
    case _ => map[]
  }

  function PositionalsIn(bs: seq<Bound>): seq<Value> {
    if bs == [] then [] else PositionalPart(bs[0]) + PositionalsIn(bs[1..])
  }

  function KeywordsIn(ps: seq<Slot>, bs: seq<Bound>): map<Name, Value>
    requires |ps| == |bs|
  {
    if bs == [] then map[] else KeywordPart(ps[0].name, bs[0]) + KeywordsIn(ps[1..], bs[1..])
  }

  function KeywordCount(ps: seq<Slot>, bs: seq<Bound>): nat
    requires |ps| == |bs|
  {
    if bs == [] then 0 else |KeywordPart(ps[0].name, bs[0])| + KeywordCount(ps[1..], bs[1..])
  }

  lemma SplitSize<K, V>(whole: map<K, V>, taken: map<K, V>, left: map<K, V>)
    requires taken.Keys !! left.Keys && whole.Keys == taken.Keys + left.Keys
    ensures |whole| == |taken| + |left|
  {
    assert |taken.Keys + left.Keys| == |taken.Keys| + |left.Keys|;
    assert |whole| == |whole.Keys| && |taken| == |taken.Keys| && |left| == |left.Keys|;
  }

  lemma TakeOneConserves(p: Slot, a: Args)
    requires TakeOne(p, a).Some?
    ensures var (b, a') := TakeOne(p, a).value;
            var taken := KeywordPart(p.name, b);
            && a.args == PositionalPart(b) + a'.args
            && a.kwargs == taken + a'.kwargs && taken.Keys !! a'.kwargs.Keys
  {
    var (b, a') := TakeOne(p, a).value;
    match b
    case Keyword(v) =>
      assert a.kwargs == map[p.name := v] + a'.kwargs;
    case RestKeywords(m) =>
      assert a.kwargs == m + map[];
    case Rest(vs) =>
      assert a.args == vs + [] && a.kwargs == map[] + a'.kwargs;
    case _ =>
      assert a.kwargs == map[] + a'.kwargs;
  }

  lemma {:induction false} TakeAllConserves(ps: seq<Slot>, a: Args)
    requires TakeAll(ps, a).Some?
    ensures var (bs, left) := TakeAll(ps, a).value;
            && |bs| == |ps|
            && a.args == PositionalsIn(bs) + left.args
            && a.kwargs == KeywordsIn(ps, bs) + left.kwargs
            && |a.kwargs| == KeywordCount(ps, bs) + |left.kwargs|
    decreases |ps|
  {
    hide TakeOne, PositionalPart, KeywordPart, PositionalsIn, KeywordsIn, KeywordCount;
    if ps == [] {
      NothingBound(a);
    } else {
      TakeOneConserves(ps[0], a);
      var (b, a') := TakeOne(ps[0], a).value;
      TakeAllConserves(ps[1..], a');
      var (bs, left) := TakeAll(ps[1..], a').value;
      SplitSize(a.kwargs, KeywordPart(ps[0].name, b), a'.kwargs);
      OneMoreBound(ps, b, bs);
      Regroup(PositionalPart(b), PositionalsIn(bs), left.args);
      RegroupKeys(KeywordPart(ps[0].name, b), KeywordsIn(ps[1..], bs), left.kwargs);
      assert TakeAll(ps, a).value == ([b] + bs, left);
    }
  }

  lemma Regroup<V>(x: seq<V>, y: seq<V>, z: seq<V>)
    ensures x + (y + z) == (x + y) + z
  {
  }

  lemma RegroupKeys<K, V>(x: map<K, V>, y: map<K, V>, z: map<K, V>)
    ensures x + (y + z) == (x + y) + z
  {
  }

  lemma NothingBound(a: Args)
    ensures PositionalsIn([]) + a.args == a.args && KeywordsIn([], []) + a.kwargs == a.kwargs
            && KeywordCount([], []) == 0
  {
  }

  lemma OneMoreBound(ps: seq<Slot>, b: Bound, bs: seq<Bound>)
    requires |ps| == |bs| + 1
    ensures PositionalsIn([b] + bs) == PositionalPart(b) + PositionalsIn(bs)
    ensures KeywordsIn(ps, [b] + bs) == KeywordPart(ps[0].name, b) + KeywordsIn(ps[1..], bs)
    ensures KeywordCount(ps, [b] + bs) == |KeywordPart(ps[0].name, b)| + KeywordCount(ps[1..], bs)
  {
    assert ([b] + bs)[1..] == bs;
  }

  // Every argument of a successful call lands in exactly one parameter, *args and **kwargs included.
  lemma ArgumentsConserved(ps: seq<Slot>, a: Args)
    requires Bind(ps, a).Some?
    ensures var bs := Bind(ps, a).value;
            |bs| == |ps| && PositionalsIn(bs) == a.args && KeywordsIn(ps, bs) == a.kwargs
            && KeywordCount(ps, bs) == |a.kwargs|
  {
    hide TakeAll, PositionalsIn, KeywordsIn;
    TakeAllConserves(ps, a);
    var bs := Bind(ps, a).value;
    assert PositionalsIn(bs) + [] == PositionalsIn(bs) && KeywordsIn(ps, bs) + map[] == KeywordsIn(ps, bs);
  }
}
