/**
  The argument binder that the derive macro emits. It takes arguments out of the call one parameter
  at a time and rejects what is left; the reference is the slot-filling of section 6.3.4 of the Python
  Language Reference.
*/
module Binder {
  import opened Signature
  import opened Options

  // How a parameter got its value; the constructor says where the value comes from.
  datatype Bound =
    | Positional(v: Value)
    | Keyword(v: Value)
    | Defaulted(v: Value)
    | Rest(vs: seq<Value>)            // *args
    | RestKeywords(m: map<Name, Value>)  // **kwargs; None in its place when there are none
    | NoKeywords

  datatype Args = Args(args: seq<Value>, kwargs: map<Name, Value>)

  datatype Slot = Slot(name: Name, spec: Spec)

  // ---------------------------------------------------------------- the emitted binder

  // One binding statement: what the parameter gets and what is left of the call.
  function TakeOne(p: Slot, a: Args): Option<(Bound, Args)> {
    if p.spec.varargs then Some((Rest(a.args), a.(args := [])))
    else if p.spec.varKeyword then
      Some((if a.kwargs == map[] then NoKeywords else RestKeywords(a.kwargs), a.(kwargs := map[])))
    else if !p.spec.keywordOnly && a.args != [] then Some((Positional(a.args[0]), a.(args := a.args[1..])))
    else if (p.spec.keywordOnly || !p.spec.positionalOnly) && p.name in a.kwargs then
      Some((Keyword(a.kwargs[p.name]), a.(kwargs := a.kwargs - {p.name})))
    else if p.spec.default.Some? then Some((Defaulted(p.spec.default.value), a))
    else None
  }

  function TakeAll(ps: seq<Slot>, a: Args): Option<(seq<Bound>, Args)> {
    if ps == [] then Some(([], a))
    else
      match TakeOne(ps[0], a)
      case None => None
      case Some((b, a')) =>
        match TakeAll(ps[1..], a')
        case None => None
        case Some((bs, a'')) => Some(([b] + bs, a''))
  }

  // FuncArgs::bind: nothing may be left over.
  function Bind(ps: seq<Slot>, a: Args): Option<seq<Bound>> {
    match TakeAll(ps, a)
    case Some((bs, left)) => if left.args == [] && left.kwargs == map[] then Some(bs) else None
    case None => None
  }

  // The call arguments, consumed in place.
  class FuncArgs {
    var args: seq<Value>
    var kwargs: map<Name, Value>

    function Left(): Args
      reads this
    {
      Args(args, kwargs)
    }

    constructor (a: Args)
      ensures Left() == a
    {
      args, kwargs := a.args, a.kwargs;
    }

    method TakePositional() returns (v: Option<Value>)
      modifies this
      ensures kwargs == old(kwargs)
      ensures if old(args) == [] then v == None && args == []
              else v == Some(old(args)[0]) && args == old(args)[1..]
    {
      if args == [] {
        return None;
      }
      v := Some(args[0]);
      args := args[1..];
    }

    method TakeKeyword(name: Name) returns (v: Option<Value>)
      modifies this
      ensures args == old(args) && kwargs == old(kwargs) - {name}
      ensures v == if name in old(kwargs) then Some(old(kwargs)[name]) else None
    {
      if name !in kwargs {
        assert kwargs == kwargs - {name};
        return None;
      }
      v := Some(kwargs[name]);
      kwargs := kwargs - {name};
    }

    // The statement emitted for one parameter.
    method BindOne(p: Slot) returns (b: Option<Bound>)
      modifies this
      ensures match TakeOne(p, old(Left()))
              case None => b.None?
              case Some((v, left)) => b == Some(v) && Left() == left
    {
      if p.spec.varargs {
        b := Some(Rest(args));
        args := [];
      } else if p.spec.varKeyword {
        b := Some(if kwargs == map[] then NoKeywords else RestKeywords(kwargs));
        kwargs := map[];
      } else {
        var v: Option<Value> := None;
        var byKeyword := false;
        if p.spec.keywordOnly {
          v := TakeKeyword(p.name);
          byKeyword := true;
        } else if p.spec.positionalOnly {
          v := TakePositional();
        } else {
          v := TakePositional();
          if v.None? {
            v := TakeKeyword(p.name);
            byKeyword := true;
          }
        }
        if v.Some? {
          b := Some(if byKeyword then Keyword(v.value) else Positional(v.value));
        } else if p.spec.default.Some? {
          b := Some(Defaulted(p.spec.default.value));
          assert kwargs == old(kwargs);
        } else {
          b := None;
        }
      }
    }

    // from_args of the emitted helper, then the leftover check of bind.
    method BindAll(ps: seq<Slot>) returns (result: Option<seq<Bound>>)
      modifies this
      ensures result == Bind(ps, old(Left()))
    {
      var bound: seq<Bound> := [];
      ghost var a := Left();
      assert ps[0..] == ps && forall bs :: bound + bs == bs;
      for i := 0 to |ps|
        invariant match TakeAll(ps[i..], Left())
                  case None => TakeAll(ps, a) == None
                  case Some((bs, left)) => TakeAll(ps, a) == Some((bound + bs, left))
      {
        assert ps[i..][0] == ps[i] && ps[i..][1..] == ps[i + 1..];
        var b := BindOne(ps[i]);
        if b.None? {
          return None;
        }
        assert forall bs :: (bound + [b.value]) + bs == bound + ([b.value] + bs);
        bound := bound + [b.value];
      }
      assert ps[|ps|..] == [] && bound + [] == bound;
      if args == [] && kwargs == map[] {
        return Some(bound);
      }
      return None;
    }
  }

  // ---------------------------------------------------------------- Python's rules

  // The parameters that positional arguments fill.
  function Positionals(sig: Sig): seq<Param> {
    sig.posOnly + sig.regular
  }

  // A keyword argument may name this parameter.
  predicate ByName(sig: Sig, i: nat) {
    i >= |sig.posOnly|
  }

  // The value of the i-th positional slot, if anything fills it.
  function PositionalSlot(sig: Sig, a: Args, i: nat): Option<Bound>
    requires i < |Positionals(sig)|
  {
    var p := Positionals(sig)[i];
    if i < |a.args| then Some(Positional(a.args[i]))
    else if ByName(sig, i) && p.name in a.kwargs then Some(Keyword(a.kwargs[p.name]))
    else if p.default.Some? then Some(Defaulted(p.default.value))
    else None
  }

  function KeywordSlot(p: Param, a: Args): Option<Bound> {
    if p.name in a.kwargs then Some(Keyword(a.kwargs[p.name]))
    else if p.default.Some? then Some(Defaulted(p.default.value))
    else None
  }

  // Keywords that fill a slot which no positional argument has filled.
  function UsedKeywords(sig: Sig, a: Args): set<Name> {
    (set i | 0 <= i < |Positionals(sig)| && ByName(sig, i) && i >= |a.args| :: Positionals(sig)[i].name)
    + (set i | 0 <= i < |sig.kwOnly| :: sig.kwOnly[i].name)
  }

  // Keywords that name a slot already filled by a positional argument.
  function Conflicts(sig: Sig, a: Args): set<Name> {
    set i | 0 <= i < |Positionals(sig)| && ByName(sig, i) && i < |a.args| && Positionals(sig)[i].name in a.kwargs
      :: Positionals(sig)[i].name
  }

  // Every argument has a slot and every slot a value.
  predicate Fits(sig: Sig, a: Args) {
    && (|a.args| <= |Positionals(sig)| || sig.star.VarArgs?)
    && (sig.kwargs.None? ==> a.kwargs.Keys <= UsedKeywords(sig, a))
    && (forall i :: 0 <= i < |Positionals(sig)| ==> PositionalSlot(sig, a, i).Some?)
    && (forall i :: 0 <= i < |sig.kwOnly| ==> KeywordSlot(sig.kwOnly[i], a).Some?)
  }

  // Positional arguments fill the first slots, keywords the slots they name, defaults what is left; a
  // second value for a slot, an argument without a slot and a slot without a value are errors.
  predicate Accepts(sig: Sig, a: Args) {
    Fits(sig, a) && Conflicts(sig, a) == {}
  }

  // The value of each parameter in a call that fits. An empty **kwargs shows as None.
  function Values(sig: Sig, a: Args): seq<Bound>
    requires Fits(sig, a)
  {
    var n := |Positionals(sig)|;
    seq(n, i requires 0 <= i < n => PositionalSlot(sig, a, i).value)
    + (if sig.star.VarArgs? then [Rest(if |a.args| > n then a.args[n..] else [])] else [])
    + seq(|sig.kwOnly|, i requires 0 <= i < |sig.kwOnly| => KeywordSlot(sig.kwOnly[i], a).value)
    + (if sig.kwargs.Some? then
         var rest := a.kwargs - UsedKeywords(sig, a);
         [if rest == map[] then NoKeywords else RestKeywords(rest)]
       else [])
  }

  // What Python makes of a call.
  function Python(sig: Sig, a: Args): Option<seq<Bound>> {
    if Accepts(sig, a) then Some(Values(sig, a)) else None
  }

  // ---------------------------------------------------------------- refinement

  function Slots(names: seq<Name>, specs: seq<Spec>): seq<Slot>
    requires |names| == |specs|
  {
    seq(|names|, i requires 0 <= i < |names| => Slot(names[i], specs[i]))
  }

  function ParamSlots(ps: seq<Param>, positionalOnly: bool, keywordOnly: bool): (slots: seq<Slot>)
    ensures |slots| == |ps|
  {
    seq(|ps|, i requires 0 <= i < |ps| => Slot(ps[i].name, Spec(ps[i].default, positionalOnly, keywordOnly, false, false)))
  }

  function StarSlots(star: StarItem): seq<Slot> {
    if star.VarArgs? then [Slot(star.name, Spec(None, false, false, true, false))] else []
  }

  function KwargsSlots(kwargs: Option<Name>, keywordOnly: bool): seq<Slot> {
    if kwargs.Some? then [Slot(kwargs.value, Spec(None, false, keywordOnly, false, true))] else []
  }

  // What the macro emits for a list: the parsed specs zipped with the names of the Rust parameters.
  function Emitted(sig: Sig): seq<Slot> {
    ParamSlots(sig.posOnly, true, false) + ParamSlots(sig.regular, false, false) + StarSlots(sig.star)
    + ParamSlots(sig.kwOnly, false, sig.star.BareStar?) + KwargsSlots(sig.kwargs, sig.star.BareStar?)
  }

  lemma EmittedIsParsed(sig: Sig)
    ensures |NamesOf(sig)| == |SpecsOf(sig)| && Emitted(sig) == Slots(NamesOf(sig), SpecsOf(sig))
  {
  }

  lemma {:induction false} TakeAllSplit(p: seq<Slot>, q: seq<Slot>, a: Args)
    ensures TakeAll(p + q, a)
            == match TakeAll(p, a)
               case None => None
               case Some((bs, a')) =>
                 match TakeAll(q, a')
                 case None => None
                 case Some((cs, a'')) => Some((bs + cs, a''))
    decreases |p|
  {
    if p == [] {
      assert p + q == q;
      assert forall cs: seq<Bound> :: [] + cs == cs;
    } else {
      assert (p + q)[0] == p[0] && (p + q)[1..] == p[1..] + q;
      match TakeOne(p[0], a)
      case None =>
      case Some((b, a')) =>
        TakeAllSplit(p[1..], q, a');
        assert forall bs: seq<Bound>, cs: seq<Bound> :: ([b] + bs) + cs == [b] + (bs + cs);
    }
  }

  lemma TakeSingle(p: Slot, a: Args)
    ensures TakeAll([p], a)
            == match TakeOne(p, a)
               case None => None
               case Some((b, a')) => Some(([b], a'))
  {
    assert [p][1..] == [] && forall b: Bound :: [b] + [] == [b];
  }

  // ---------------------------------------------------------------- positional parameters

  function PositionalSlots(sig: Sig): seq<Slot> {
    ParamSlots(sig.posOnly, true, false) + ParamSlots(sig.regular, false, false)
  }

  // The names before slot i that a keyword may fill because no positional argument does.
  function FilledByName(sig: Sig, a: Args, i: nat): set<Name>
    requires i <= |Positionals(sig)|
  {
    set j | 0 <= j < i && ByName(sig, j) && j >= |a.args| :: Positionals(sig)[j].name
  }

  lemma PositionalNames(sig: Sig)
    ensures forall i :: 0 <= i < |Positionals(sig)| ==> Positionals(sig)[i].name == NamesOf(sig)[i]
  {
  }

  lemma NotYetTaken(sig: Sig, a: Args, i: nat)
    requires WellFormed(sig) && i < |Positionals(sig)|
    ensures Positionals(sig)[i].name !in FilledByName(sig, a, i)
  {
    PositionalNames(sig);
  }

  lemma FilledByNameStep(sig: Sig, a: Args, i: nat)
    requires i < |Positionals(sig)|
    ensures FilledByName(sig, a, i + 1)
            == FilledByName(sig, a, i)
               + if ByName(sig, i) && i >= |a.args| then {Positionals(sig)[i].name} else {}
  {
  }

  // What is left of the call when slot i is next.
  function LeftAt(sig: Sig, a: Args, i: nat): Args
    requires i <= |Positionals(sig)|
  {
    Args(if i < |a.args| then a.args[i..] else [], a.kwargs - FilledByName(sig, a, i))
  }

  // The binding statement of a positional slot takes what Python puts there.
  lemma TakePositionalSlot(sig: Sig, a: Args, i: nat)
    requires WellFormed(sig) && i < |Positionals(sig)|
    ensures TakeOne(PositionalSlots(sig)[i], LeftAt(sig, a, i))
            == match PositionalSlot(sig, a, i)
               case None => None
               case Some(b) => Some((b, LeftAt(sig, a, i + 1)))
  {
    NotYetTaken(sig, a, i);
    FilledByNameStep(sig, a, i);
    var p, slot := Positionals(sig)[i], PositionalSlots(sig)[i];
    assert slot == Slot(p.name, Spec(p.default, i < |sig.posOnly|, false, false, false));
    var left := LeftAt(sig, a, i);
    if i < |a.args| {
      assert left.args[0] == a.args[i] && left.args[1..] == if i + 1 < |a.args| then a.args[i + 1..] else [];
      assert FilledByName(sig, a, i + 1) == FilledByName(sig, a, i);
    } else if ByName(sig, i) {
      assert left.kwargs - {p.name} == a.kwargs - FilledByName(sig, a, i + 1);
      if p.name !in a.kwargs { assert left.kwargs == a.kwargs - FilledByName(sig, a, i + 1); }
    } else {
      assert FilledByName(sig, a, i + 1) == FilledByName(sig, a, i);
    }
  }

  predicate PositionalsFilled(sig: Sig, a: Args, i: nat) {
    forall j :: i <= j < |Positionals(sig)| ==> PositionalSlot(sig, a, j).Some?
  }

  function PositionalValues(sig: Sig, a: Args, i: nat): seq<Bound>
    requires i <= |Positionals(sig)| && PositionalsFilled(sig, a, i)
    decreases |Positionals(sig)| - i
  {
    if i == |Positionals(sig)| then []
    else [PositionalSlot(sig, a, i).value] + PositionalValues(sig, a, i + 1)
  }

  lemma {:induction false} TakePositionals(sig: Sig, a: Args, i: nat)
    requires WellFormed(sig) && i <= |Positionals(sig)|
    ensures TakeAll(PositionalSlots(sig)[i..], LeftAt(sig, a, i))
            == if PositionalsFilled(sig, a, i) then
                 Some((PositionalValues(sig, a, i), LeftAt(sig, a, |Positionals(sig)|)))
               else None
    decreases |Positionals(sig)| - i
  {
    hide LeftAt, PositionalSlot, TakeOne;
    var slots := PositionalSlots(sig)[i..];
    if i < |Positionals(sig)| {
      assert slots[0] == PositionalSlots(sig)[i] && slots[1..] == PositionalSlots(sig)[i + 1..];
      TakePositionalSlot(sig, a, i);
      TakePositionals(sig, a, i + 1);
    }
  }

  // ---------------------------------------------------------------- parameters after the star

  function NameSet(ps: seq<Param>): set<Name> {
    set i | 0 <= i < |ps| :: ps[i].name
  }

  predicate KeywordsFilled(ps: seq<Param>, a: Args) {
    forall i :: 0 <= i < |ps| ==> KeywordSlot(ps[i], a).Some?
  }

  function KeywordValues(ps: seq<Param>, a: Args): seq<Bound>
    requires KeywordsFilled(ps, a)
  {
    seq(|ps|, i requires 0 <= i < |ps| => KeywordSlot(ps[i], a).value)
  }

  // The values of all parameters from the first one's and the others', taken from what is left.
  lemma KeywordsSplit(ps: seq<Param>, a: Args)
    requires Distinct(ParamNames(ps)) && ps != []
    ensures var a' := Args(a.args, a.kwargs - {ps[0].name});
            && (KeywordsFilled(ps, a) <==> KeywordSlot(ps[0], a).Some? && KeywordsFilled(ps[1..], a'))
            && (KeywordsFilled(ps, a) ==>
                  KeywordValues(ps, a) == [KeywordSlot(ps[0], a).value] + KeywordValues(ps[1..], a'))
  {
    hide KeywordSlot;
    var rest, a' := ps[1..], Args(a.args, a.kwargs - {ps[0].name});
    assert ParamNames(rest) == ParamNames(ps)[1..];
    SameKeywords(rest, a, ps[0].name);
    assert forall i :: 0 <= i < |rest| ==> rest[i] == ps[i + 1];
    assert forall i :: 0 < i < |ps| ==> ps[i] == rest[i - 1];
  }

  lemma KeywordTaken(p: Param, flag: bool, a: Args)
    requires flag || a.args == []
    ensures TakeOne(ParamSlots([p], false, flag)[0], a)
            == if KeywordSlot(p, a).Some? then Some((KeywordSlot(p, a).value, Args(a.args, a.kwargs - {p.name}))) else None
  {
    if p.name !in a.kwargs { assert a.kwargs - {p.name} == a.kwargs; }
  }

  // A parameter after the star takes its value by name: it is flagged keyword-only, or *args has
  // drained the positional arguments.
  lemma {:induction false} TakeKeywords(ps: seq<Param>, flag: bool, a: Args)
    requires Distinct(ParamNames(ps)) && (ps == [] || flag || a.args == [])
    ensures TakeAll(ParamSlots(ps, false, flag), a)
            == if KeywordsFilled(ps, a) then Some((KeywordValues(ps, a), Args(a.args, a.kwargs - NameSet(ps))))
               else None
    decreases |ps|
  {
    hide TakeOne, KeywordSlot;
    if ps == [] {
      assert NameSet(ps) == {} && a.kwargs - {} == a.kwargs && KeywordsFilled(ps, a) && KeywordValues(ps, a) == [];
    } else {
      hide KeywordsFilled, KeywordValues, NameSet;
      var p, rest := ps[0], ps[1..];
      var slots := ParamSlots(ps, false, flag);
      assert slots[1..] == ParamSlots(rest, false, flag) && slots[0] == ParamSlots([p], false, flag)[0];
      assert ParamNames(rest) == ParamNames(ps)[1..];
      NameSetSplit(ps);
      KeywordsSplit(ps, a);
      KeywordTaken(p, flag, a);
      var a' := Args(a.args, a.kwargs - {p.name});
      TakeKeywords(rest, flag, a');
      assert a'.kwargs - NameSet(rest) == a.kwargs - NameSet(ps);
    }
  }

  lemma NameSetSplit(ps: seq<Param>)
    requires ps != []
    ensures NameSet(ps) == {ps[0].name} + NameSet(ps[1..])
  {
    assert forall i :: 0 < i < |ps| ==> ps[i] == ps[1..][i - 1];
  }

  // Taking one name leaves the slots of other names as they are.
  lemma SameKeywords(ps: seq<Param>, a: Args, name: Name)
    requires forall i :: 0 <= i < |ps| ==> ps[i].name != name
    ensures forall i :: 0 <= i < |ps| ==> KeywordSlot(ps[i], Args(a.args, a.kwargs - {name})) == KeywordSlot(ps[i], a)
  {
  }

  // ---------------------------------------------------------------- the whole call

  lemma NamesApart(sig: Sig, i: nat)
    requires WellFormed(sig) && i < |Positionals(sig)|
    ensures Positionals(sig)[i].name !in NameSet(sig.kwOnly)
  {
    var names := NamesOf(sig);
    PositionalNames(sig);
    var k := |Positionals(sig)| + |StarNames(sig.star)|;
    assert forall j :: 0 <= j < |sig.kwOnly| ==> names[k + j] == sig.kwOnly[j].name;
  }

  lemma KeywordNamesDistinct(sig: Sig)
    requires WellFormed(sig)
    ensures Distinct(ParamNames(sig.kwOnly))
  {
    var names := NamesOf(sig);
    var k := |Positionals(sig)| + |StarNames(sig.star)|;
    forall i, j | 0 <= i < j < |sig.kwOnly|
      ensures sig.kwOnly[i].name != sig.kwOnly[j].name
    {
      assert names[k + i] == sig.kwOnly[i].name && names[k + j] == sig.kwOnly[j].name;
    }
  }

  // What is left after the positional slots and the star.
  function AfterStar(sig: Sig, a: Args): Args {
    var left := LeftAt(sig, a, |Positionals(sig)|);
    if sig.star.VarArgs? then left.(args := []) else left
  }

  lemma KeywordSlotsAfterStar(sig: Sig, a: Args)
    requires WellFormed(sig)
    ensures forall i :: 0 <= i < |sig.kwOnly| ==>
              KeywordSlot(sig.kwOnly[i], AfterStar(sig, a)) == KeywordSlot(sig.kwOnly[i], a)
    ensures AfterStar(sig, a).kwargs - NameSet(sig.kwOnly) == a.kwargs - UsedKeywords(sig, a)
  {
    var n := |Positionals(sig)|;
    forall i | 0 <= i < |sig.kwOnly| ensures sig.kwOnly[i].name !in FilledByName(sig, a, n) {
      forall j | 0 <= j < n ensures Positionals(sig)[j].name != sig.kwOnly[i].name {
        NamesApart(sig, j);
      }
    }
    assert UsedKeywords(sig, a) == FilledByName(sig, a, n) + NameSet(sig.kwOnly);
  }

  lemma StartOfCall(sig: Sig, a: Args)
    ensures LeftAt(sig, a, 0) == a
  {
    assert FilledByName(sig, a, 0) == {};
    assert a.kwargs - {} == a.kwargs;
    if a.args != [] { assert a.args[0..] == a.args; }
  }

  function StarValues(sig: Sig, a: Args): seq<Bound> {
    var n := |Positionals(sig)|;
    if sig.star.VarArgs? then [Rest(if |a.args| > n then a.args[n..] else [])] else []
  }

  function KwargsValues(sig: Sig, a: Args): seq<Bound> {
    if sig.kwargs.Some? then
      var rest := a.kwargs - UsedKeywords(sig, a);
      [if rest == map[] then NoKeywords else RestKeywords(rest)]
    else []
  }

  lemma TakeStar(sig: Sig, a: Args)
    ensures TakeAll(StarSlots(sig.star), LeftAt(sig, a, |Positionals(sig)|))
            == Some((StarValues(sig, a), AfterStar(sig, a)))
  {
    if sig.star.VarArgs? { TakeSingle(StarSlots(sig.star)[0], LeftAt(sig, a, |Positionals(sig)|)); }
  }

  lemma TakeKwargs(sig: Sig, a: Args, args: seq<Value>)
    ensures TakeAll(KwargsSlots(sig.kwargs, sig.star.BareStar?), Args(args, a.kwargs - UsedKeywords(sig, a)))
            == Some((KwargsValues(sig, a),
                     Args(args, if sig.kwargs.Some? then map[] else a.kwargs - UsedKeywords(sig, a))))
  {
    if sig.kwargs.Some? {
      TakeSingle(KwargsSlots(sig.kwargs, sig.star.BareStar?)[0], Args(args, a.kwargs - UsedKeywords(sig, a)));
    }
  }

  lemma ValuesInParts(sig: Sig, a: Args)
    requires Fits(sig, a)
    ensures PositionalsFilled(sig, a, 0) && KeywordsFilled(sig.kwOnly, a)
    ensures Values(sig, a)
            == PositionalValues(sig, a, 0) + StarValues(sig, a) + KeywordValues(sig.kwOnly, a) + KwargsValues(sig, a)
  {
    PositionalValuesAt(sig, a, 0);
    var n := |Positionals(sig)|;
    assert seq(n, i requires 0 <= i < n => PositionalSlot(sig, a, i).value) == PositionalValues(sig, a, 0);
  }

  lemma {:induction false} PositionalValuesAt(sig: Sig, a: Args, i: nat)
    requires i <= |Positionals(sig)| && PositionalsFilled(sig, a, i)
    ensures |PositionalValues(sig, a, i)| == |Positionals(sig)| - i
    ensures forall j :: i <= j < |Positionals(sig)| ==>
              PositionalValues(sig, a, i)[j - i] == PositionalSlot(sig, a, j).value
    decreases |Positionals(sig)| - i
  {
    if i < |Positionals(sig)| {
      PositionalValuesAt(sig, a, i + 1);
    }
  }

  // The binder on the whole list: it succeeds exactly on the calls that fit, and gives each parameter
  // the value that Python gives it.
  lemma BindFits(sig: Sig, a: Args)
    requires WellFormed(sig)
    ensures Bind(Emitted(sig), a) == if Fits(sig, a) then Some(Values(sig, a)) else None
  {
    hide TakeAll, TakeOne, LeftAt, PositionalSlot, KeywordSlot, UsedKeywords, PositionalValues, KeywordValues;
    hide Values, StarValues, KwargsValues, Distinct, NameSet, ParamSlots, StarSlots, KwargsSlots;
    var p1, p2 := PositionalSlots(sig), StarSlots(sig.star);
    var p3 := ParamSlots(sig.kwOnly, false, sig.star.BareStar?);
    var p4 := KwargsSlots(sig.kwargs, sig.star.BareStar?);
    assert Emitted(sig) == p1 + p2 + p3 + p4;
    TakeAllSplit(p1 + p2 + p3, p4, a);
    TakeAllSplit(p1 + p2, p3, a);
    TakeAllSplit(p1, p2, a);
    StartOfCall(sig, a);
    assert p1[0..] == p1;
    TakePositionals(sig, a, 0);
    TakeStar(sig, a);
    var left := AfterStar(sig, a);
    assert sig.kwOnly == [] || sig.star.BareStar? || left.args == [];
    KeywordSlotsAfterStar(sig, a);
    KeywordNamesDistinct(sig);
    TakeKeywords(sig.kwOnly, sig.star.BareStar?, left);
    SameValues(sig, a);
    TakeKwargs(sig, a, left.args);
    LeftoverArgs(sig, a);
    LeftoverKeywords(sig, a);
    if Fits(sig, a) { ValuesInParts(sig, a); }
  }

  lemma SameValues(sig: Sig, a: Args)
    requires WellFormed(sig)
    ensures KeywordsFilled(sig.kwOnly, AfterStar(sig, a)) <==> KeywordsFilled(sig.kwOnly, a)
    ensures KeywordsFilled(sig.kwOnly, a) ==>
              KeywordValues(sig.kwOnly, AfterStar(sig, a)) == KeywordValues(sig.kwOnly, a)
  {
    KeywordSlotsAfterStar(sig, a);
  }

  lemma LeftoverArgs(sig: Sig, a: Args)
    ensures AfterStar(sig, a).args == [] <==> |a.args| <= |Positionals(sig)| || sig.star.VarArgs?
  {
  }

  lemma LeftoverKeywords(sig: Sig, a: Args)
    ensures a.kwargs - UsedKeywords(sig, a) == map[] <==> a.kwargs.Keys <= UsedKeywords(sig, a)
  {
    var rest := a.kwargs - UsedKeywords(sig, a);
    if rest == map[] {
      forall k | k in a.kwargs.Keys ensures k in UsedKeywords(sig, a) {
        assert k !in rest;
      }
    }
  }

  // Without **kwargs the binder that is emitted for a parsed signature accepts exactly the calls that
  // Python accepts, and gives each parameter the same value.
  lemma BinderRefinesPython(sig: Sig, trailing: bool, a: Args)
    requires WellFormed(sig) && sig.kwargs.None?
    ensures var specs := Parse(Print(sig, trailing));
            && specs.Some? && |specs.value| == |NamesOf(sig)|
            && Bind(Slots(NamesOf(sig), specs.value), a) == Python(sig, a)
  {
    ParsePrint(sig, trailing);
    EmittedIsParsed(sig);
    BindFits(sig, a);
    if Fits(sig, a) { NoConflictWithoutKwargs(sig, a); }
  }

  // Without **kwargs a keyword for a filled slot has no other slot to go to.
  lemma NoConflictWithoutKwargs(sig: Sig, a: Args)
    requires WellFormed(sig) && a.kwargs.Keys <= UsedKeywords(sig, a)
    ensures Conflicts(sig, a) == {}
  {
    forall i | 0 <= i < |Positionals(sig)| && ByName(sig, i) && i < |a.args|
      ensures Positionals(sig)[i].name !in a.kwargs
    {
      PositionalNames(sig);
      NamesApart(sig, i);
    }
  }

  // With **kwargs the two differ on exactly the calls that fit but name a slot that a positional
  // argument has filled: Python raises, the binder passes the keyword on in **kwargs.
  lemma KwargsDifference(sig: Sig, a: Args)
    requires WellFormed(sig)
    ensures Accepts(sig, a) ==> Bind(Emitted(sig), a) == Some(Values(sig, a))
    ensures Bind(Emitted(sig), a).Some? != Accepts(sig, a)
            <==> sig.kwargs.Some? && Fits(sig, a) && Conflicts(sig, a) != {}
  {
    BindFits(sig, a);
    if Fits(sig, a) && sig.kwargs.None? { NoConflictWithoutKwargs(sig, a); }
  }

  // f(a, **kw) called as f(1, a=2): a is 1 and kw is {a: 2}.
  lemma KwargsDiffers()
    ensures exists sig, a :: WellFormed(sig) && !Accepts(sig, a)
                             && Bind(Emitted(sig), a) == Some([Positional(1), RestKeywords(map["a" := 2])])
  {
    var sig := Sig([], [Param("a", None)], NoStar, [], Some("kw"));
    var a := Args([1], map["a" := 2]);
    assert NamesOf(sig) == ["a", "kw"];
    assert Positionals(sig)[0] == Param("a", None);
    assert "a" in Conflicts(sig, a);
    var p, q := Slot("a", Spec(None, false, false, false, false)), Slot("kw", Spec(None, false, false, false, true));
    assert Emitted(sig) == [p] + [q];
    assert a.kwargs != map[] by { assert "a" in a.kwargs; }
    TakeSingle(p, a);
    TakeSingle(q, Args([], a.kwargs));
    assert a.args[1..] == [];
    TakeAllSplit([p], [q], a);
    assert [Positional(1)] + [RestKeywords(a.kwargs)] == [Positional(1), RestKeywords(map["a" := 2])];
    assert "a" != "kw" && Distinct(NamesOf(sig));
    assert !Accepts(sig, a);
  }
}
