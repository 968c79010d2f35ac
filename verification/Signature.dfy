/**
  `#[pyo3(signature = (...))]`: the parser of the derive macro, over tokens, and the Python parameter
  lists it is meant to read (PEP 570 for `/`, PEP 3102 for `*`).
*/
module Signature {
  import opened Options

  type Name = string
  type Value = int

  // A default expression is one token.
  datatype Token = Slash | Star | Equals | Comma | Ident(name: Name) | Expr(value: Value) | Other

  // What the parser knows about a parameter; names are not kept.
  datatype Spec = Spec(default: Option<Value>, positionalOnly: bool, keywordOnly: bool, varargs: bool, varKeyword: bool)

  // ---------------------------------------------------------------- parser

  datatype ParserState = ParserState(parsed: seq<Spec>, keywordOnly: bool, nextVarargs: bool, nextVarKeyword: bool)

  function MarkPositionalOnly(specs: seq<Spec>): (marked: seq<Spec>)
    ensures |marked| == |specs|
    ensures forall i :: 0 <= i < |specs| ==>
              marked[i] == if specs[i].keywordOnly then specs[i] else specs[i].(positionalOnly := true)
  {
    seq(|specs|, i requires 0 <= i < |specs| =>
                   if specs[i].keywordOnly then specs[i] else specs[i].(positionalOnly := true))
  }

  function AddSpec(st: ParserState, default: Option<Value>): ParserState {
    ParserState(st.parsed + [Spec(default, false, st.keywordOnly, st.nextVarargs, st.nextVarKeyword)],
                st.keywordOnly, false, false)
  }

  // One item of the list, without the comma after it: the new state and the number of tokens it takes.
  function Item(ts: seq<Token>, st: ParserState): Option<(ParserState, nat)>
    requires ts != []
  {
    match ts[0]
    case Slash => Some((st.(parsed := MarkPositionalOnly(st.parsed)), 1))
    case Star =>
      if |ts| > 1 && ts[1].Star? then Some((st.(nextVarKeyword := true), 2))
      else if |ts| > 1 && ts[1].Ident? then Some((st.(nextVarargs := true), 1))
      else Some((st.(keywordOnly := true), 1))
    case Ident(_) =>
      if |ts| > 1 && ts[1].Equals? then
        if |ts| > 2 && ts[2].Expr? then Some((AddSpec(st, Some(ts[2].value)), 3)) else None
      else Some((AddSpec(st, None), 1))
    case _ => None
  }

  function SkipComma(ts: seq<Token>): seq<Token> {
    if ts != [] && ts[0].Comma? then ts[1..] else ts
  }

  function ParseFrom(ts: seq<Token>, st: ParserState): Option<seq<Spec>>
    decreases |ts|
  {
    if ts == [] then Some(st.parsed)
    else
      match Item(ts, st)
      case None => None
      case Some((st', n)) => ParseFrom(SkipComma(ts[n..]), st')
  }

  function Parse(ts: seq<Token>): Option<seq<Spec>> {
    ParseFrom(ts, ParserState([], false, false, false))
  }

  // The loop over the parameters before a slash.
  method MarkAll(specs: seq<Spec>) returns (parsed: seq<Spec>)
    ensures parsed == MarkPositionalOnly(specs)
  {
    parsed := specs;
    for i := 0 to |specs|
      invariant |parsed| == |specs|
      invariant forall j :: 0 <= j < |specs| ==>
                  parsed[j] == if j < i then MarkPositionalOnly(specs)[j] else specs[j]
    {
      if !parsed[i].keywordOnly {
        parsed := parsed[i := parsed[i].(positionalOnly := true)];
      }
    }
  }

  // parse_signature_spec, on the tokens between the parentheses.
  method ParseSignatureSpec(ts: seq<Token>) returns (result: Option<seq<Spec>>)
    ensures result == Parse(ts)
  {
    var parsed: seq<Spec> := [];
    var keywordOnly, nextVarargs, nextVarKeyword := false, false, false;
    var content := ts;
    while content != []
      invariant Parse(ts) == ParseFrom(content, ParserState(parsed, keywordOnly, nextVarargs, nextVarKeyword))
      decreases |content|
    {
      ghost var before, st := content, ParserState(parsed, keywordOnly, nextVarargs, nextVarKeyword);
      match content[0] {
        case Slash =>
          content := content[1..];
          parsed := MarkAll(parsed);
        case Star =>
          content := content[1..];
          if content != [] && content[0].Star? {
            content := content[1..];
            nextVarKeyword := true;
          } else if content != [] && content[0].Ident? {
            nextVarargs := true;
          } else {
            keywordOnly := true;
          }
        case Ident(_) =>
          content := content[1..];
          var default: Option<Value> := None;
          if content != [] && content[0].Equals? {
            content := content[1..];
            if content == [] || !content[0].Expr? {
              return None;
            }
            default := Some(content[0].value);
            content := content[1..];
          }
          parsed := parsed + [Spec(default, false, keywordOnly, nextVarargs, nextVarKeyword)];
          nextVarargs, nextVarKeyword := false, false;
        case _ =>
          return None;
      }
      assert Item(before, st) == Some((ParserState(parsed, keywordOnly, nextVarargs, nextVarKeyword),
                                       |before| - |content|));
      assert content == before[|before| - |content|..];
      if content != [] && content[0].Comma? {
        content := content[1..];
      }
    }
    return Some(parsed);
  }

  // ---------------------------------------------------------------- Python parameter lists

  datatype Param = Param(name: Name, default: Option<Value>)

  datatype StarItem = NoStar | BareStar | VarArgs(name: Name)

  // (posOnly, /, regular, *args or *, kwOnly, **kwargs)
  datatype Sig = Sig(posOnly: seq<Param>, regular: seq<Param>, star: StarItem, kwOnly: seq<Param>, kwargs: Option<Name>)

  predicate WellFormed(sig: Sig) {
    && (sig.star.NoStar? ==> sig.kwOnly == [])
    && (sig.star.BareStar? ==> sig.kwOnly != [])
    && Distinct(NamesOf(sig))
  }

  predicate Distinct(names: seq<Name>) {
    forall i, j :: 0 <= i < j < |names| ==> names[i] != names[j]
  }

  function ParamNames(ps: seq<Param>): (names: seq<Name>)
    ensures |names| == |ps| && forall i :: 0 <= i < |ps| ==> names[i] == ps[i].name
  {
    seq(|ps|, i requires 0 <= i < |ps| => ps[i].name)
  }

  function StarNames(star: StarItem): seq<Name> {
    if star.VarArgs? then [star.name] else []
  }

  function KwargsNames(kwargs: Option<Name>): seq<Name> {
    if kwargs.Some? then [kwargs.value] else []
  }

  // The parameter names, in order.
  function NamesOf(sig: Sig): seq<Name> {
    ParamNames(sig.posOnly) + ParamNames(sig.regular) + StarNames(sig.star)
    + ParamNames(sig.kwOnly) + KwargsNames(sig.kwargs)
  }

  function ParamSpecs(ps: seq<Param>, positionalOnly: bool, keywordOnly: bool): (specs: seq<Spec>)
    ensures |specs| == |ps|
    ensures forall i :: 0 <= i < |ps| ==> specs[i] == Spec(ps[i].default, positionalOnly, keywordOnly, false, false)
  {
    seq(|ps|, i requires 0 <= i < |ps| => Spec(ps[i].default, positionalOnly, keywordOnly, false, false))
  }

  function StarSpecs(star: StarItem): seq<Spec> {
    if star.VarArgs? then [Spec(None, false, false, true, false)] else []
  }

  function KwargsSpecs(kwargs: Option<Name>, keywordOnly: bool): seq<Spec> {
    if kwargs.Some? then [Spec(None, false, keywordOnly, false, true)] else []
  }

  // What the parser makes of a list: a parameter is flagged keyword-only only after a bare star, never
  // after *args.
  function SpecsOf(sig: Sig): seq<Spec> {
    ParamSpecs(sig.posOnly, true, false) + ParamSpecs(sig.regular, false, false) + StarSpecs(sig.star)
    + ParamSpecs(sig.kwOnly, false, sig.star.BareStar?) + KwargsSpecs(sig.kwargs, sig.star.BareStar?)
  }

  // ---------------------------------------------------------------- printing

  function PrintParam(p: Param): seq<Token> {
    if p.default.Some? then [Ident(p.name), Equals, Expr(p.default.value)] else [Ident(p.name)]
  }

  function PrintParams(ps: seq<Param>): seq<seq<Token>> {
    seq(|ps|, i requires 0 <= i < |ps| => PrintParam(ps[i]))
  }

  function PrintStar(star: StarItem): seq<seq<Token>> {
    match star
    case NoStar => []
    case BareStar => [[Star]]
    case VarArgs(name) => [[Star, Ident(name)]]
  }

  function Items(sig: Sig): seq<seq<Token>> {
    PrintParams(sig.posOnly) + SlashItems(sig.posOnly) + PrintParams(sig.regular)
    + PrintStar(sig.star) + PrintParams(sig.kwOnly) + KwargsItems(sig.kwargs)
  }

  // The items, separated by commas, with or without a trailing one.
  function Join(items: seq<seq<Token>>, trailing: bool): seq<Token> {
    if items == [] then []
    else if |items| == 1 && !trailing then items[0]
    else items[0] + [Comma] + Join(items[1..], trailing)
  }

  function Print(sig: Sig, trailing: bool): seq<Token> {
    Join(Items(sig), trailing)
  }

  // ---------------------------------------------------------------- round trip

  // The effect of one printed item.
  function Effect(item: seq<Token>, st: ParserState): ParserState {
    if item == [Slash] then st.(parsed := MarkPositionalOnly(st.parsed))
    else if item == [Star] then st.(keywordOnly := true)
    else if |item| == 1 then AddSpec(st, None)
    else if |item| == 2 then AddSpec(st.(nextVarargs := true), None)
    else if item != [] && item[0].Star? then AddSpec(st.(nextVarKeyword := true), None)
    else if |item| == 3 && item[2].Expr? then AddSpec(st, Some(item[2].value))
    else st
  }

  predicate IsItem(item: seq<Token>) {
    || item == [Slash] || item == [Star]
    || (|item| == 1 && item[0].Ident?)
    || (|item| == 2 && item[0].Star? && item[1].Ident?)
    || (|item| == 3 && item[0].Star? && item[1].Star? && item[2].Ident?)
    || (|item| == 3 && item[0].Ident? && item[1].Equals? && item[2].Expr?)
  }

  function Effects(items: seq<seq<Token>>, st: ParserState): ParserState {
    if items == [] then st else Effects(items[1..], Effect(items[0], st))
  }

  lemma ParseItem(item: seq<Token>, rest: seq<Token>, st: ParserState)
    requires IsItem(item) && !st.nextVarargs && !st.nextVarKeyword
    requires rest == [] || rest[0].Comma?
    ensures ParseFrom(item + rest, st) == ParseFrom(SkipComma(rest), Effect(item, st))
  {
    var ts := item + rest;
    if item[0].Star? && |item| > 1 {
      // the star is one round of the loop, the name the next
      var n := |item| - 1;
      var tail := [item[n]] + rest;
      assert ts[n..] == tail;
      assert SkipComma(tail) == tail;
      assert tail[1..] == rest;
    } else {
      assert ts[|item|..] == rest;
    }
  }

  lemma {:induction false} ParseItems(items: seq<seq<Token>>, trailing: bool, st: ParserState)
    requires forall i :: 0 <= i < |items| ==> IsItem(items[i])
    requires !st.nextVarargs && !st.nextVarKeyword
    ensures ParseFrom(Join(items, trailing), st) == Some(Effects(items, st).parsed)
    decreases |items|
  {
    if items != [] {
      var st' := Effect(items[0], st);
      if |items| == 1 && !trailing {
        assert items[0] == items[0] + [];
        ParseItem(items[0], [], st);
        assert items[1..] == [];
      } else {
        var rest := Join(items[1..], trailing);
        assert items[0] + [Comma] + rest == items[0] + ([Comma] + rest);
        ParseItem(items[0], [Comma] + rest, st);
        assert SkipComma([Comma] + rest) == rest;
        ParseItems(items[1..], trailing, st');
      }
    }
  }

  lemma {:induction false} EffectsSplit(a: seq<seq<Token>>, b: seq<seq<Token>>, st: ParserState)
    ensures Effects(a + b, st) == Effects(b, Effects(a, st))
    decreases |a|
  {
    if a == [] {
      assert a + b == b;
    } else {
      assert (a + b)[0] == a[0] && (a + b)[1..] == a[1..] + b;
      EffectsSplit(a[1..], b, Effect(a[0], st));
    }
  }

  lemma {:induction false} EffectsOfParams(ps: seq<Param>, st: ParserState)
    requires !st.nextVarargs && !st.nextVarKeyword
    ensures Effects(PrintParams(ps), st) == st.(parsed := st.parsed + ParamSpecs(ps, false, st.keywordOnly))
    decreases |ps|
  {
    if ps == [] {
      assert st.parsed + [] == st.parsed;
    } else {
      var st' := AddSpec(st, ps[0].default);
      assert PrintParams(ps)[0] == PrintParam(ps[0]) && PrintParams(ps)[1..] == PrintParams(ps[1..]);
      assert Effect(PrintParam(ps[0]), st) == st';
      EffectsOfParams(ps[1..], st');
      assert st'.parsed + ParamSpecs(ps[1..], false, st.keywordOnly)
             == st.parsed + ParamSpecs(ps, false, st.keywordOnly);
    }
  }

  function KwargsItems(kwargs: Option<Name>): seq<seq<Token>> {
    if kwargs.Some? then [[Star, Star, Ident(kwargs.value)]] else []
  }

  function SlashItems(ps: seq<Param>): seq<seq<Token>> {
    if ps == [] then [] else [[Slash]]
  }

  lemma ItemsAreItems(sig: Sig)
    ensures forall i :: 0 <= i < |Items(sig)| ==> IsItem(Items(sig)[i])
  {
    assert forall ps: seq<Param>, i :: 0 <= i < |ps| ==> IsItem(PrintParams(ps)[i]);
  }

  // Every parameter list, printed with or without a trailing comma, parses to its specs.
  lemma ParsePrint(sig: Sig, trailing: bool)
    ensures Parse(Print(sig, trailing)) == Some(SpecsOf(sig))
  {
    hide ParseFrom, Effects, Effect, IsItem, PrintParams, PrintStar, KwargsItems, SlashItems, Join, ParamSpecs;
    var st0 := ParserState([], false, false, false);
    var i1, i2, i3 := PrintParams(sig.posOnly), SlashItems(sig.posOnly), PrintParams(sig.regular);
    var i4, i5, i6 := PrintStar(sig.star), PrintParams(sig.kwOnly), KwargsItems(sig.kwargs);
    ItemsAreItems(sig);
    ParseItems(Items(sig), trailing, st0);
    EffectsSplit(i1 + i2 + i3 + i4 + i5, i6, st0);
    EffectsSplit(i1 + i2 + i3 + i4, i5, st0);
    EffectsSplit(i1 + i2 + i3, i4, st0);
    EffectsSplit(i1 + i2, i3, st0);
    SlashEffect(sig.posOnly, st0);
    var st2 := st0.(parsed := ParamSpecs(sig.posOnly, true, false));
    EffectsOfParams(sig.regular, st2);
    var st3 := st2.(parsed := st2.parsed + ParamSpecs(sig.regular, false, false));
    StarEffect(sig.star, st3);
    var st4 := ParserState(st3.parsed + StarSpecs(sig.star), sig.star.BareStar?, false, false);
    EffectsOfParams(sig.kwOnly, st4);
    KwargsEffect(sig.kwargs, st4.(parsed := st4.parsed + ParamSpecs(sig.kwOnly, false, sig.star.BareStar?)));
  }

  lemma KwargsEffect(kwargs: Option<Name>, st: ParserState)
    ensures Effects(KwargsItems(kwargs), st).parsed == st.parsed + KwargsSpecs(kwargs, st.keywordOnly)
    requires !st.nextVarargs && !st.nextVarKeyword
  {
    if kwargs.Some? {
      assert KwargsItems(kwargs)[1..] == [];
    } else {
      assert st.parsed + [] == st.parsed;
    }
  }

  lemma SlashEffect(ps: seq<Param>, st: ParserState)
    requires st == ParserState([], false, false, false)
    ensures Effects(PrintParams(ps) + SlashItems(ps), st) == st.(parsed := ParamSpecs(ps, true, false))
  {
    var slash := SlashItems(ps);
    EffectsSplit(PrintParams(ps), slash, st);
    EffectsOfParams(ps, st);
    var specs := ParamSpecs(ps, false, false);
    assert st.parsed + specs == specs;
    if ps == [] {
      assert ParamSpecs(ps, true, false) == ParamSpecs(ps, false, false);
    } else {
      assert slash[1..] == [];
      assert MarkPositionalOnly(specs) == ParamSpecs(ps, true, false);
    }
  }

  lemma StarEffect(star: StarItem, st: ParserState)
    requires !st.keywordOnly && !st.nextVarargs && !st.nextVarKeyword
    ensures Effects(PrintStar(star), st)
            == ParserState(st.parsed + StarSpecs(star), star.BareStar?, false, false)
  {
    match star
    case NoStar => assert st.parsed + [] == st.parsed;
    case BareStar => assert PrintStar(star)[1..] == []; assert st.parsed + [] == st.parsed;
    case VarArgs(_) => assert PrintStar(star)[1..] == [];
  }

  // ---------------------------------------------------------------- what is rejected

  // A default stands between its name and its value, a comma behind an item, and no token is foreign.
  predicate WellPlaced(ts: seq<Token>, i: nat)
    requires i < |ts|
  {
    && !ts[i].Other?
    && (ts[i].Equals? ==> 0 < i < |ts| - 1 && ts[i - 1].Ident? && ts[i + 1].Expr?)
    && (ts[i].Expr? ==> i > 0 && ts[i - 1].Equals?)
    && (ts[i].Comma? ==> i > 0 && !ts[i - 1].Comma?)
  }

  predicate AllWellPlaced(ts: seq<Token>) {
    forall i :: 0 <= i < |ts| ==> WellPlaced(ts, i)
  }

  // The parser accepts exactly the lists in which every token has its place. It asks for no comma between
  // items, and for no order of slashes and stars.
  lemma {:induction false} ParsesExactly(ts: seq<Token>, st: ParserState)
    ensures ParseFrom(ts, st).Some? <==> AllWellPlaced(ts)
    decreases |ts|
  {
    hide MarkPositionalOnly, AddSpec;
    if ts != [] {
      match Item(ts, st)
      case None => assert !AllWellPlaced(ts) by { BadItem(ts, st); }
      case Some((st', n)) =>
        ParsesExactly(SkipComma(ts[n..]), st');
        GoodItem(ts, st);
    }
  }

  lemma BadItem(ts: seq<Token>, st: ParserState)
    requires ts != [] && Item(ts, st).None?
    ensures !AllWellPlaced(ts)
  {
    assert ts[0].Ident? ==> !WellPlaced(ts, 1);
    assert !ts[0].Ident? ==> !WellPlaced(ts, 0);
  }

  lemma GoodItem(ts: seq<Token>, st: ParserState)
    requires ts != [] && Item(ts, st).Some?
    ensures AllWellPlaced(ts) <==> AllWellPlaced(SkipComma(ts[Item(ts, st).value.1..]))
  {
    hide MarkPositionalOnly, AddSpec, WellPlaced;
    var n := Item(ts, st).value.1;
    var m := if n < |ts| && ts[n].Comma? then n + 1 else n;
    assert SkipComma(ts[n..]) == ts[m..];
    forall i | 0 <= i < m ensures WellPlaced(ts, i) { ItemIsWellPlaced(ts, st, i); }
    forall i | m <= i < |ts| ensures WellPlaced(ts[m..], i - m) <==> WellPlaced(ts, i) { RestIsWellPlaced(ts, st, m, i); }
    forall i | 0 <= i < |ts[m..]| ensures WellPlaced(ts[m..], i) <==> WellPlaced(ts, m + i) {
      assert WellPlaced(ts[m..], m + i - m) <==> WellPlaced(ts, m + i);
    }
  }

  // The tokens of an item and the comma behind it.
  lemma ItemIsWellPlaced(ts: seq<Token>, st: ParserState, i: nat)
    requires ts != [] && Item(ts, st).Some? && i < |ts|
    requires var n := Item(ts, st).value.1; i < n || (i == n && ts[n].Comma?)
    ensures WellPlaced(ts, i)
  {
    hide MarkPositionalOnly, AddSpec;
  }

  // The tokens behind them are placed as they are in the rest.
  lemma RestIsWellPlaced(ts: seq<Token>, st: ParserState, m: nat, i: nat)
    requires ts != [] && Item(ts, st).Some? && m <= i < |ts|
    requires var n := Item(ts, st).value.1; m == if n < |ts| && ts[n].Comma? then n + 1 else n
    ensures WellPlaced(ts[m..], i - m) <==> WellPlaced(ts, i)
  {
    hide MarkPositionalOnly, AddSpec;
  }
}
