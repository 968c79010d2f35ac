/**
  What the driver promises: it accepts exactly the printed documents that fit its budget.
*/
module JsonTheorems {
  import opened JsonCursor
  import opened JsonDriver
  import opened Options

  // RFC 8259 documents
  datatype Json =
    | JNull | JBool(b: bool) | JStr(s: string) | JNum(n: int)
    | JList(items: seq<Json>) | JDict(members: seq<Member>)

  datatype Member = Member(key: string, value: Json)

  function Print(d: Json): (ts: seq<Token>)
    ensures ts != [] && !ts[0].CloseList?
    decreases d
  {
    match d
    case JNull => [Null]
    case JBool(b) => [if b then True else False]
    case JStr(s) => [Str(s)]
    case JNum(n) => [Num(n)]
    case JList(items) => [OpenList] + PrintItems(items) + [CloseList]
    case JDict(members) => [OpenDict] + PrintMembers(members) + [CloseDict]
  }

  function PrintItems(items: seq<Json>): (ts: seq<Token>)
    ensures items != [] ==> ts != [] && !ts[0].CloseList?
    decreases items
  {
    if items == [] then []
    else Print(items[0]) + if |items| == 1 then [] else [Comma] + PrintItems(items[1..])
  }

  function PrintMembers(ms: seq<Member>): seq<Token>
    decreases ms
  {
    if ms == [] then [] else [Str(ms[0].key), Colon] + AfterKey(ms)
  }

  // The first value and the members after it.
  function AfterKey(ms: seq<Member>): (ts: seq<Token>)
    requires ms != []
    ensures ts != []
    decreases ms, 0
  {
    Print(ms[0].value) + if |ms| == 1 then [] else [Comma] + PrintMembers(ms[1..])
  }

  function ToPy(d: Json): PyValue
    decreases d
  {
    match d
    case JNull => PyNone
    case JBool(b) => PyBool(b)
    case JStr(s) => PyStr(s)
    case JNum(n) => PyNum(n)
    case JList(items) => PyList(ToPys(items))
    case JDict(members) => PyDict(ToEntries(members, []))
  }

  function ToPys(items: seq<Json>): (vs: seq<PyValue>)
    ensures |vs| == |items|
    decreases items
  {
    if items == [] then [] else [ToPy(items[0])] + ToPys(items[1..])
  }

  // Later members win over earlier ones with the same key.
  function ToEntries(ms: seq<Member>, entries: seq<Entry>): seq<Entry>
    decreases ms
  {
    if ms == [] then entries
    else ToEntries(ms[1..], SetItem(entries, ms[0].key, ToPy(ms[0].value)))
  }

  // How many lists and dicts enclose the innermost value.
  function Depth(d: Json): nat
    decreases d
  {
    match d
    case JList(items) => DepthOfItems(items)
    case JDict(members) => DepthOfMembers(members)
    case _ => 0
  }

  function DepthOfItems(items: seq<Json>): nat
    decreases items
  {
    if items == [] then 0 else Max(1 + Depth(items[0]), DepthOfItems(items[1..]))
  }

  function DepthOfMembers(ms: seq<Member>): nat
    decreases ms
  {
    if ms == [] then 0 else Max(1 + Depth(ms[0].value), DepthOfMembers(ms[1..]))
  }

  function Max(a: nat, b: nat): nat {
    if a < b then b else a
  }

  // No dict repeats a key, at any depth.
  predicate Distinct(d: Json)
    decreases d
  {
    match d
    case JList(items) => forall i :: 0 <= i < |items| ==> Distinct(items[i])
    case JDict(members) => DistinctKeys(members) && forall i :: 0 <= i < |members| ==> Distinct(members[i].value)
    case _ => true
  }

  predicate DistinctKeys(ms: seq<Member>) {
    forall i, j :: 0 <= i < j < |ms| ==> ms[i].key != ms[j].key
  }

  predicate Fits(d: Json, limit: nat, c: Config) {
    Depth(d) <= limit && (c.catchDuplicates ==> Distinct(d))
  }

  predicate ItemsFit(items: seq<Json>, limit: nat, c: Config) {
    DepthOfItems(items) <= limit && (c.catchDuplicates ==> forall i :: 0 <= i < |items| ==> Distinct(items[i]))
  }

  predicate MembersFit(ms: seq<Member>, limit: nat, c: Config, seen: set<string>) {
    DepthOfMembers(ms) <= limit && (c.catchDuplicates ==> KeysFit(ms, seen))
  }

  predicate KeysFit(ms: seq<Member>, seen: set<string>) {
    DistinctKeys(ms) && forall i :: 0 <= i < |ms| ==> Distinct(ms[i].value) && ms[i].key !in seen
  }

  // ---------------------------------------------------------------- unfolding, one element at a time

  lemma NoElements(c: Config, seen: set<string>, entries: seq<Entry>)
    ensures PrintItems([]) == [] && ToPys([]) == [] && PrintMembers([]) == [] && ToEntries([], entries) == entries
    ensures forall limit: nat :: ItemsFit([], limit, c) && MembersFit([], limit, c, seen)
  {
  }

  lemma OneItem(d: Json, limit: nat, c: Config)
    ensures PrintItems([d]) == Print(d) && ToPys([d]) == [ToPy(d)]
    ensures ItemsFit([d], limit, c) <==> limit > 0 && Fits(d, limit - 1, c)
  {
    var items := [d];
    assert items[1..] == [];
    assert DepthOfItems(items) == 1 + Depth(d);
    assert forall i :: 0 <= i < |items| ==> items[i] == d;
    assert ItemsFit(items, limit, c) ==> Distinct(items[0]) || !c.catchDuplicates;
  }

  lemma MoreItems(items: seq<Json>, limit: nat, c: Config)
    requires |items| > 1
    ensures PrintItems(items) == Print(items[0]) + [Comma] + PrintItems(items[1..])
    ensures ToPys(items) == [ToPy(items[0])] + ToPys(items[1..])
    ensures ItemsFit(items, limit, c) <==> limit > 0 && Fits(items[0], limit - 1, c) && ItemsFit(items[1..], limit, c)
  {
    hide Print, ToPy, Depth, Distinct, PrintMembers, ToEntries, DepthOfMembers, ItemsFit, Fits, DepthOfItems;
    assert PrintItems(items) == Print(items[0]) + ([Comma] + PrintItems(items[1..]));
    MoreItemsFit(items, limit, c);
  }

  lemma MoreItemsFit(items: seq<Json>, limit: nat, c: Config)
    requires items != []
    ensures ItemsFit(items, limit, c) <==> limit > 0 && Fits(items[0], limit - 1, c) && ItemsFit(items[1..], limit, c)
  {
    hide Depth, Distinct;
    var rest := items[1..];
    assert forall i :: 0 < i < |items| ==> items[i] == rest[i - 1];
    assert forall i :: 0 <= i < |rest| ==> rest[i] == items[i + 1];
  }

  lemma OneMember(m: Member, limit: nat, c: Config, seen: set<string>, entries: seq<Entry>)
    ensures AfterKey([m]) == Print(m.value) && ToEntries([m], entries) == SetItem(entries, m.key, ToPy(m.value))
    ensures MembersFit([m], limit, c, seen) <==>
            limit > 0 && Fits(m.value, limit - 1, c) && (c.catchDuplicates ==> m.key !in seen)
  {
    hide Print, ToPy, Depth, Distinct, PrintItems, ToPys, DepthOfItems, SetItem;
    var ms := [m];
    assert ms[1..] == [];
    assert DepthOfMembers(ms) == 1 + Depth(m.value);
    assert forall i :: 0 <= i < |ms| ==> ms[i] == m;
    assert MembersFit(ms, limit, c, seen) ==> !c.catchDuplicates || (ms[0].key !in seen && Distinct(ms[0].value));
  }

  lemma MoreMembers(ms: seq<Member>, limit: nat, c: Config, seen: set<string>, entries: seq<Entry>)
    requires |ms| > 1
    ensures AfterKey(ms) == Print(ms[0].value) + [Comma, Str(ms[1].key), Colon] + AfterKey(ms[1..])
    ensures ToEntries(ms, entries) == ToEntries(ms[1..], SetItem(entries, ms[0].key, ToPy(ms[0].value)))
    ensures MembersFit(ms, limit, c, seen) <==>
            && limit > 0 && Fits(ms[0].value, limit - 1, c) && (c.catchDuplicates ==> ms[0].key !in seen)
            && MembersFit(ms[1..], limit, c, seen + {ms[0].key})
  {
    hide Print, ToPy, Depth, Distinct, PrintItems, ToPys, DepthOfItems, SetItem;
    var rest := ms[1..];
    assert AfterKey(ms) == Print(ms[0].value) + ([Comma] + ([Str(ms[1].key), Colon] + AfterKey(rest)));
    assert forall i :: 0 < i < |ms| ==> ms[i] == rest[i - 1];
    assert forall i :: 0 <= i < |rest| ==> rest[i] == ms[i + 1];
  }

  lemma EntriesEnd(step: DictStep, ts: seq<Token>, limit: nat, c: Config, seen: set<string>, entries: seq<Entry>)
    requires !step.Key?
    ensures TakeEntries(step, ts, limit, c, seen, entries)
            == ParsedEntries(entries, if step.DictError? then Some(step.error) else None, ts)
  {
  }

  // ---------------------------------------------------------------- printed documents are read back

  lemma {:induction false} TakePrinted(d: Json, tail: seq<Token>, limit: nat, c: Config)
    requires Fits(d, limit, c)
    ensures TakeValue(Print(d) + tail, limit, c) == Parsed(Ok(ToPy(d)), tail)
    decreases d
  {
    hide TakeItems, TakeEntries, PrintItems, AfterKey, ToPys, ToEntries, DistinctKeys;
    var ts := Print(d) + tail;
    NoElements(c, {}, []);
    match d
    case JList(items) =>
      assert ts[1..] == PrintItems(items) + [CloseList] + tail;
      if items == [] {
        assert ts[2..] == tail;
      } else {
        ItemsPrinted(items, tail, limit, c, []);
        assert [] + ToPys(items) == ToPys(items);
      }
    case JDict(members) =>
      assert ts[1..] == PrintMembers(members) + [CloseDict] + tail;
      if members == [] {
        assert ts[2..] == tail;
        EntriesEnd(DictEnd, tail, limit, c, {}, []);
      } else {
        assert ts[1..][2..] == AfterKey(members) + [CloseDict] + tail;
        EntriesPrinted(members, tail, limit, c, {}, []);
      }
    case _ =>
      assert ts[1..] == tail;
  }

  lemma {:induction false} ItemsPrinted(items: seq<Json>, tail: seq<Token>, limit: nat, c: Config, acc: seq<PyValue>)
    requires items != [] && ItemsFit(items, limit, c)
    ensures TakeItems(PrintItems(items) + [CloseList] + tail, limit, c, acc) == ParsedItems(acc + ToPys(items), None, tail)
    decreases items
  {
    hide TakeValue, TakeEntries, Print, ToPy, Depth, Distinct, PrintItems, ToPys, ItemsFit, Fits;
    var ts := PrintItems(items) + [CloseList] + tail;
    if |items| == 1 {
      assert items == [items[0]];
      OneItem(items[0], limit, c);
      assert ts == Print(items[0]) + ([CloseList] + tail);
      TakePrinted(items[0], [CloseList] + tail, limit - 1, c);
      assert ([CloseList] + tail)[1..] == tail;
    } else {
      MoreItems(items, limit, c);
      var more := PrintItems(items[1..]) + [CloseList] + tail;
      assert ts == Print(items[0]) + ([Comma] + more);
      TakePrinted(items[0], [Comma] + more, limit - 1, c);
      assert ([Comma] + more)[1..] == more;
      ItemsPrinted(items[1..], tail, limit, c, acc + [ToPy(items[0])]);
      assert acc + ToPys(items) == (acc + [ToPy(items[0])]) + ToPys(items[1..]);
    }
  }

  lemma {:induction false} EntriesPrinted(ms: seq<Member>, tail: seq<Token>, limit: nat, c: Config,
                                          seen: set<string>, acc: seq<Entry>)
    requires ms != [] && MembersFit(ms, limit, c, seen)
    ensures TakeEntries(Key(ms[0].key), AfterKey(ms) + [CloseDict] + tail, limit, c, seen, acc)
            == ParsedEntries(ToEntries(ms, acc), None, tail)
    decreases ms
  {
    hide TakeValue, TakeItems, Print, ToPy, Depth, Distinct, SetItem, AfterKey, ToEntries, MembersFit, Fits;
    var ts := AfterKey(ms) + [CloseDict] + tail;
    var acc' := SetItem(acc, ms[0].key, ToPy(ms[0].value));
    if |ms| == 1 {
      assert ms == [ms[0]];
      OneMember(ms[0], limit, c, seen, acc);
      assert ts == Print(ms[0].value) + ([CloseDict] + tail);
      TakePrinted(ms[0].value, [CloseDict] + tail, limit - 1, c);
      assert ([CloseDict] + tail)[1..] == tail;
      EntriesEnd(DictEnd, tail, limit, c, seen + {ms[0].key}, acc');
    } else {
      MoreMembers(ms, limit, c, seen, acc);
      var more := AfterKey(ms[1..]) + [CloseDict] + tail;
      var following := [Comma, Str(ms[1].key), Colon] + more;
      assert ts == Print(ms[0].value) + following;
      TakePrinted(ms[0].value, following, limit - 1, c);
      assert following[1..][2..] == more;
      EntriesPrinted(ms[1..], tail, limit, c, seen + {ms[0].key}, acc');
    }
  }

  // ---------------------------------------------------------------- what is accepted was printed

  lemma {:induction false} TakeSound(ts: seq<Token>, limit: nat, c: Config) returns (d: Json)
    requires ts != [] && !c.allowPartial && TakeValue(ts, limit, c).result.Ok?
    ensures var p := TakeValue(ts, limit, c);
            ts == Print(d) + p.rest && p.result.value == ToPy(d) && Fits(d, limit, c)
    decreases |ts|, 1
  {
    hide TakeItems, TakeEntries, PrintItems, AfterKey, ToPys, ToEntries, DistinctKeys;
    var p := TakeValue(ts, limit, c);
    NoElements(c, {}, []);
    assert ts == [ts[0]] + ts[1..];
    match ts[0]
    case Null => d := JNull;
    case True => d := JBool(true);
    case False => d := JBool(false);
    case Str(s) => d := JStr(s);
    case Num(n) => d := JNum(n);
    case OpenList => d := ListSound(ts, limit, c);
    case OpenDict => d := DictSound(ts, limit, c);
  }

  lemma {:induction false} ListSound(ts: seq<Token>, limit: nat, c: Config) returns (d: Json)
    requires ts != [] && ts[0].OpenList? && !c.allowPartial && TakeValue(ts, limit, c).result.Ok?
    ensures var p := TakeValue(ts, limit, c);
            ts == Print(d) + p.rest && p.result.value == ToPy(d) && Fits(d, limit, c)
    decreases |ts|, 0
  {
    hide TakeItems, TakeEntries, PrintItems, ToPys, ToEntries, DistinctKeys;
    var (step, rest) := ArrayFirst(ts);
    NoElements(c, {}, []);
    if step.ListEnd? {
      d := JList([]);
      assert ts == [OpenList, CloseList] + rest;
      assert Print(d) == [OpenList, CloseList];
    } else {
      var items := ItemsSound(rest, limit, c, []);
      d := JList(items);
      assert [] + ToPys(items) == ToPys(items);
      assert ts == [OpenList] + rest;
      assert ts == Print(d) + TakeItems(rest, limit, c, []).rest;
    }
  }

  lemma {:induction false} DictSound(ts: seq<Token>, limit: nat, c: Config) returns (d: Json)
    requires ts != [] && ts[0].OpenDict? && !c.allowPartial && TakeValue(ts, limit, c).result.Ok?
    ensures var p := TakeValue(ts, limit, c);
            ts == Print(d) + p.rest && p.result.value == ToPy(d) && Fits(d, limit, c)
    decreases |ts|, 0
  {
    hide TakeItems, TakeEntries, AfterKey, ToPys, ToEntries, DistinctKeys;
    var (step, rest) := ObjectFirst(ts);
    NoElements(c, {}, []);
    if !step.Key? {
      EntriesEnd(step, rest, limit, c, {}, []);
      d := JDict([]);
      assert ts == [OpenDict, CloseDict] + rest;
      assert Print(d) == [OpenDict, CloseDict] && MembersFit([], limit, c, {});
    } else {
      var ms := EntriesSound(step.key, rest, limit, c, {}, []);
      d := JDict(ms);
      assert ts == [OpenDict, Str(step.key), Colon] + rest;
      assert ts == Print(d) + TakeEntries(step, rest, limit, c, {}, []).rest;
    }
  }

  lemma Closed<T>(a: seq<T>, bracket: T, left: seq<T>, rest: seq<T>)
    requires left != [] && left[0] == bracket && left[1..] == rest
    ensures a + left == a + [bracket] + rest
  {
  }

  lemma Regroup<T>(a: seq<T>, separator: seq<T>, b: seq<T>, bracket: T, rest: seq<T>)
    ensures a + (separator + (b + [bracket] + rest)) == (a + separator + b) + [bracket] + rest
  {
  }

  lemma {:induction false} ItemsSound(ts: seq<Token>, limit: nat, c: Config, acc: seq<PyValue>) returns (items: seq<Json>)
    requires ts != [] && !c.allowPartial && TakeItems(ts, limit, c, acc).error.None?
    ensures var p := TakeItems(ts, limit, c, acc);
            && items != [] && ts == PrintItems(items) + [CloseList] + p.rest
            && p.items == acc + ToPys(items) && ItemsFit(items, limit, c)
    decreases |ts|, 2
  {
    hide TakeValue, TakeEntries, Print, ToPy, Depth, Distinct, PrintItems, ToPys, ItemsFit, Fits;
    var p := CheckTakeValue(ts, limit, c);
    var d := TakeSound(ts, limit - 1, c);
    var (step, rest) := ArrayStep(p.rest);
    if step.ListEnd? {
      items := [d];
      OneItem(d, limit, c);
      Closed(Print(d), CloseList, p.rest, rest);
    } else {
      var more := ItemsSound(rest, limit, c, acc + [ToPy(d)]);
      items := [d] + more;
      assert items[1..] == more;
      MoreItems(items, limit, c);
      var after := TakeItems(rest, limit, c, acc + [ToPy(d)]).rest;
      assert p.rest == [Comma] + (PrintItems(more) + [CloseList] + after);
      Regroup(Print(d), [Comma], PrintItems(more), CloseList, after);
      assert acc + ToPys(items) == (acc + [ToPy(d)]) + ToPys(more);
    }
  }

  lemma {:induction false} EntriesSound(key: string, ts: seq<Token>, limit: nat, c: Config, seen: set<string>, acc: seq<Entry>)
    returns (ms: seq<Member>)
    requires !c.allowPartial && TakeEntries(Key(key), ts, limit, c, seen, acc).error.None?
    ensures var p := TakeEntries(Key(key), ts, limit, c, seen, acc);
            && ms != [] && ms[0].key == key && ts == AfterKey(ms) + [CloseDict] + p.rest
            && p.entries == ToEntries(ms, acc) && MembersFit(ms, limit, c, seen)
    decreases |ts|, 2
  {
    hide TakeValue, TakeItems, Print, ToPy, Depth, Distinct, SetItem, AfterKey, ToEntries, MembersFit, Fits;
    var p := CheckTakeValue(ts, limit, c);
    var d := TakeSound(ts, limit - 1, c);
    var (step, rest) := ObjectStep(p.rest);
    var acc' := SetItem(acc, key, ToPy(d));
    if !step.Key? {
      EntriesEnd(step, rest, limit, c, seen + {key}, acc');
      ms := [Member(key, d)];
      OneMember(ms[0], limit, c, seen, acc);
      Closed(Print(d), CloseDict, p.rest, rest);
    } else {
      var more := EntriesSound(step.key, rest, limit, c, seen + {key}, acc');
      ms := [Member(key, d)] + more;
      assert ms[1..] == more;
      MoreMembers(ms, limit, c, seen, acc);
      var after := TakeEntries(step, rest, limit, c, seen + {key}, acc').rest;
      assert p.rest == [Comma, Str(step.key), Colon] + (AfterKey(more) + [CloseDict] + after);
      Regroup(Print(d), [Comma, Str(step.key), Colon], AfterKey(more), CloseDict, after);
    }
  }

  // ---------------------------------------------------------------- what is rejected, and why

  // The error names a fault that the document has.
  predicate Blames(e: Error, tooDeep: bool, repeats: bool) {
    (e.RecursionLimitExceeded? && tooDeep) || (e.DuplicateKey? && repeats)
  }

  predicate ItemsRepeat(items: seq<Json>) {
    exists i :: 0 <= i < |items| && !Distinct(items[i])
  }

  // Partial mode included: neither error is one that it recovers from.
  lemma {:induction false} TakeRejected(d: Json, tail: seq<Token>, limit: nat, c: Config)
    requires !Fits(d, limit, c)
    ensures var r := TakeValue(Print(d) + tail, limit, c).result;
            r.Err? && Blames(r.error, Depth(d) > limit, c.catchDuplicates && !Distinct(d))
    decreases d
  {
    hide TakeItems, TakeEntries, PrintItems, AfterKey, ToPys, ToEntries, DistinctKeys;
    var ts := Print(d) + tail;
    NoElements(c, {}, []);
    match d
    case JList(items) =>
      assert ts[1..] == PrintItems(items) + [CloseList] + tail;
      assert items == [] ==> ItemsFit([], limit, c);
      ItemsRejected(items, tail, limit, c, []);
    case JDict(members) =>
      assert ts[1..] == PrintMembers(members) + [CloseDict] + tail;
      assert members == [] ==> MembersFit([], limit, c, {});
      assert ts[1..][2..] == AfterKey(members) + [CloseDict] + tail;
      EntriesRejected(members, tail, limit, c, {}, []);
    case _ =>
  }

  lemma {:induction false} ItemsRejected(items: seq<Json>, tail: seq<Token>, limit: nat, c: Config, acc: seq<PyValue>)
    requires items != [] && !ItemsFit(items, limit, c)
    ensures var p := TakeItems(PrintItems(items) + [CloseList] + tail, limit, c, acc);
            p.error.Some? && Blames(p.error.value, DepthOfItems(items) > limit, c.catchDuplicates && ItemsRepeat(items))
    decreases items
  {
    hide TakeValue, TakeEntries, Print, ToPy, Depth, Distinct, PrintItems, ToPys;
    var following := if |items| == 1 then [CloseList] + tail else [Comma] + (PrintItems(items[1..]) + [CloseList] + tail);
    var ts := PrintItems(items) + [CloseList] + tail;
    assert ts == Print(items[0]) + following by {
      if |items| == 1 {
        assert items == [items[0]];
        OneItem(items[0], limit, c);
      } else {
        MoreItems(items, limit, c);
      }
    }
    if limit > 0 {
      if Fits(items[0], limit - 1, c) {
        if |items| == 1 {
          assert items == [items[0]];
          OneItem(items[0], limit, c);
        } else {
          MoreItems(items, limit, c);
          TakePrinted(items[0], following, limit - 1, c);
          assert following[1..] == PrintItems(items[1..]) + [CloseList] + tail;
          ItemsRejected(items[1..], tail, limit, c, acc + [ToPy(items[0])]);
          assert forall i :: 0 <= i < |items| - 1 ==> items[1..][i] == items[i + 1];
        }
      } else {
        TakeRejected(items[0], following, limit - 1, c);
      }
    }
  }

  lemma {:induction false} EntriesRejected(ms: seq<Member>, tail: seq<Token>, limit: nat, c: Config,
                                           seen: set<string>, acc: seq<Entry>)
    requires ms != [] && !MembersFit(ms, limit, c, seen)
    ensures var p := TakeEntries(Key(ms[0].key), AfterKey(ms) + [CloseDict] + tail, limit, c, seen, acc);
            p.error.Some? && Blames(p.error.value, DepthOfMembers(ms) > limit, c.catchDuplicates && !KeysFit(ms, seen))
    decreases ms
  {
    hide TakeValue, TakeItems, Print, ToPy, Depth, Distinct, SetItem, AfterKey, ToEntries, DistinctKeys;
    var v := ms[0].value;
    var following := if |ms| == 1 then [CloseDict] + tail
                     else [Comma, Str(ms[1].key), Colon] + (AfterKey(ms[1..]) + [CloseDict] + tail);
    var ts := AfterKey(ms) + [CloseDict] + tail;
    assert ts == Print(v) + following by {
      if |ms| == 1 {
        assert ms == [ms[0]];
        OneMember(ms[0], limit, c, seen, acc);
      } else {
        MoreMembers(ms, limit, c, seen, acc);
      }
    }
    if limit > 0 && !(c.catchDuplicates && ms[0].key in seen) {
      if Fits(v, limit - 1, c) {
        if |ms| == 1 {
          assert ms == [ms[0]];
          OneMember(ms[0], limit, c, seen, acc);
        } else {
          MoreMembers(ms, limit, c, seen, acc);
          if KeysFit(ms, seen) { KeysOfRest(ms, seen); }
          TakePrinted(v, following, limit - 1, c);
          assert following[1..][2..] == AfterKey(ms[1..]) + [CloseDict] + tail;
          EntriesRejected(ms[1..], tail, limit, c, seen + {ms[0].key}, SetItem(acc, ms[0].key, ToPy(v)));
        }
      } else {
        TakeRejected(v, following, limit - 1, c);
      }
    }
  }

  lemma KeysOfRest(ms: seq<Member>, seen: set<string>)
    requires ms != [] && KeysFit(ms, seen)
    ensures KeysFit(ms[1..], seen + {ms[0].key})
  {
    hide Distinct;
    assert forall i :: 0 <= i < |ms| - 1 ==> ms[1..][i] == ms[i + 1];
  }

  // Outside partial mode: accepted with value v exactly when the input is a document that fits.
  lemma AcceptsExactly(ts: seq<Token>, limit: nat, c: Config, v: PyValue)
    requires !c.allowPartial
    ensures Parse(ts, limit, c) == Ok(v) <==> exists d :: ts == Print(d) && v == ToPy(d) && Fits(d, limit, c)
  {
    hide TakeValue, Print, ToPy, Fits;
    if Parse(ts, limit, c) == Ok(v) {
      var d := TakeSound(ts, limit, c);
      assert Print(d) + [] == Print(d);
    }
    if d :| ts == Print(d) && v == ToPy(d) && Fits(d, limit, c) {
      TakePrinted(d, [], limit, c);
      assert Print(d) + [] == Print(d);
    }
  }
}
