/**
  Partial mode on a document that ends too early.
*/
module JsonPartial {
  import opened JsonCursor
  import opened JsonDriver
  import opened JsonTheorems
  import opened Options

  // ---------------------------------------------------------------- what the first tokens hold

  // The document that is left of the first n tokens of d: the elements that have at least a first token,
  // the members whose value has one.
  function Kept(d: Json, n: nat): Json
    decreases d
  {
    if n >= |Print(d)| then d
    else
      match d
      case JList(items) => JList(KeptItems(items, Less(n, 1)))
      case JDict(members) => JDict(KeptMembers(members, Less(n, 1)))
      case _ => d
  }

  function KeptItems(items: seq<Json>, n: nat): seq<Json>
    decreases items
  {
    if n == 0 || items == [] then []
    else [Kept(items[0], n)] + KeptItems(items[1..], Less(n, |Print(items[0])| + 1))
  }

  function KeptMembers(ms: seq<Member>, n: nat): seq<Member>
    decreases ms
  {
    if n <= 2 || ms == [] then []
    else [Member(ms[0].key, Kept(ms[0].value, n - 2))] + KeptMembers(ms[1..], Less(n, |Print(ms[0].value)| + 3))
  }

  function Less(n: nat, m: nat): nat {
    if n < m then 0 else n - m
  }

  // ---------------------------------------------------------------- parsing a prefix

  // Any non-empty prefix of a document that fits is accepted and read to its end.
  lemma {:induction false} TakeKept(d: Json, n: nat, limit: nat, c: Config)
    requires c.allowPartial && Fits(d, limit, c) && 0 < n <= |Print(d)|
    ensures TakeValue(Print(d)[..n], limit, c) == Parsed(Ok(ToPy(Kept(d, n))), [])
    decreases d, 1
  {
    if n == |Print(d)| {
      hide TakeValue, Print, ToPy, Fits, Distinct;
      assert Print(d)[..n] == Print(d) + [];
      TakePrinted(d, [], limit, c);
    } else if d.JList? {
      ListKept(d.items, n, limit, c);
    } else if d.JDict? {
      DictKept(d.members, n, limit, c);
    }
  }

  lemma {:induction false} ListKept(items: seq<Json>, n: nat, limit: nat, c: Config)
    requires c.allowPartial && ItemsFit(items, limit, c) && 0 < n <= 1 + |PrintItems(items)|
    ensures TakeValue(Print(JList(items))[..n], limit, c)
            == Parsed(Ok(PyList(ToPys(KeptItems(items, n - 1)))), [])
    decreases items, 1
  {
    hide TakeItems, PrintItems, ToPys, ItemsFit, Distinct, Depth, Kept;
    var ts := Print(JList(items))[..n];
    NoElements(c, {}, []);
    if n == 1 {
      assert ts == [OpenList];
    } else {
      var rest := PrintItems(items)[..n - 1];
      assert ts == [OpenList] + rest;
      ItemsKept(items, n - 1, limit, c, []);
      assert [] + ToPys(KeptItems(items, n - 1)) == ToPys(KeptItems(items, n - 1));
    }
  }

  lemma {:induction false} DictKept(ms: seq<Member>, n: nat, limit: nat, c: Config)
    requires c.allowPartial && MembersFit(ms, limit, c, {}) && 0 < n <= 1 + |PrintMembers(ms)|
    ensures TakeValue(Print(JDict(ms))[..n], limit, c)
            == Parsed(Ok(PyDict(ToEntries(KeptMembers(ms, n - 1), []))), [])
    decreases ms, 1
  {
    hide TakeEntries, AfterKey, ToEntries, MembersFit, DistinctKeys, Distinct, Depth, Kept;
    var ts := Print(JDict(ms))[..n];
    NoElements(c, {}, []);
    if n == 1 {
      assert ts == [OpenDict];
      EntriesEnd(DictError(EofWhileParsingObject), [], limit, c, {}, []);
    } else if n == 2 {
      assert ts == [OpenDict, Str(ms[0].key)];
      EntriesEnd(DictError(EofWhileParsingObject), [], limit, c, {}, []);
    } else {
      var rest := AfterKey(ms)[..n - 3];
      assert ts == [OpenDict, Str(ms[0].key), Colon] + rest;
      EntriesKept(ms, n - 3, limit, c, {}, []);
    }
  }

  lemma {:induction false} ItemsKept(items: seq<Json>, n: nat, limit: nat, c: Config, acc: seq<PyValue>)
    requires items != [] && c.allowPartial && ItemsFit(items, limit, c) && 0 < n <= |PrintItems(items)|
    ensures var p := TakeItems(PrintItems(items)[..n], limit, c, acc);
            && p.error.Some? && AllowedIfPartial(p.error.value) && p.rest == []
            && p.items == acc + ToPys(KeptItems(items, n))
    decreases items, 0
  {
    hide TakeValue, TakeEntries, Print, ToPy, Depth, Distinct, Kept, PrintItems, ItemsFit, ToPys, KeptItems;
    var d, ts := items[0], PrintItems(items)[..n];
    var k := |Print(d)|;
    FirstItemKept(items, n);
    if |items| == 1 {
      assert items == [d];
      OneItem(d, limit, c);
    } else {
      MoreItems(items, limit, c);
    }
    if n <= k {
      assert ts == Print(d)[..n];
      TakeKept(d, n, limit - 1, c);
    } else {
      var more := PrintItems(items[1..]);
      var tail := ([Comma] + more)[..n - k];
      assert ts == Print(d) + tail;
      TakePrinted(d, tail, limit - 1, c);
      if n == k + 1 {
        assert tail == [Comma];
      } else {
        assert tail == [Comma] + more[..n - k - 1] && tail[1..] == more[..n - k - 1];
        ItemsKept(items[1..], n - k - 1, limit, c, acc + [ToPy(d)]);
        assert acc + ([ToPy(d)] + ToPys(KeptItems(items[1..], n - k - 1)))
               == (acc + [ToPy(d)]) + ToPys(KeptItems(items[1..], n - k - 1));
      }
    }
  }

  lemma FirstItemKept(items: seq<Json>, n: nat)
    requires items != [] && n > 0
    ensures var k := |Print(items[0])|;
            && (n >= k ==> Kept(items[0], n) == items[0])
            && ToPys(KeptItems(items, n))
               == [ToPy(Kept(items[0], n))] + if n <= k + 1 then [] else ToPys(KeptItems(items[1..], n - k - 1))
  {
    hide Print, ToPy;
    var kept := KeptItems(items, n);
    assert kept[0] == Kept(items[0], n) && kept[1..] == KeptItems(items[1..], Less(n, |Print(items[0])| + 1));
  }

  lemma {:induction false} EntriesKept(ms: seq<Member>, n: nat, limit: nat, c: Config, seen: set<string>, acc: seq<Entry>)
    requires ms != [] && c.allowPartial && MembersFit(ms, limit, c, seen) && n <= |AfterKey(ms)|
    ensures var p := TakeEntries(Key(ms[0].key), AfterKey(ms)[..n], limit, c, seen, acc);
            && p.error.Some? && AllowedIfPartial(p.error.value) && p.rest == []
            && p.entries == ToEntries(KeptMembers(ms, n + 2), acc)
    decreases ms, 0
  {
    hide TakeValue, TakeItems, Print, ToPy, Depth, Distinct, Kept, AfterKey, MembersFit, SetItem, ToEntries, KeptMembers;
    var d, key, ts := ms[0].value, ms[0].key, AfterKey(ms)[..n];
    var k := |Print(d)|;
    FirstMemberKept(ms, n, acc);
    if |ms| == 1 {
      assert ms == [ms[0]];
      OneMember(ms[0], limit, c, seen, acc);
    } else {
      MoreMembers(ms, limit, c, seen, acc);
    }
    if n > 0 {
      var acc' := SetItem(acc, key, ToPy(Kept(d, n)));
      if n <= k {
        assert ts == Print(d)[..n];
        TakeKept(d, n, limit - 1, c);
        EntriesEnd(DictError(EofWhileParsingObject), [], limit, c, seen + {key}, acc');
      } else {
        var key' := ms[1].key;
        var more := AfterKey(ms[1..]);
        var tail := ([Comma, Str(key'), Colon] + more)[..n - k];
        assert ts == Print(d) + tail;
        TakePrinted(d, tail, limit - 1, c);
        if n < k + 3 {
          assert tail == if n == k + 1 then [Comma] else [Comma, Str(key')];
          EntriesEnd(ObjectStep(tail).0, [], limit, c, seen + {key}, acc');
        } else {
          assert tail == [Comma, Str(key'), Colon] + more[..n - k - 3] && tail[1..][2..] == more[..n - k - 3];
          EntriesKept(ms[1..], n - k - 3, limit, c, seen + {key}, acc');
        }
      }
    }
  }

  lemma FirstMemberKept(ms: seq<Member>, n: nat, acc: seq<Entry>)
    requires ms != []
    ensures var k, v := |Print(ms[0].value)|, Kept(ms[0].value, n);
            && (n >= k ==> v == ms[0].value)
            && ToEntries(KeptMembers(ms, n + 2), acc)
               == if n == 0 then acc
                  else if n < k + 3 then SetItem(acc, ms[0].key, ToPy(v))
                  else ToEntries(KeptMembers(ms[1..], n - k - 1), SetItem(acc, ms[0].key, ToPy(v)))
  {
    hide Print, ToPy, SetItem;
    if n > 0 {
      var kept, rest := KeptMembers(ms, n + 2), KeptMembers(ms[1..], Less(n + 2, |Print(ms[0].value)| + 3));
      assert kept[0] == Member(ms[0].key, Kept(ms[0].value, n)) && kept[1..] == rest;
      assert ToEntries([], SetItem(acc, ms[0].key, ToPy(Kept(ms[0].value, n))))
             == SetItem(acc, ms[0].key, ToPy(Kept(ms[0].value, n)));
    }
  }

  // A document truncated at a token boundary is read as what its tokens hold; repeated keys or not.
  lemma PartialPrefix(d: Json, n: nat, limit: nat, c: Config)
    requires c.allowPartial && Fits(d, limit, c) && n <= |Print(d)|
    ensures Parse(Print(d)[..n], limit, c) == if n == 0 then Err(EofWhileParsingValue) else Ok(ToPy(Kept(d, n)))
  {
    hide TakeValue, Print, Distinct, Fits, Kept, ToPy;
    if n > 0 { TakeKept(d, n, limit, c); }
  }

  // ---------------------------------------------------------------- what is lost

  // a is b with the last element of its lists and dicts possibly cut short and later ones missing.
  predicate Cut(a: PyValue, b: PyValue)
    decreases a
  {
    match (a, b)
    case (PyList(xs), PyList(ys)) => CutItems(xs, ys)
    case (PyDict(xs), PyDict(ys)) => CutEntries(xs, ys)
    case _ => a == b
  }

  predicate CutItems(xs: seq<PyValue>, ys: seq<PyValue>)
    decreases xs
  {
    |xs| <= |ys| && forall i :: 0 <= i < |xs| ==> Cut(xs[i], ys[i]) && (i < |xs| - 1 ==> xs[i] == ys[i])
  }

  predicate CutEntries(xs: seq<Entry>, ys: seq<Entry>)
    decreases xs
  {
    |xs| <= |ys| && forall i :: 0 <= i < |xs| ==>
                      && xs[i].key == ys[i].key && Cut(xs[i].value, ys[i].value)
                      && (i < |xs| - 1 ==> xs[i] == ys[i])
  }

  lemma {:induction false} CutWhole(a: PyValue)
    ensures Cut(a, a)
    decreases a
  {
    match a
    case PyList(xs) => forall i | 0 <= i < |xs| ensures Cut(xs[i], xs[i]) { CutWhole(xs[i]); }
    case PyDict(xs) => forall i | 0 <= i < |xs| ensures Cut(xs[i].value, xs[i].value) { CutWhole(xs[i].value); }
    case _ =>
  }

  // The entries of a dict that repeats no key.
  function Entries(ms: seq<Member>): (es: seq<Entry>)
    ensures |es| == |ms| && forall i :: 0 <= i < |ms| ==> es[i] == Entry(ms[i].key, ToPy(ms[i].value))
  {
    seq(|ms|, i requires 0 <= i < |ms| => Entry(ms[i].key, ToPy(ms[i].value)))
  }

  predicate Absent(key: string, entries: seq<Entry>) {
    forall i :: 0 <= i < |entries| ==> entries[i].key != key
  }

  lemma {:induction false} SetAbsent(entries: seq<Entry>, key: string, v: PyValue)
    requires Absent(key, entries)
    ensures SetItem(entries, key, v) == entries + [Entry(key, v)]
    decreases |entries|
  {
    if entries != [] {
      SetAbsent(entries[1..], key, v);
      assert entries == [entries[0]] + entries[1..];
    }
  }

  predicate AllAbsent(ms: seq<Member>, entries: seq<Entry>) {
    DistinctKeys(ms) && forall i :: 0 <= i < |ms| ==> Absent(ms[i].key, entries)
  }

  lemma FirstAbsent(ms: seq<Member>, acc: seq<Entry>)
    requires ms != [] && AllAbsent(ms, acc)
    ensures Absent(ms[0].key, acc)
  {
  }

  lemma AbsentLater(ms: seq<Member>, v: PyValue, acc: seq<Entry>)
    requires ms != [] && AllAbsent(ms, acc)
    ensures AllAbsent(ms[1..], acc + [Entry(ms[0].key, v)])
  {
    assert forall i :: 0 <= i < |ms| - 1 ==> ms[1..][i] == ms[i + 1];
  }

  lemma {:induction false} DistinctEntries(ms: seq<Member>, acc: seq<Entry>)
    requires AllAbsent(ms, acc)
    ensures ToEntries(ms, acc) == acc + Entries(ms)
    decreases |ms|
  {
    hide ToPy, SetItem, Absent, AllAbsent, DistinctKeys, Entries;
    if ms == [] {
      assert Entries(ms) == [] && acc + [] == acc;
    } else {
      var e := Entry(ms[0].key, ToPy(ms[0].value));
      FirstAbsent(ms, acc);
      SetAbsent(acc, ms[0].key, e.value);
      AbsentLater(ms, e.value, acc);
      DistinctEntries(ms[1..], acc + [e]);
      assert Entries(ms) == [e] + Entries(ms[1..]);
      assert acc + ([e] + Entries(ms[1..])) == (acc + [e]) + Entries(ms[1..]);
    }
  }

  lemma CutFirstItem(v: PyValue, later: seq<PyValue>, items: seq<Json>)
    requires items != [] && Cut(v, ToPy(items[0]))
    requires later == [] || (v == ToPy(items[0]) && CutItems(later, ToPys(items[1..])))
    ensures CutItems([v] + later, ToPys(items))
  {
    hide Cut, ToPy;
    var xs, ys := [v] + later, ToPys(items);
    assert forall i :: 0 < i < |xs| ==> xs[i] == later[i - 1] && ys[i] == ToPys(items[1..])[i - 1];
  }

  lemma CutFirstEntry(v: PyValue, later: seq<Entry>, ms: seq<Member>)
    requires ms != [] && Cut(v, ToPy(ms[0].value))
    requires later == [] || (v == ToPy(ms[0].value) && CutEntries(later, Entries(ms[1..])))
    ensures CutEntries([Entry(ms[0].key, v)] + later, Entries(ms))
  {
    hide Cut, ToPy;
    var xs, ys := [Entry(ms[0].key, v)] + later, Entries(ms);
    assert forall i :: 0 < i < |xs| ==> xs[i] == later[i - 1] && ys[i] == Entries(ms[1..])[i - 1];
  }

  lemma {:induction false} KeptKeys(ms: seq<Member>, n: nat)
    ensures |KeptMembers(ms, n)| <= |ms|
    ensures forall i :: 0 <= i < |KeptMembers(ms, n)| ==> KeptMembers(ms, n)[i].key == ms[i].key
    decreases |ms|
  {
    hide Print, Kept;
    if n > 2 && ms != [] { KeptKeys(ms[1..], Less(n, |Print(ms[0].value)| + 3)); }
  }

  lemma KeptDistinct(ms: seq<Member>, n: nat)
    requires DistinctKeys(ms)
    ensures DistinctKeys(KeptMembers(ms, n))
  {
    hide KeptMembers;
    KeptKeys(ms, n);
  }

  // With distinct keys a truncated document loses only what comes later.
  lemma {:induction false} KeptIsCut(d: Json, n: nat)
    requires Distinct(d) && n > 0
    ensures Distinct(Kept(d, n)) && Cut(ToPy(Kept(d, n)), ToPy(d))
    decreases d, 1
  {
    hide Print, KeptItems, KeptMembers, ToEntries, ToPys, DistinctKeys, CutItems, CutEntries;
    if n >= |Print(d)| {
      CutWhole(ToPy(d));
    } else {
      match d
      case JList(items) => ItemsAreCut(items, n - 1);
      case JDict(ms) =>
        MembersAreCut(ms, n - 1);
        KeptDistinct(ms, n - 1);
        DistinctDict(ms);
        DistinctDict(KeptMembers(ms, n - 1));
      case _ =>
    }
  }

  lemma DistinctDict(ms: seq<Member>)
    requires DistinctKeys(ms)
    ensures ToEntries(ms, []) == Entries(ms)
  {
    hide ToEntries;
    DistinctEntries(ms, []);
    assert [] + Entries(ms) == Entries(ms);
  }

  lemma {:induction false} ItemsAreCut(items: seq<Json>, n: nat)
    requires forall i :: 0 <= i < |items| ==> Distinct(items[i])
    ensures forall i :: 0 <= i < |KeptItems(items, n)| ==> Distinct(KeptItems(items, n)[i])
    ensures CutItems(ToPys(KeptItems(items, n)), ToPys(items))
    decreases items, 0
  {
    if n > 0 && items != [] {
      hide Print, ToPy, Distinct, Cut, CutItems, ToPys, Kept, KeptItems;
      var m := Less(n, |Print(items[0])| + 1);
      var v, later := Kept(items[0], n), KeptItems(items[1..], m);
      KeptIsCut(items[0], n);
      ItemsAreCut(items[1..], m);
      ItemsSplit(items, n);
      CutFirstItem(ToPy(v), ToPys(later), items);
    }
  }

  lemma ItemsSplit(items: seq<Json>, n: nat)
    requires n > 0 && items != []
    ensures var v, later := Kept(items[0], n), KeptItems(items[1..], Less(n, |Print(items[0])| + 1));
            && KeptItems(items, n) == [v] + later && ToPys([v] + later) == [ToPy(v)] + ToPys(later)
            && (later == [] || v == items[0])
  {
    hide Print, ToPy;
    var v, later := Kept(items[0], n), KeptItems(items[1..], Less(n, |Print(items[0])| + 1));
    assert ([v] + later)[1..] == later;
  }

  lemma {:induction false} MembersAreCut(ms: seq<Member>, n: nat)
    requires forall i :: 0 <= i < |ms| ==> Distinct(ms[i].value)
    ensures forall i :: 0 <= i < |KeptMembers(ms, n)| ==> Distinct(KeptMembers(ms, n)[i].value)
    ensures CutEntries(Entries(KeptMembers(ms, n)), Entries(ms))
    decreases ms, 0
  {
    if n > 2 && ms != [] {
      hide Print, ToPy, Distinct, Cut, CutEntries, Kept, KeptMembers, Entries;
      var m := Less(n, |Print(ms[0].value)| + 3);
      var v, later := Kept(ms[0].value, n - 2), KeptMembers(ms[1..], m);
      KeptIsCut(ms[0].value, n - 2);
      MembersAreCut(ms[1..], m);
      MembersSplit(ms, n);
      CutFirstEntry(ToPy(v), Entries(later), ms);
    }
  }

  lemma MembersSplit(ms: seq<Member>, n: nat)
    requires n > 2 && ms != []
    ensures var v, later := Kept(ms[0].value, n - 2), KeptMembers(ms[1..], Less(n, |Print(ms[0].value)| + 3));
            && KeptMembers(ms, n) == [Member(ms[0].key, v)] + later
            && Entries([Member(ms[0].key, v)] + later) == [Entry(ms[0].key, ToPy(v))] + Entries(later)
            && (later == [] || v == ms[0].value)
  {
    hide Print, ToPy;
    var v, later := Kept(ms[0].value, n - 2), KeptMembers(ms[1..], Less(n, |Print(ms[0].value)| + 3));
    var all := [Member(ms[0].key, v)] + later;
    assert Entries(all) == [Entry(ms[0].key, ToPy(v))] + Entries(later);
  }

  function KeysIn(entries: seq<Entry>): set<string> {
    set i | 0 <= i < |entries| :: entries[i].key
  }

  lemma {:induction false} KeysOfEntries(ms: seq<Member>, acc: seq<Entry>)
    ensures KeysIn(ToEntries(ms, acc)) == KeysIn(acc) + set i | 0 <= i < |ms| :: ms[i].key
    decreases |ms|
  {
    hide ToPy, KeysIn;
    if ms != [] {
      KeysOfSet(acc, ms[0].key, ToPy(ms[0].value));
      KeysOfEntries(ms[1..], SetItem(acc, ms[0].key, ToPy(ms[0].value)));
      assert forall i :: 0 < i < |ms| ==> ms[i] == ms[1..][i - 1];
    }
  }

  lemma {:induction false} KeysOfSet(entries: seq<Entry>, key: string, v: PyValue)
    ensures KeysIn(SetItem(entries, key, v)) == KeysIn(entries) + {key}
    decreases |entries|
  {
    KeysSplit(SetItem(entries, key, v));
    if entries != [] {
      KeysSplit(entries);
      KeysOfSet(entries[1..], key, v);
    }
  }

  lemma KeysSplit(entries: seq<Entry>)
    requires entries != []
    ensures KeysIn(entries) == {entries[0].key} + KeysIn(entries[1..])
  {
    assert forall i :: 0 < i < |entries| ==> entries[i] == entries[1..][i - 1];
  }

  // Repeated keys or not, the dict read from a truncated document has only keys that the whole has.
  lemma KeysSurvive(ms: seq<Member>, n: nat)
    ensures KeysIn(ToEntries(KeptMembers(ms, n), [])) <= KeysIn(ToEntries(ms, []))
  {
    hide ToEntries, KeptMembers;
    KeysOfEntries(ms, []);
    KeysOfEntries(KeptMembers(ms, n), []);
    KeptKeys(ms, n);
    var kept := KeptMembers(ms, n);
    assert forall i :: 0 <= i < |kept| ==> kept[i].key == ms[i].key;
  }

  // What follows a document: partial mode ignores it, and otherwise it is an error.
  lemma ParseTail(d: Json, tail: seq<Token>, limit: nat, c: Config)
    requires Fits(d, limit, c)
    ensures Parse(Print(d) + tail, limit, c)
            == if c.allowPartial || tail == [] then Ok(ToPy(d)) else Err(TrailingCharacters)
  {
    hide TakeValue, Print, ToPy, Fits;
    TakePrinted(d, tail, limit, c);
  }

  // Partial mode changes nothing about input that is complete.
  lemma PartialAgrees(ts: seq<Token>, limit: nat, c: Config)
    requires !c.allowPartial && Parse(ts, limit, c).Ok?
    ensures Parse(ts, limit, c.(allowPartial := true)) == Parse(ts, limit, c)
  {
    hide TakeValue, Print, ToPy;
    var v := Parse(ts, limit, c).value;
    AcceptsExactly(ts, limit, c, v);
    var d :| ts == Print(d) && v == ToPy(d) && Fits(d, limit, c);
    var c' := c.(allowPartial := true);
    assert Fits(d, limit, c');
    TakePrinted(d, [], limit, c');
    assert Print(d) + [] == Print(d);
  }

  // ---------------------------------------------------------------- malformed input

  function Strict(c: Config): Config {
    c.(allowPartial := false)
  }

  // An error that partial mode does not recover from, or none.
  predicate Lasts(e: Option<Error>) {
    e.None? || !AllowedIfPartial(e.value)
  }

  function ErrorOf(r: Result<PyValue>): Option<Error> {
    match r
    case Ok(_) => None
    case Err(e) => Some(e)
  }

  // Up to the first error the two modes agree, and partial mode passes on every error but those of input that
  // ends or breaks off behind an element.
  lemma {:induction false} TakeFollowsStrict(ts: seq<Token>, limit: nat, c: Config)
    requires c.allowPartial && ts != []
    ensures var strict, p := TakeValue(ts, limit, Strict(c)), TakeValue(ts, limit, c);
            Lasts(ErrorOf(p.result)) && (Lasts(ErrorOf(strict.result)) ==> p == strict)
    decreases |ts|, 0
  {
    match ts[0]
    case OpenList =>
      hide TakeItems;
      var (step, rest) := ArrayFirst(ts);
      if step.Element? { ItemsFollowStrict(rest, limit, c, []); }
    case OpenDict =>
      hide TakeEntries;
      var (step, rest) := ObjectFirst(ts);
      EntriesFollowStrict(step, rest, limit, c, {}, []);
    case _ =>
  }

  lemma {:induction false} CheckFollowsStrict(ts: seq<Token>, limit: nat, c: Config)
    requires c.allowPartial && ts != []
    ensures var strict, p := CheckTakeValue(ts, limit, Strict(c)), CheckTakeValue(ts, limit, c);
            Lasts(ErrorOf(p.result)) && (Lasts(ErrorOf(strict.result)) ==> p == strict)
    decreases |ts|, 1
  {
    hide TakeValue;
    if limit > 0 { TakeFollowsStrict(ts, limit - 1, c); }
  }

  lemma {:induction false} ItemsFollowStrict(ts: seq<Token>, limit: nat, c: Config, items: seq<PyValue>)
    requires c.allowPartial && ts != []
    ensures var strict, p := TakeItems(ts, limit, Strict(c), items), TakeItems(ts, limit, c, items);
            Lasts(strict.error) ==> p == strict
    decreases |ts|, 2
  {
    hide CheckTakeValue, TakeValue;
    CheckFollowsStrict(ts, limit, c);
    var p := CheckTakeValue(ts, limit, c);
    if p.result.Ok? {
      var (step, rest) := ArrayStep(p.rest);
      if step.Element? { ItemsFollowStrict(rest, limit, c, items + [p.result.value]); }
    }
  }

  lemma {:induction false} EntriesFollowStrict(step: DictStep, ts: seq<Token>, limit: nat, c: Config, seen: set<string>,
                                               entries: seq<Entry>)
    requires c.allowPartial
    ensures var strict, p := TakeEntries(step, ts, limit, Strict(c), seen, entries), TakeEntries(step, ts, limit, c, seen, entries);
            Lasts(strict.error) ==> p == strict
    decreases |ts|, 2
  {
    hide CheckTakeValue, TakeValue, SetItem;
    if step.Key? && ts != [] && !(c.catchDuplicates && step.key in seen) {
      CheckFollowsStrict(ts, limit, c);
      var p := CheckTakeValue(ts, limit, c);
      if p.result.Ok? {
        var (next, rest) := ObjectStep(p.rest);
        EntriesFollowStrict(next, rest, limit, c, seen + {step.key}, SetItem(entries, step.key, p.result.value));
      }
    }
  }

  // Input that is malformed otherwise fails in both modes alike.
  lemma MalformedFailsAlike(ts: seq<Token>, limit: nat, c: Config)
    requires c.allowPartial && ts != []
    requires var r := TakeValue(ts, limit, Strict(c)).result; r.Err? && !AllowedIfPartial(r.error)
    ensures Parse(ts, limit, c) == Parse(ts, limit, Strict(c)) == TakeValue(ts, limit, Strict(c)).result
  {
    hide TakeValue;
    TakeFollowsStrict(ts, limit, c);
  }

  lemma ListOfItems(ts: seq<Token>, rest: seq<Token>, limit: nat, c: Config)
    requires ts != [] && ts[0].OpenList? && ArrayFirst(ts) == (Element, rest)
    ensures var p := TakeItems(rest, limit, c, []);
            TakeValue(ts, limit, c)
            == Parsed(if Recovers(c, p.error) then Ok(PyList(p.items)) else Err(p.error.value), p.rest)
  {
    hide TakeItems;
  }

  // A list of one element, with anything behind the element that is no element and no end.
  lemma OneElementThen(d: Json, behind: seq<Token>, limit: nat, c: Config)
    requires limit > 0 && Fits(d, limit - 1, c) && ArrayStep(behind).0.ListError?
    ensures var e := ArrayStep(behind).0.error;
            TakeValue([OpenList] + Print(d) + behind, limit, c)
            == Parsed(if Recovers(c, Some(e)) then Ok(PyList([ToPy(d)])) else Err(e), ArrayStep(behind).1)
  {
    hide TakeValue, Print, ToPy, Fits, ArrayStep;
    var rest := Print(d) + behind;
    var ts := [OpenList] + rest;
    assert [OpenList] + Print(d) + behind == ts;
    TakePrinted(d, behind, limit - 1, c);
    assert [] + [ToPy(d)] == [ToPy(d)];
    assert ArrayFirst(ts) == (Element, rest);
    ListOfItems(ts, rest, limit, c);
  }

  // A comma before the closing bracket is an error in both modes.
  lemma TrailingCommaIsRejected(d: Json, tail: seq<Token>, limit: nat, c: Config)
    requires limit > 0 && Fits(d, limit - 1, c)
    ensures Parse([OpenList] + Print(d) + ([Comma, CloseList] + tail), limit, c) == Err(TrailingComma)
  {
    hide TakeValue, Print, ToPy, Fits;
    OneElementThen(d, [Comma, CloseList] + tail, limit, c);
  }

  // Where a list breaks off, partial mode takes it for closed; otherwise that is an error.
  lemma ListBreaksOff(d: Json, tail: seq<Token>, limit: nat, c: Config)
    requires limit > 0 && Fits(d, limit - 1, c)
    requires tail != [] && !tail[0].Comma? && !tail[0].CloseList?
    ensures Parse([OpenList] + Print(d) + tail, limit, c)
            == if c.allowPartial then Ok(PyList([ToPy(d)])) else Err(ExpectedListCommaOrEnd)
  {
    hide TakeValue, Print, ToPy, Fits;
    OneElementThen(d, tail, limit, c);
  }

  lemma DictOfEntries(key: string, rest: seq<Token>, limit: nat, c: Config)
    ensures var p := TakeEntries(Key(key), rest, limit, c, {}, []);
            TakeValue([OpenDict, Str(key), Colon] + rest, limit, c)
            == Parsed(if Recovers(c, p.error) then Ok(PyDict(p.entries)) else Err(p.error.value), p.rest)
  {
    hide TakeEntries;
    var ts := [OpenDict, Str(key), Colon] + rest;
    assert ts[1..][2..] == rest;
    assert ObjectFirst(ts) == (Key(key), rest);
  }

  lemma DictBreaksOff(key: string, d: Json, tail: seq<Token>, limit: nat, c: Config)
    requires limit > 0 && Fits(d, limit - 1, c)
    requires tail != [] && !tail[0].Comma? && !tail[0].CloseDict?
    ensures Parse([OpenDict, Str(key), Colon] + Print(d) + tail, limit, c)
            == if c.allowPartial then Ok(PyDict([Entry(key, ToPy(d))])) else Err(ExpectedObjectCommaOrEnd)
  {
    hide TakeValue, Print, ToPy, Fits;
    var rest := Print(d) + tail;
    assert [OpenDict, Str(key), Colon] + Print(d) + tail == [OpenDict, Str(key), Colon] + rest;
    TakePrinted(d, tail, limit - 1, c);
    EntriesEnd(DictError(ExpectedObjectCommaOrEnd), tail, limit, c, {} + {key}, [Entry(key, ToPy(d))]);
    assert SetItem([], key, ToPy(d)) == [Entry(key, ToPy(d))];
    DictOfEntries(key, rest, limit, c);
  }

  // So brackets need not match in partial mode: {"k": [1} is read as {"k": [1]}.
  lemma BracketsNeedNotMatch(k: string, c: Config)
    requires c.allowPartial
    ensures Parse([OpenDict, Str(k), Colon, OpenList, Num(1), CloseDict], 2, c)
            == Ok(PyDict([Entry(k, PyList([PyNum(1)]))]))
  {
    var list, v := [OpenList, Num(1), CloseDict], PyList([PyNum(1)]);
    OneElementThen(JNum(1), [CloseDict], 1, c);
    assert [OpenList] + Print(JNum(1)) + [CloseDict] == list;
    assert CheckTakeValue(list, 2, c) == Parsed(Ok(v), [CloseDict]);
    assert ObjectStep([CloseDict]) == (DictEnd, []) && SetItem([], k, v) == [Entry(k, v)];
    EntriesEnd(DictEnd, [], 2, c, {} + {k}, [Entry(k, v)]);
    assert TakeEntries(Key(k), list, 2, c, {}, []) == ParsedEntries([Entry(k, v)], None, []);
    DictOfEntries(k, list, 2, c);
    assert [OpenDict, Str(k), Colon] + list == [OpenDict, Str(k), Colon, OpenList, Num(1), CloseDict];
  }

  // ---------------------------------------------------------------- repeated keys

  // Distinct keys matter: {"k": 1, "k": 2} cut after its first value gives an entry that the whole overwrites.
  lemma RepeatedKeyIsOverwritten(k: string, c: Config)
    requires c.allowPartial && !c.catchDuplicates
    ensures var d := JDict([Member(k, JNum(1)), Member(k, JNum(2))]);
            |Print(d)| > 4 &&
            var r := Parse(Print(d)[..4], 1, c);
            Fits(d, 1, c) && r == Ok(PyDict([Entry(k, PyNum(1))])) && !Cut(r.value, ToPy(d))
  {
    var first, second := Member(k, JNum(1)), Member(k, JNum(2));
    var ms := [first, second];
    var d := JDict(ms);
    assert ms[1..] == [second];
    MoreMembers(ms, 1, c, {}, []);
    OneMember(second, 1, c, {k}, [Entry(k, PyNum(1))]);
    var ts := [OpenDict, Str(k), Colon, Num(1)];
    assert Print(d) == [OpenDict] + ([Str(k), Colon] + AfterKey(ms)) + [CloseDict];
    assert Print(d) == ts + [Comma, Str(k), Colon, Num(2), CloseDict];
    assert Print(d)[..4] == ts && ts[1..][2..] == [Num(1)];
    assert CheckTakeValue([Num(1)], 1, c) == Parsed(Ok(PyNum(1)), []);
    assert {} + {k} == {k} && SetItem([], k, PyNum(1)) == [Entry(k, PyNum(1))];
    EntriesEnd(DictError(EofWhileParsingObject), [], 1, c, {k}, [Entry(k, PyNum(1))]);
    assert ObjectFirst(ts) == (Key(k), [Num(1)]);
    assert TakeEntries(Key(k), [Num(1)], 1, c, {}, [])
           == ParsedEntries([Entry(k, PyNum(1))], Some(EofWhileParsingObject), []);
    assert !Cut(PyNum(1), PyNum(2));
  }
}
