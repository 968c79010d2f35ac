/**
  The string cache of the JSON parser: a fixed table in which a string may sit in one of five
  consecutive slots from its home slot on. The window does not wrap around the end of the table.
*/
module StringCache {
  newtype byte = x: int | 0 <= x < 256
  type u64 = x: nat | x < 0x1_0000_0000_0000_0000

  // UTF-8 text
  type Str = seq<byte>

  const CAPACITY: nat := 16384
  const WINDOW: nat := 5

  datatype Entry = Vacant | Occupied(hash: u64, str: Str)

  function Home(h: u64): nat {
    h % CAPACITY
  }

  // ---------------------------------------------------------------- one probe

  datatype Probed = Hit(i: nat) | Free(i: nat) | Full

  // Looks at up to n slots from i on: the string, a vacant slot, or neither.
  function Probe(table: seq<Entry>, h: u64, s: Str, i: nat, n: nat): Probed
    decreases n
  {
    if n == 0 || i >= |table| then Full
    else if table[i].Vacant? then Free(i)
    else if table[i] == Occupied(h, s) then Hit(i)
    else Probe(table, h, s, i + 1, n - 1)
  }

  function Lookup(table: seq<Entry>, h: u64, s: Str): Probed {
    Probe(table, h, s, Home(h), WINDOW)
  }

  // The table after a call on s.
  function After(table: seq<Entry>, h: u64, s: Str): seq<Entry>
    requires |table| == CAPACITY
  {
    match Lookup(table, h, s)
    case Hit(_) => table
    case Free(i) => if i < |table| then table[i := Occupied(h, s)] else table
    case Full => table[Home(h) := Occupied(h, s)]
  }

  // ---------------------------------------------------------------- the table

  // A string sits with its own hash in its window, with no vacant slot between its home and it.
  predicate Reaches(table: seq<Entry>, hash: Str -> u64, i: nat)
    requires i < |table| && table[i].Occupied?
  {
    var home := Home(table[i].hash);
    && table[i].hash == hash(table[i].str)
    && home <= i < home + WINDOW
    && forall j :: home <= j <= i ==> table[j].Occupied?
  }

  predicate TableOk(table: seq<Entry>, hash: Str -> u64) {
    && |table| == CAPACITY
    && (forall i :: 0 <= i < |table| && table[i].Occupied? ==> Reaches(table, hash, i))
    && forall i, j :: 0 <= i < j < |table| && table[i].Occupied? && table[j].Occupied? ==>
         table[i].str != table[j].str
  }

  function Cached(table: seq<Entry>): set<Str> {
    set i | 0 <= i < |table| && table[i].Occupied? :: table[i].str
  }

  // Is no slot of the window of h vacant?
  predicate WindowFull(table: seq<Entry>, h: u64) {
    forall i :: Home(h) <= i < Home(h) + WINDOW && i < |table| ==> table[i].Occupied?
  }

  lemma {:induction false} ProbeFinds(table: seq<Entry>, h: u64, s: Str, i: nat, n: nat)
    ensures match Probe(table, h, s, i, n)
            case Hit(k) => i <= k < i + n && k < |table| && table[k] == Occupied(h, s)
                           && forall j :: i <= j < k ==> table[j].Occupied?
            case Free(k) => i <= k < i + n && k < |table| && table[k].Vacant?
                            && forall j :: i <= j < k ==> table[j].Occupied? && table[j] != Occupied(h, s)
            case Full => forall j :: i <= j < i + n && j < |table| ==>
                           table[j].Occupied? && table[j] != Occupied(h, s)
    decreases n
  {
    if n > 0 && i < |table| && table[i].Occupied? && table[i] != Occupied(h, s) {
      ProbeFinds(table, h, s, i + 1, n - 1);
    }
  }

  // A lookup hits a string in one of the five slots from its home slot on, and in no slot behind them or behind
  // a vacant one.
  lemma LooksAtFiveSlots(table: seq<Entry>, h: u64, s: Str)
    requires |table| == 16384
    ensures Lookup(table, h, s).Hit? <==>
            exists i :: h % 16384 <= i < h % 16384 + 5 && i < 16384 && table[i] == Occupied(h, s)
                        && forall j :: h % 16384 <= j < i ==> table[j].Occupied?
  {
    ProbeFinds(table, h, s, Home(h), WINDOW);
  }

  // Stopping at the first vacant slot is sound: a probe hits exactly the cached strings.
  lemma HitIffCached(table: seq<Entry>, hash: Str -> u64, s: Str)
    requires TableOk(table, hash)
    ensures Lookup(table, hash(s), s).Hit? <==> s in Cached(table)
  {
    var h := hash(s);
    ProbeFinds(table, h, s, Home(h), WINDOW);
    if s in Cached(table) {
      var k :| 0 <= k < |table| && table[k].Occupied? && table[k].str == s;
      assert Reaches(table, hash, k);
      assert table[k] == Occupied(h, s);
    }
  }

  // A call keeps the table in order; it hits exactly on a cached string and then changes nothing; a miss
  // adds the string, and drops one only if the window is full: the one in the home slot.
  lemma AfterSpec(table: seq<Entry>, hash: Str -> u64, s: Str)
    requires TableOk(table, hash)
    ensures var h := hash(s);
            var table' := After(table, h, s);
            && TableOk(table', hash)
            && (s in Cached(table) ==> table' == table)
            && (s !in Cached(table) && !WindowFull(table, h) ==>
                  Cached(table') == Cached(table) + {s} && Usage(table') == Usage(table) + 1)
            && (s !in Cached(table) && WindowFull(table, h) ==>
                  table[Home(h)].Occupied? && table[Home(h)].str != s
                  && Cached(table') == Cached(table) - {table[Home(h)].str} + {s}
                  && Usage(table') == Usage(table))
  {
    var h := hash(s);
    HitIffCached(table, hash, s);
    ProbeFinds(table, h, s, Home(h), WINDOW);
    match Lookup(table, h, s)
    case Hit(_) =>
    case Free(k) => PutSpec(table, hash, s, k);
    case Full => PutSpec(table, hash, s, Home(h));
  }

  // Writing an uncached string into its window, over a vacant slot or over another string.
  lemma PutSpec(table: seq<Entry>, hash: Str -> u64, s: Str, k: nat)
    requires TableOk(table, hash) && s !in Cached(table)
    requires Home(hash(s)) <= k < Home(hash(s)) + WINDOW && k < |table|
    requires forall j :: Home(hash(s)) <= j < k ==> table[j].Occupied?
    ensures var table' := table[k := Occupied(hash(s), s)];
            && TableOk(table', hash)
            && Cached(table') == Cached(table) - (if table[k].Occupied? then {table[k].str} else {}) + {s}
            && Usage(table') == Usage(table) + if table[k].Occupied? then 0 else 1
  {
    PutOk(table, hash, s, k);
    PutCached(table, hash, s, k);
    UsageUpdate(table, k, Occupied(hash(s), s));
  }

  lemma PutOk(table: seq<Entry>, hash: Str -> u64, s: Str, k: nat)
    requires TableOk(table, hash) && s !in Cached(table)
    requires Home(hash(s)) <= k < Home(hash(s)) + WINDOW && k < |table|
    requires forall j :: Home(hash(s)) <= j < k ==> table[j].Occupied?
    ensures TableOk(table[k := Occupied(hash(s), s)], hash)
  {
    var table' := table[k := Occupied(hash(s), s)];
    assert forall i :: 0 <= i < |table| && table[i].Occupied? ==> table[i].str in Cached(table);
    forall i | 0 <= i < |table'| && table'[i].Occupied?
      ensures Reaches(table', hash, i)
    {
      if i != k { assert Reaches(table, hash, i); }
    }
  }

  lemma PutCached(table: seq<Entry>, hash: Str -> u64, s: Str, k: nat)
    requires TableOk(table, hash) && s !in Cached(table) && k < |table|
    ensures Cached(table[k := Occupied(hash(s), s)])
            == Cached(table) - (if table[k].Occupied? then {table[k].str} else {}) + {s}
  {
    var table' := table[k := Occupied(hash(s), s)];
    assert table'[k].str == s;
    forall x | x in Cached(table) && !(table[k].Occupied? && table[k].str == x) ensures x in Cached(table') {
      var i :| 0 <= i < |table| && table[i].Occupied? && table[i].str == x;
      assert table'[i] == table[i];
    }
    forall x | x in Cached(table') && x != s
      ensures x in Cached(table) && !(table[k].Occupied? && table[k].str == x)
    {
      var i :| 0 <= i < |table'| && table'[i].Occupied? && table'[i].str == x;
      assert table[i] == table'[i];
    }
  }

  // ---------------------------------------------------------------- usage

  function Usage(table: seq<Entry>): nat {
    if table == [] then 0
    else Usage(table[..|table| - 1]) + if table[|table| - 1].Occupied? then 1 else 0
  }

  lemma {:induction false} UsageUpdate(table: seq<Entry>, k: nat, e: Entry)
    requires k < |table|
    ensures Usage(table[k := e]) + (if table[k].Occupied? then 1 else 0)
            == Usage(table) + if e.Occupied? then 1 else 0
  {
    var n := |table| - 1;
    if k == n {
      assert table[k := e][..n] == table[..n];
    } else {
      assert table[k := e][..n] == table[..n][k := e];
      UsageUpdate(table[..n], k, e);
    }
  }

  // As no string is cached twice, the number of occupied slots is the number of cached strings.
  lemma {:induction false} UsageCounts(table: seq<Entry>)
    requires forall i, j :: 0 <= i < j < |table| && table[i].Occupied? && table[j].Occupied? ==>
               table[i].str != table[j].str
    ensures Usage(table) == |Cached(table)|
  {
    if table == [] {
      assert Cached(table) == {};
    } else {
      var n := |table| - 1;
      var front := table[..n];
      UsageCounts(front);
      if table[n].Occupied? {
        assert table[n].str !in Cached(front);
        assert Cached(table) == Cached(front) + {table[n].str} by { CachedLast(table); }
      } else {
        assert Cached(table) == Cached(front) by { CachedLast(table); }
      }
    }
  }

  lemma CachedLast(table: seq<Entry>)
    requires table != []
    ensures var n := |table| - 1;
            Cached(table) == Cached(table[..n]) + if table[n].Occupied? then {table[n].str} else {}
  {
    var n := |table| - 1;
    forall x | x in Cached(table)
      ensures x in Cached(table[..n]) || (table[n].Occupied? && x == table[n].str)
    {
      var i :| 0 <= i < |table| && table[i].Occupied? && table[i].str == x;
      if i < n { assert table[..n][i] == table[i]; }
    }
    forall x | x in Cached(table[..n]) ensures x in Cached(table) {
      var i :| 0 <= i < n && table[..n][i].Occupied? && table[..n][i].str == x;
      assert table[i].str == x;
    }
    if table[n].Occupied? { assert table[n].str in Cached(table); }
  }

  // ---------------------------------------------------------------- the cache

  // What happened to the cached strings, oldest first.
  datatype Event = Inserted(s: Str) | Evicted(s: Str) | Cleared

  // Inserted, and since then neither evicted nor cleared away.
  ghost predicate Present(log: seq<Event>, s: Str) {
    exists i :: 0 <= i < |log| && log[i] == Inserted(s)
                && forall j :: i < j < |log| ==> log[j] != Evicted(s) && log[j] != Cleared
  }

  lemma PresentAfter(log: seq<Event>, e: Event, s: Str)
    ensures Present(log + [e], s)
            <==> e == Inserted(s) || (Present(log, s) && e != Evicted(s) && e != Cleared)
  {
    var log' := log + [e];
    if Present(log', s) {
      var i :| 0 <= i < |log'| && log'[i] == Inserted(s)
               && forall j :: i < j < |log'| ==> log'[j] != Evicted(s) && log'[j] != Cleared;
      if i < |log| {
        assert log[i] == log'[i] && log'[|log|] == e;
        assert forall j :: i < j < |log| ==> log[j] == log'[j];
      }
    }
    if e == Inserted(s) { assert log'[|log|] == e; }
    if Present(log, s) && e != Evicted(s) && e != Cleared {
      var i :| 0 <= i < |log| && log[i] == Inserted(s)
               && forall j :: i < j < |log| ==> log[j] != Evicted(s) && log[j] != Cleared;
      assert log'[i] == Inserted(s);
    }
  }

  lemma ProbeStep(table: seq<Entry>, h: u64, s: Str, i: nat, n: nat)
    requires n > 0
    ensures Probe(table, h, s, i, n)
            == if i >= |table| then Full
               else if table[i].Vacant? then Free(i)
               else if table[i] == Occupied(h, s) then Hit(i)
               else Probe(table, h, s, i + 1, n - 1)
  {
  }

  lemma ProbeEnd(table: seq<Entry>, h: u64, s: Str, i: nat)
    ensures Probe(table, h, s, i, 0) == Full
  {
  }

  lemma AfterCases(table: seq<Entry>, h: u64, s: Str)
    requires |table| == CAPACITY
    ensures After(table, h, s)
            == match Lookup(table, h, s)
               case Hit(_) => table
               case Free(i) => if i < |table| then table[i := Occupied(h, s)] else table
               case Full => table[Home(h) := Occupied(h, s)]
  {
  }

  class PyStringCache {
    const entries: array<Entry>
    const hash: Str -> u64
    ghost var log: seq<Event>

    // The table is in order, and the cached strings are those that the log says are present.
    ghost predicate Valid()
      reads this, entries
    {
      && TableOk(entries[..], hash)
      && forall s :: s in Cached(entries[..]) <==> Present(log, s)
    }

    constructor (hash: Str -> u64)
      ensures Valid() && fresh(entries) && this.hash == hash && log == []
      ensures Cached(entries[..]) == {}
    {
      this.hash := hash;
      entries := new Entry[CAPACITY](_ => Vacant);
      log := [];
    }

    method GetOrInsert(s: Str) returns (out: Str)
      requires Valid()
      modifies this`log, entries
      ensures Valid() && out == s
      ensures entries[..] == After(old(entries[..]), hash(s), s)
      ensures var full := WindowFull(old(entries[..]), hash(s));
              var evicted := old(entries[..])[Home(hash(s))];
              log == old(log) +
                if Present(old(log), s) then []
                else if full && evicted.Occupied? then [Evicted(evicted.str), Inserted(s)]
                else [Inserted(s)]
    {
      var h := hash(s);
      var home := h % CAPACITY;
      ghost var table := entries[..];
      assert entries.Length == CAPACITY && home == Home(h) < CAPACITY;
      hide TableOk, Cached, WindowFull, Present, Probe, After, Home, Lookup;
      AfterSpec(table, hash, s);
      HitIffCached(table, hash, s);
      ProbeFinds(table, h, s, home, WINDOW);
      AfterCases(table, h, s);
      for index := home to home + WINDOW
        invariant entries[..] == table && log == old(log)
        invariant index <= entries.Length
        invariant Lookup(table, h, s) == Probe(table, h, s, index, home + WINDOW - index)
      {
        ProbeStep(table, h, s, index, home + WINDOW - index);
        if index >= entries.Length {
          break;
        }
        match entries[index]
        case Occupied(eh, es) =>
          if eh == h && es == s {
            return es;
          }
        case Vacant =>
          Store(table, index, s);
          return s;
      }
      ProbeEnd(table, h, s, home + WINDOW);
      Store(table, home, s);
      return s;
    }

    // Puts s into a slot after a miss.
    method Store(ghost table: seq<Entry>, index: nat, s: Str)
      requires entries[..] == table && index < entries.Length && TableOk(table, hash) && s !in Cached(table)
      requires table[index := Occupied(hash(s), s)] == After(table, hash(s), s)
      requires forall x :: x in Cached(table) <==> Present(log, x)
      modifies this`log, entries
      ensures Valid() && entries[..] == After(table, hash(s), s)
      ensures var full := WindowFull(table, hash(s));
              var evicted := table[Home(hash(s))];
              log == old(log) + if full && evicted.Occupied? then [Evicted(evicted.str), Inserted(s)] else [Inserted(s)]
    {
      hide TableOk, Cached, WindowFull, Present, After, Home;
      entries[index] := Occupied(hash(s), s);
      assert entries[..] == table[index := Occupied(hash(s), s)];
      Log(table, s);
    }

    // Keeps the log in step with a miss on s.
    ghost method Log(table: seq<Entry>, s: Str)
      requires TableOk(table, hash) && s !in Cached(table)
      requires entries[..] == After(table, hash(s), s)
      requires forall x :: x in Cached(table) <==> Present(log, x)
      modifies this`log
      ensures Valid()
      ensures var full := WindowFull(table, hash(s));
              var evicted := table[Home(hash(s))];
              log == old(log) + if full && evicted.Occupied? then [Evicted(evicted.str), Inserted(s)] else [Inserted(s)]
    {
      AfterSpec(table, hash, s);
      var log1 := if WindowFull(table, hash(s)) then log + [Evicted(table[Home(hash(s))].str)] else log;
      forall x ensures Present(log1, x) <==> Present(log, x) && !(WindowFull(table, hash(s)) && x == table[Home(hash(s))].str) {
        if WindowFull(table, hash(s)) { PresentAfter(log, Evicted(table[Home(hash(s))].str), x); }
      }
      forall x ensures Present(log1 + [Inserted(s)], x) <==> x == s || Present(log1, x) {
        PresentAfter(log1, Inserted(s), x);
      }
      log := log1 + [Inserted(s)];
    }

    method GetUsage() returns (n: nat)
      requires Valid()
      ensures n == |Cached(entries[..])|
    {
      n := 0;
      for i := 0 to entries.Length
        invariant n == Usage(entries[..i])
      {
        assert entries[..i + 1][..i] == entries[..i];
        if entries[i].Occupied? {
          n := n + 1;
        }
      }
      assert entries[..entries.Length] == entries[..];
      UsageCounts(entries[..]);
    }

    method Clear()
      requires |entries[..]| == CAPACITY
      modifies this`log, entries
      ensures Valid() && Cached(entries[..]) == {} && log == old(log) + [Cleared]
    {
      forall i | 0 <= i < entries.Length {
        entries[i] := Vacant;
      }
      log := log + [Cleared];
      forall s ensures !Present(log, s) { PresentAfter(old(log), Cleared, s); }
    }
  }

  // ---------------------------------------------------------------- not least recently used

  // A hit leaves no trace, so the string used last can be the one that the next miss evicts: the one in
  // the home slot goes, however recently it was used.
  lemma EvictsMostRecentlyUsed()
    ensures exists table, hash, last, s ::
              && TableOk(table, hash) && last in Cached(table)
              && var used := After(table, hash(last), last);
                 used == table && last !in Cached(After(used, hash(s), s))
  {
    var hash: Str -> u64 := _ => 0;
    var table := seq(CAPACITY, i => if 0 <= i < 5 then Occupied(0, [i as byte]) else Vacant);
    var last, s: Str := [0], [5];
    forall i | 0 <= i < |table| && table[i].Occupied? ensures Reaches(table, hash, i) && table[i].str != s {
      assert table[i].str == [i as byte];
    }
    forall i, j | 0 <= i < j < |table| && table[i].Occupied? && table[j].Occupied?
      ensures table[i].str != table[j].str
    {
      assert table[i].str[0] == i as byte && table[j].str[0] == j as byte;
    }
    assert table[0].str == last;
    assert s !in Cached(table);
    AfterSpec(table, hash, last);
    AfterSpec(table, hash, s);
    assert last != s && last !in Cached(After(table, hash(s), s));
    assert TableOk(table, hash) && After(table, hash(last), last) == table;
  }

  // The table after calls on each string in turn.
  function AfterAll(table: seq<Entry>, hash: Str -> u64, ss: seq<Str>): (table': seq<Entry>)
    requires |table| == CAPACITY
    ensures |table'| == CAPACITY
    decreases |ss|
  {
    if ss == [] then table
    else After(AfterAll(table, hash, ss[..|ss| - 1]), hash(ss[|ss| - 1]), ss[|ss| - 1])
  }

  // Once the window of a home slot is full, new strings with that home fight over the home slot alone:
  // each one evicts the one before it, and the other slots keep what they have.
  lemma {:induction false} MissesShareTheHomeSlot(table: seq<Entry>, hash: Str -> u64, home: nat, ss: seq<Str>)
    requires TableOk(table, hash) && ss != []
    requires forall i :: 0 <= i < |ss| ==>
               Home(hash(ss[i])) == home && WindowFull(table, hash(ss[i])) && ss[i] !in Cached(table)
    ensures home < CAPACITY && table[home].Occupied?
    ensures var last := ss[|ss| - 1]; AfterAll(table, hash, ss) == table[home := Occupied(hash(last), last)]
    ensures TableOk(AfterAll(table, hash, ss), hash)
    ensures Cached(AfterAll(table, hash, ss)) == Cached(table) - {table[home].str} + {ss[|ss| - 1]}
    decreases |ss|
  {
    assert |table| == CAPACITY;
    hide Cached, TableOk;
    var front, last := ss[..|ss| - 1], ss[|ss| - 1];
    if front == [] {
      AfterFull(table, hash, last);
    } else {
      MissesShareTheHomeSlot(table, hash, home, front);
      var previous, t1 := front[|front| - 1], AfterAll(table, hash, front);
      if last == previous {
        AfterSpec(t1, hash, last);
      } else {
        AfterFull(t1, hash, last);
        assert t1[home := Occupied(hash(last), last)] == table[home := Occupied(hash(last), last)];
      }
    }
  }

  lemma AfterFull(table: seq<Entry>, hash: Str -> u64, s: Str)
    requires TableOk(table, hash) && WindowFull(table, hash(s)) && s !in Cached(table)
    ensures var home := Home(hash(s));
            && table[home].Occupied?
            && After(table, hash(s), s) == table[home := Occupied(hash(s), s)]
            && TableOk(After(table, hash(s), s), hash)
            && Cached(After(table, hash(s), s)) == Cached(table) - {table[home].str} + {s}
  {
    hide Cached;
    AfterSpec(table, hash, s);
    HitIffCached(table, hash, s);
    ProbeFinds(table, hash(s), s, Home(hash(s)), WINDOW);
  }

  // ---------------------------------------------------------------- the global cache

  // The cache behind its mutex. A panic with the mutex held poisons it, and nothing clears the poison.
  class GlobalCache {
    const cache: PyStringCache
    var poisoned: bool

    ghost predicate Valid()
      reads this, cache, cache.entries
    {
      if poisoned then |cache.entries[..]| == CAPACITY else cache.Valid()
    }

    constructor (hash: Str -> u64)
      ensures Valid() && !poisoned && fresh(cache) && fresh(cache.entries) && cache.hash == hash
      ensures Cached(cache.entries[..]) == {}
    {
      cache := new PyStringCache(hash);
      poisoned := false;
    }

    // get_string_cache: a poisoned lock empties the cache, and stays poisoned.
    method Lock()
      requires Valid()
      modifies cache`log, cache.entries
      ensures cache.Valid()
      ensures !poisoned ==> cache.entries[..] == old(cache.entries[..]) && cache.log == old(cache.log)
      ensures poisoned ==> Cached(cache.entries[..]) == {} && cache.log == old(cache.log) + [Cleared]
    {
      if poisoned {
        cache.Clear();
      }
    }

    // A panic while the lock is held, with whatever the table looks like then.
    method Panic(left: seq<Entry>)
      requires Valid() && |left| == CAPACITY
      modifies this`poisoned, cache`log, cache.entries
      ensures Valid() && poisoned && cache.entries[..] == left
    {
      Lock();
      forall i | 0 <= i < cache.entries.Length {
        cache.entries[i] := left[i];
      }
      poisoned := true;
    }

    // Only strings of 2 to 63 bytes are cached; either way the result is the text itself.
    method CachedPyString(s: Str) returns (out: Str)
      requires Valid()
      modifies cache`log, cache.entries
      ensures Valid() && out == s
      ensures !(2 <= |s| < 64) ==> cache.entries[..] == old(cache.entries[..]) && cache.log == old(cache.log)
      ensures 2 <= |s| < 64 && !poisoned ==>
                cache.entries[..] == After(old(cache.entries[..]), cache.hash(s), s)
      // after a panic every call starts from nothing: no string is ever found again
      ensures 2 <= |s| < 64 && poisoned ==> Cached(cache.entries[..]) == {s}
    {
      if 2 <= |s| < 64 {
        Lock();
        ghost var table := cache.entries[..];
        out := cache.GetOrInsert(s);
        AfterSpec(table, cache.hash, s);
        if poisoned { EmptyIsNotFull(table, cache.hash(s)); }
      } else {
        out := s;
      }
    }

    // The number of cached strings; after a panic the answer is always zero.
    method CacheUsage() returns (n: nat)
      requires Valid()
      modifies cache`log, cache.entries
      ensures Valid() && n == |Cached(cache.entries[..])|
      ensures !poisoned ==> cache.entries[..] == old(cache.entries[..])
      ensures poisoned ==> n == 0
    {
      Lock();
      n := cache.GetUsage();
    }

    method CacheClear()
      requires Valid()
      modifies cache`log, cache.entries
      ensures Valid() && Cached(cache.entries[..]) == {}
    {
      Lock();
      cache.Clear();
    }
  }

  lemma OccupiedIsCached(table: seq<Entry>, i: nat)
    requires i < |table|
    ensures table[i].Occupied? ==> table[i].str in Cached(table)
  {
  }

  lemma EmptyIsNotFull(table: seq<Entry>, h: u64)
    requires |table| == CAPACITY && Cached(table) == {}
    ensures !WindowFull(table, h)
  {
    OccupiedIsCached(table, Home(h));
  }
}
