/**
  The bundler: walks a schema and everything it refers to, and embeds each referenced resource once in
  the definitions of the root (section 9.3.1 of JSON Schema Core, draft 2020-12).
*/
module Bundler {
  import opened Schema
  import opened Options

  // ---------------------------------------------------------------- embedding

  function EnsureEmbeddedIds(es: seq<Entry>, uri: Uri, rootDraft: Draft, embeddedDraft: Draft): seq<Entry> {
    var own := OrInsert(es, IdKeyword(embeddedDraft), JString(uri));
    if IdKeyword(rootDraft) == IdKeyword(embeddedDraft) then own
    else OrInsert(own, IdKeyword(rootDraft), JString(uri))
  }

  // The copy of a target that goes into the bundle.
  function Embed(t: Target, rootDraft: Draft): Json {
    if t.contents.JObject? then JObject(EnsureEmbeddedIds(t.contents.entries, t.base, rootDraft, t.draft))
    else t.contents
  }

  // Entries that are there win over embedded ones.
  function Merged(target: seq<Entry>, defs: seq<Entry>): seq<Entry>
    decreases |defs|
  {
    if defs == [] then target else Merged(OrInsert(target, defs[0].key, defs[0].value), defs[1..])
  }

  method MergeEntries(target: seq<Entry>, defs: seq<Entry>) returns (merged: seq<Entry>)
    ensures merged == Merged(target, defs)
  {
    merged := target;
    assert defs[0..] == defs;
    for i := 0 to |defs|
      invariant Merged(target, defs) == Merged(merged, defs[i..])
    {
      assert defs[i..][0] == defs[i] && defs[i..][1..] == defs[i + 1..];
      merged := OrInsert(merged, defs[i].key, defs[i].value);
    }
    assert defs[|defs|..] == [];
  }

  predicate HasObject(es: seq<Entry>, key: Key) {
    Get(es, key).Some? && Get(es, key).value.JObject?
  }

  // The keyword under which the embedded resources go.
  function Container(es: seq<Entry>, draft: Draft): Key {
    if HasObject(es, DefinitionsKeyword(draft)) then DefinitionsKeyword(draft)
    else if !IsLegacy(draft) && HasObject(es, Definitions) then Definitions
    else DefinitionsKeyword(draft)
  }

  // What the container holds before the merge; a value that is no object is given up.
  function Existing(es: seq<Entry>, draft: Draft): seq<Entry> {
    var key := Container(es, draft);
    if HasObject(es, key) then Get(es, key).value.entries else []
  }

  predicate Distinct(es: seq<Entry>) {
    forall i, j :: 0 <= i < j < |es| ==> es[i].key != es[j].key
  }

  lemma {:induction false} GetAbsent(es: seq<Entry>, key: Key)
    requires forall i :: 0 <= i < |es| ==> es[i].key != key
    ensures Get(es, key).None?
    decreases |es|
  {
    if es != [] { GetAbsent(es[1..], key); }
  }

  lemma {:induction false} MergedSplits(target: seq<Entry>, defs: seq<Entry>)
    requires Distinct(target + defs)
    ensures Merged(target, defs) == target + defs
    decreases |defs|
  {
    if defs == [] {
      assert target + [] == target;
    } else {
      assert (target + defs)[|target|] == defs[0];
      assert forall i :: 0 <= i < |target| ==> (target + defs)[i] == target[i];
      GetAbsent(target, defs[0].key);
      assert target + defs == (target + [defs[0]]) + defs[1..];
      assert defs[0] == Entry(defs[0].key, defs[0].value);
      MergedSplits(target + [defs[0]], defs[1..]);
    }
  }

  lemma MergedIntoNothing(defs: seq<Entry>)
    requires Distinct(defs)
    ensures Merged([], defs) == defs
  {
    assert [] + defs == defs;
    MergedSplits([], defs);
  }

  function WithDefs(root: Json, defs: seq<Entry>, rootDraft: Draft): Json {
    if defs == [] || !root.JObject? then root
    else JObject(Insert(root.entries, Container(root.entries, rootDraft),
                        JObject(Merged(Existing(root.entries, rootDraft), defs))))
  }

  method MergeDefs(root: Json, defs: seq<Entry>, rootDraft: Draft) returns (bundle: Json)
    requires Distinct(defs)
    ensures bundle == WithDefs(root, defs, rootDraft)
  {
    hide Get, Insert, Merged, Distinct;
    bundle := root;
    if defs != [] && root.JObject? {
      var container := DefinitionsKeyword(rootDraft);
      match Get(root.entries, container) {
        case Some(JObject(existing)) =>
          var merged := MergeEntries(existing, defs);
          return JObject(Insert(root.entries, container, JObject(merged)));
        case _ =>
      }
      if rootDraft.Draft201909? || rootDraft.Draft202012? || rootDraft.Unknown? {
        var alternate := if container == Defs then Definitions else Defs;
        match Get(root.entries, alternate) {
          case Some(JObject(existing)) =>
            var merged := MergeEntries(existing, defs);
            return JObject(Insert(root.entries, alternate, JObject(merged)));
          case _ =>
        }
      }
      MergedIntoNothing(defs);
      bundle := JObject(Insert(root.entries, container, JObject(defs)));
    }
  }

  // ---------------------------------------------------------------- references below a schema

  // A schema, its draft and the base URI its references are resolved against.
  datatype Place = Place(schema: Json, draft: Draft, base: Uri)

  function PlaceOf(t: Target, rootDraft: Draft): Place {
    Place(Embed(t, rootDraft), t.draft, t.base)
  }

  // The external reference of the schema itself leads to one of the URIs.
  predicate RefCovered(reg: Registry, schema: Json, scope: Uri, uris: set<Uri>) {
    ExternalRef(schema).Some? ==>
      var t := Lookup(reg, scope, ExternalRef(schema).value);
      t.Some? && t.value.base in uris
  }

  // Every identifier and every external reference at or below the place resolves, to a URI in the set. As the
  // walk does, this and what follows reads nested schemas in the draft of the place.
  ghost predicate Covered(reg: Registry, p: Place, uris: set<Uri>)
    decreases p.schema
  {
    p.schema.JObject? ==>
      var scope := Scope(reg, p.base, p.draft, p.schema);
      && scope.Some?
      && RefCovered(reg, p.schema, scope.value, uris)
      && forall c :: c in SubresourcesOf(p.draft, p.schema) ==> Covered(reg, Place(c, p.draft, scope.value), uris)
  }

  // Some external reference at or below the place leads to t.
  ghost predicate LinksTo(reg: Registry, p: Place, t: Target)
    decreases p.schema
  {
    p.schema.JObject? &&
    var scope := Scope(reg, p.base, p.draft, p.schema);
    scope.Some? &&
    ((ExternalRef(p.schema).Some? && Lookup(reg, scope.value, ExternalRef(p.schema).value) == Some(t))
     || exists c :: c in SubresourcesOf(p.draft, p.schema) && LinksTo(reg, Place(c, p.draft, scope.value), t))
  }

  // Some identifier or external reference at or below the place does not resolve.
  ghost predicate Broken(reg: Registry, p: Place)
    decreases p.schema
  {
    p.schema.JObject? &&
    var scope := Scope(reg, p.base, p.draft, p.schema);
    scope.Some? ==>
      ((ExternalRef(p.schema).Some? && Lookup(reg, scope.value, ExternalRef(p.schema).value).None?)
       || exists c :: c in SubresourcesOf(p.draft, p.schema) && Broken(reg, Place(c, p.draft, scope.value)))
  }

  lemma {:induction false} CoveredGrows(reg: Registry, p: Place, uris: set<Uri>, more: set<Uri>)
    requires Covered(reg, p, uris) && uris <= more
    ensures Covered(reg, p, more)
    decreases p.schema
  {
    hide SubresourcesOf;
    if p.schema.JObject? {
      var scope := Scope(reg, p.base, p.draft, p.schema).value;
      forall c | c in SubresourcesOf(p.draft, p.schema) ensures Covered(reg, Place(c, p.draft, scope), more) {
        CoveredGrows(reg, Place(c, p.draft, scope), uris, more);
      }
    }
  }

  // Covered says what it is meant to say.
  lemma {:induction false} CoveredMeans(reg: Registry, p: Place, uris: set<Uri>)
    ensures Covered(reg, p, uris) <==> !Broken(reg, p) && forall t :: LinksTo(reg, p, t) ==> t.base in uris
    decreases p.schema
  {
    hide SubresourcesOf;
    if p.schema.JObject? && Scope(reg, p.base, p.draft, p.schema).Some? {
      var scope := Scope(reg, p.base, p.draft, p.schema).value;
      forall c | c in SubresourcesOf(p.draft, p.schema)
        ensures var below := Place(c, p.draft, scope);
                && (Covered(reg, below, uris) <==> !Broken(reg, below) && forall t :: LinksTo(reg, below, t) ==> t.base in uris)
                && (forall t :: LinksTo(reg, below, t) ==> LinksTo(reg, p, t))
      {
        CoveredMeans(reg, Place(c, p.draft, scope), uris);
      }
      if ExternalRef(p.schema).Some? && Lookup(reg, scope, ExternalRef(p.schema).value).Some? {
        assert LinksTo(reg, p, Lookup(reg, scope, ExternalRef(p.schema).value).value);
      }
    }
  }

  // ---------------------------------------------------------------- runs

  function Bases(ts: seq<Target>): set<Uri> {
    set i | 0 <= i < |ts| :: ts[i].base
  }

  ghost predicate DistinctBases(ts: seq<Target>) {
    forall i, j :: 0 <= i < j < |ts| ==> ts[i].base != ts[j].base
  }

  // Each target was reached from the start or from an earlier target.
  ghost predicate Reached(reg: Registry, rootDraft: Draft, start: Place, log: seq<Target>, from: nat) {
    forall i :: from <= i < |log| ==>
                  LinksTo(reg, start, log[i])
                  || exists j :: from <= j < i && LinksTo(reg, PlaceOf(log[j], rootDraft), log[i])
  }

  // The bundler's fields, with the targets in the order in which they were visited (log) and embedded
  // (done), and the base URIs of those still being walked.
  datatype State = State(defs: seq<Entry>, visited: set<Uri>, log: seq<Target>, done: seq<Target>, open: set<Uri>)

  // The visited URIs are the root, the embedded resources and those being walked, without overlap, and
  // whatever is embedded refers to visited URIs only.
  ghost predicate Consistent(reg: Registry, rootUri: Uri, rootDraft: Draft, s: State) {
    && DistinctBases(s.log) && s.visited == {rootUri} + Bases(s.log) && rootUri !in Bases(s.log)
    && s.visited == {rootUri} + Bases(s.done) + s.open && rootUri !in Bases(s.done) + s.open && Bases(s.done) !! s.open
    && DistinctBases(s.done) && (forall t :: t in s.done ==> t in s.log)
    && |s.defs| == |s.done|
    && (forall i :: 0 <= i < |s.done| ==> s.defs[i] == Entry(Other(s.done[i].base), Embed(s.done[i], rootDraft)))
    && forall t :: t in s.done ==> Covered(reg, PlaceOf(t, rootDraft), s.visited)
  }

  predicate Extends(s: State, s': State) {
    s.visited <= s'.visited && s.log <= s'.log && s.defs <= s'.defs && s.done <= s'.done
  }

  lemma ExtendsFurther(s: State, s': State, s'': State)
    requires Extends(s, s') && Extends(s', s'')
    ensures Extends(s, s'')
  {
  }

  function Begun(s: State, t: Target): State {
    s.(visited := s.visited + {t.base}, log := s.log + [t], open := s.open + {t.base})
  }

  function Ended(s: State, t: Target, embedded: Json): State {
    s.(defs := s.defs + [Entry(Other(t.base), embedded)], done := s.done + [t], open := s.open - {t.base})
  }

  lemma KeepsLast(s: State, s': State, t: Target)
    requires Extends(s, s') && s.log != [] && s.log[|s.log| - 1] == t && t.base in s.visited
    ensures |s.log| <= |s'.log| && s'.log[|s.log| - 1] == t && t in s'.log && t.base in s'.visited
  {
  }

  lemma BasesGrow(ts: seq<Target>, t: Target)
    ensures Bases(ts + [t]) == Bases(ts) + {t.base}
  {
    var more := ts + [t];
    assert forall i :: 0 <= i < |ts| ==> more[i] == ts[i];
    assert more[|ts|] == t;
    forall u | u in Bases(ts) + {t.base} ensures u in Bases(more) {
      if u in Bases(ts) {
        var i :| 0 <= i < |ts| && ts[i].base == u;
        assert more[i].base == u;
      } else {
        assert more[|ts|].base == u;
      }
    }
  }

  lemma BeginKeeps(reg: Registry, rootUri: Uri, rootDraft: Draft, s: State, t: Target)
    requires Consistent(reg, rootUri, rootDraft, s) && t.base !in s.visited
    ensures Consistent(reg, rootUri, rootDraft, Begun(s, t)) && Extends(s, Begun(s, t))
    ensures Begun(s, t).open - {t.base} == s.open
  {
    hide Covered, Embed;
    BasesGrow(s.log, t);
    var s' := Begun(s, t);
    forall d | d in s'.done ensures Covered(reg, PlaceOf(d, rootDraft), s'.visited) {
      CoveredGrows(reg, PlaceOf(d, rootDraft), s.visited, s'.visited);
    }
  }

  lemma EndKeeps(reg: Registry, rootUri: Uri, rootDraft: Draft, s: State, t: Target)
    requires Consistent(reg, rootUri, rootDraft, s) && t in s.log && t.base in s.open
    requires Covered(reg, PlaceOf(t, rootDraft), s.visited)
    ensures Consistent(reg, rootUri, rootDraft, Ended(s, t, Embed(t, rootDraft)))
    ensures Extends(s, Ended(s, t, Embed(t, rootDraft)))
  {
    hide Covered, Embed;
    BasesGrow(s.done, t);
    var s' := Ended(s, t, Embed(t, rootDraft));
    assert forall d :: d in s'.done <==> d in s.done || d == t;
  }

  // What is reached from below the start is reached from the start.
  lemma ReachedMore(reg: Registry, rootDraft: Draft, start: Place, inner: Place, log: seq<Target>, log': seq<Target>, from: nat)
    requires from <= |log| && log <= log'
    requires Reached(reg, rootDraft, start, log, from) && Reached(reg, rootDraft, inner, log', |log|)
    requires forall t :: LinksTo(reg, inner, t) ==> LinksTo(reg, start, t)
    ensures Reached(reg, rootDraft, start, log', from)
  {
    hide LinksTo, PlaceOf;
    forall i | from <= i < |log'|
      ensures LinksTo(reg, start, log'[i])
              || exists j :: from <= j < i && LinksTo(reg, PlaceOf(log'[j], rootDraft), log'[i])
    {
      if i < |log| {
        assert log'[i] == log[i];
        if !LinksTo(reg, start, log[i]) {
          var j :| from <= j < i && LinksTo(reg, PlaceOf(log[j], rootDraft), log[i]);
          assert log'[j] == log[j];
        }
      }
    }
  }

  lemma CoverAll(reg: Registry, p: Place, uris: set<Uri>, more: set<Uri>)
    requires p.schema.JObject? && Scope(reg, p.base, p.draft, p.schema).Some? && uris <= more
    requires RefCovered(reg, p.schema, Scope(reg, p.base, p.draft, p.schema).value, uris)
    requires var subs := SubresourcesOf(p.draft, p.schema);
             forall i :: 0 <= i < |subs| ==>
               Covered(reg, Place(subs[i], p.draft, Scope(reg, p.base, p.draft, p.schema).value), more)
    ensures Covered(reg, p, more)
  {
  }

  lemma LinksBelow(reg: Registry, p: Place, c: Json)
    requires p.schema.JObject? && Scope(reg, p.base, p.draft, p.schema).Some? && c in SubresourcesOf(p.draft, p.schema)
    ensures var below := Place(c, p.draft, Scope(reg, p.base, p.draft, p.schema).value);
            && (forall t :: LinksTo(reg, below, t) ==> LinksTo(reg, p, t))
            && (Broken(reg, below) ==> Broken(reg, p))
  {
  }

  ghost predicate Failed(reg: Registry, rootDraft: Draft, start: Place, log: seq<Target>, from: nat) {
    Broken(reg, start) || exists i :: from <= i < |log| && Broken(reg, PlaceOf(log[i], rootDraft))
  }

  class Bundler {
    const reg: Registry
    const rootUri: Uri
    const rootDraft: Draft
    var defs: seq<Entry>
    var visited: set<Uri>
    ghost var log: seq<Target>
    ghost var done: seq<Target>
    ghost var open: set<Uri>

    constructor (reg: Registry, rootUri: Uri, rootDraft: Draft)
      ensures this.reg == reg && this.rootUri == rootUri && this.rootDraft == rootDraft
      ensures Valid() && log == [] && open == {} && defs == []
    {
      this.reg, this.rootUri, this.rootDraft := reg, rootUri, rootDraft;
      defs, visited, log, done, open := [], {rootUri}, [], [], {};
    }

    ghost function Now(): State
      reads this
    {
      State(defs, visited, log, done, open)
    }

    ghost predicate Valid()
      reads this
    {
      Consistent(reg, rootUri, rootDraft, Now())
    }

    method MarkVisited(t: Target)
      requires t.base !in visited && t.base in Universe(reg)
      modifies this
      ensures Now() == Begun(old(Now()), t)
      ensures |Universe(reg) - visited| < |Universe(reg) - old(visited)|
    {
      hide Universe;
      visited := visited + {t.base};
      log, open := log + [t], open + {t.base};
      assert Universe(reg) - visited < Universe(reg) - old(visited);
      Smaller(Universe(reg) - visited, Universe(reg) - old(visited));
    }

    method PutIntoDefs(t: Target, embedded: Json)
      modifies this
      ensures Now() == Ended(old(Now()), t, embedded)
    {
      defs := defs + [Entry(Other(t.base), embedded)];
      done, open := done + [t], open - {t.base};
    }

    // Embeds a target that was not visited before.
    method EmbedTarget(t: Target, ghost schema: Json) returns (ok: bool)
      requires Valid() && t.base !in visited && t.base in Universe(reg)
      modifies this
      ensures Valid() && Extends(old(Now()), Now()) && t.base in visited
      ensures ok ==> open == old(open)
      ensures |old(log)| < |log| && log[|old(log)|] == t
      ensures Reached(reg, rootDraft, PlaceOf(t, rootDraft), log, |old(log)| + 1)
      ensures !ok ==> forall start :: Failed(reg, rootDraft, start, log, |old(log)|)
      decreases |Universe(reg) - visited|, schema, 0
    {
      hide Consistent, Reached, Covered, LinksTo, Broken, Embed, Extends, Failed, Universe;
      ghost var before := Now();
      BeginKeeps(reg, rootUri, rootDraft, before, t);
      MarkVisited(t);
      var embedded := Embed(t, rootDraft);
      ok := Walk(embedded, t.draft, t.base);
      ghost var walked := Now();
      ExtendsFurther(before, Begun(before, t), walked);
      KeepsLast(Begun(before, t), walked, t);
      if ok {
        EndKeeps(reg, rootUri, rootDraft, walked, t);
        PutIntoDefs(t, embedded);
        ExtendsFurther(before, walked, Now());
      } else {
        FailedAnywhere(reg, rootDraft, log, |before.log|);
      }
    }

    // The external reference of a schema, if it has one.
    method WalkReference(schema: Json, draft: Draft, base: Uri, scope: Uri) returns (ok: bool)
      requires Valid() && schema.JObject? && Scope(reg, base, draft, schema) == Some(scope)
      modifies this
      ensures Valid() && Extends(old(Now()), Now())
      ensures ok ==> open == old(open)
      ensures ok ==> RefCovered(reg, schema, scope, visited)
      ensures Reached(reg, rootDraft, Place(schema, draft, base), log, |old(log)|)
      ensures !ok ==> Failed(reg, rootDraft, Place(schema, draft, base), log, |old(log)|)
      decreases |Universe(reg) - visited|, schema, 1
    {
      hide Consistent, Reached, Covered, LinksTo, Broken, Embed, Extends;
      ghost var start, from := Place(schema, draft, base), |log|;
      NothingReached(reg, rootDraft, start, log);
      ExtendsSelf(Now());
      var ref := ExternalRef(schema);
      if ref.None? {
        return true;
      }
      var found := Lookup(reg, scope, ref.value);
      if found.None? {
        UnresolvedPlace(reg, start);
        return false;
      }
      ok := true;
      if found.value.base !in visited {
        ok := EmbedTarget(found.value, schema);
        LinkHere(reg, start, found.value);
        ReachedThrough(reg, rootDraft, start, log, from);
      }
    }

    method Walk(schema: Json, draft: Draft, base: Uri) returns (ok: bool)
      requires Valid()
      modifies this
      ensures Valid() && Extends(old(Now()), Now())
      ensures ok ==> open == old(open) && Covered(reg, Place(schema, draft, base), visited)
      ensures Reached(reg, rootDraft, Place(schema, draft, base), log, |old(log)|)
      ensures !ok ==> Failed(reg, rootDraft, Place(schema, draft, base), log, |old(log)|)
      decreases |Universe(reg) - visited|, schema, 2
    {
      hide Consistent, Reached, Covered, LinksTo, Broken, Embed, Extends, SubresourcesOf;
      hide RefCovered, IdOf, ExternalRef, Lookup, Universe;
      ghost var start, before := Place(schema, draft, base), Now();
      ghost var from := |log|;
      NothingReached(reg, rootDraft, start, log);
      ExtendsSelf(before);
      if !schema.JObject? {
        PlainPlace(reg, start, visited);
        return true;
      }
      var scope := Scope(reg, base, draft, schema);
      if scope.None? {
        UnresolvedPlace(reg, start);
        return false;
      }
      ok := WalkReference(schema, draft, base, scope.value);
      if !ok {
        return false;
      }
      ghost var referred := Now();
      ExtendsSelf(referred);
      var subresources := SubresourcesOf(draft, schema);
      for i := 0 to |subresources|
        invariant Valid() && open == old(open) && Extends(before, Now()) && Extends(referred, Now())
        invariant forall j :: 0 <= j < i ==> Covered(reg, Place(subresources[j], draft, scope.value), visited)
        invariant Reached(reg, rootDraft, start, log, from)
      {
        ghost var previous := Now();
        ghost var below := Place(subresources[i], draft, scope.value);
        assert subresources[i] in subresources;
        ExtendsMeans(before, previous, Universe(reg));
        ok := Walk(subresources[i], draft, scope.value);
        ExtendsFurther(before, previous, Now());
        ExtendsFurther(referred, previous, Now());
        ExtendsMeans(previous, Now(), Universe(reg));
        LinksBelow(reg, start, subresources[i]);
        ReachedMore(reg, rootDraft, start, below, previous.log, log, from);
        if !ok {
          FailedBelow(reg, rootDraft, start, below, log, from, |previous.log|);
          return false;
        }
        forall j | 0 <= j < i ensures Covered(reg, Place(subresources[j], draft, scope.value), visited) {
          CoveredGrows(reg, Place(subresources[j], draft, scope.value), previous.visited, visited);
        }
      }
      ExtendsMeans(referred, Now(), Universe(reg));
      CoverAll(reg, start, referred.visited, visited);
      return true;
    }
  }

  lemma FailedAnywhere(reg: Registry, rootDraft: Draft, log: seq<Target>, from: nat)
    requires from < |log| && Failed(reg, rootDraft, PlaceOf(log[from], rootDraft), log, from + 1)
    ensures forall start :: Failed(reg, rootDraft, start, log, from)
  {
    hide Broken, PlaceOf;
  }

  lemma FailedBelow(reg: Registry, rootDraft: Draft, start: Place, below: Place, log: seq<Target>, from: nat, later: nat)
    requires from <= later && (Broken(reg, below) ==> Broken(reg, start))
    requires Failed(reg, rootDraft, below, log, later)
    ensures Failed(reg, rootDraft, start, log, from)
  {
    hide Broken, PlaceOf;
  }

  lemma ExtendsMeans(s: State, s': State, universe: set<Uri>)
    requires Extends(s, s')
    ensures s.visited <= s'.visited && s.log <= s'.log && |universe - s'.visited| <= |universe - s.visited|
  {
    var a, b := universe - s'.visited, universe - s.visited;
    assert b == a + (b - a);
  }

  lemma ExtendsSelf(s: State)
    ensures Extends(s, s)
  {
  }

  lemma NothingReached(reg: Registry, rootDraft: Draft, start: Place, log: seq<Target>)
    ensures Reached(reg, rootDraft, start, log, |log|)
  {
  }

  lemma PlainPlace(reg: Registry, p: Place, uris: set<Uri>)
    requires !p.schema.JObject?
    ensures Covered(reg, p, uris) && !Broken(reg, p)
  {
  }

  lemma UnresolvedPlace(reg: Registry, p: Place)
    requires p.schema.JObject?
    requires var scope := Scope(reg, p.base, p.draft, p.schema);
             scope.None? || (ExternalRef(p.schema).Some? && Lookup(reg, scope.value, ExternalRef(p.schema).value).None?)
    ensures Broken(reg, p)
  {
  }

  lemma LinkHere(reg: Registry, p: Place, t: Target)
    requires p.schema.JObject? && Scope(reg, p.base, p.draft, p.schema).Some? && ExternalRef(p.schema).Some?
    requires Lookup(reg, Scope(reg, p.base, p.draft, p.schema).value, ExternalRef(p.schema).value) == Some(t)
    ensures LinksTo(reg, p, t)
  {
  }

  // One target below the start, and what is reached from it.
  lemma ReachedThrough(reg: Registry, rootDraft: Draft, start: Place, log: seq<Target>, from: nat)
    requires from < |log| && LinksTo(reg, start, log[from])
    requires Reached(reg, rootDraft, PlaceOf(log[from], rootDraft), log, from + 1)
    ensures Reached(reg, rootDraft, start, log, from)
  {
    hide LinksTo, PlaceOf;
  }

  lemma Smaller<T>(a: set<T>, b: set<T>)
    requires a < b
    ensures |a| < |b|
  {
    assert b == a + (b - a);
  }

  // With nothing left open, every visited target is embedded.
  lemma AllDone(reg: Registry, rootUri: Uri, rootDraft: Draft, s: State, t: Target)
    requires Consistent(reg, rootUri, rootDraft, s) && s.open == {} && t in s.log
    ensures t in s.done
  {
    hide Covered, Embed;
    assert t.base in s.visited;
    var i :| 0 <= i < |s.done| && s.done[i].base == t.base;
    var d := s.done[i];
    assert d in s.done;
    var j, k :| 0 <= j < |s.log| && 0 <= k < |s.log| && s.log[j] == t && s.log[k] == d;
  }

  lemma DefsDistinct(reg: Registry, rootUri: Uri, rootDraft: Draft, s: State)
    requires Consistent(reg, rootUri, rootDraft, s)
    ensures Distinct(s.defs)
  {
  }

  // What a finished run leaves behind.
  ghost predicate Complete(reg: Registry, rootUri: Uri, rootDraft: Draft, root: Json, run: State) {
    && Consistent(reg, rootUri, rootDraft, run) && run.open == {}
    && Covered(reg, Place(root, rootDraft, rootUri), run.visited)
    && Reached(reg, rootDraft, Place(root, rootDraft, rootUri), run.log, 0)
  }

  lemma CompleteHasNoFault(reg: Registry, rootUri: Uri, rootDraft: Draft, root: Json, run: State)
    requires Complete(reg, rootUri, rootDraft, root, run)
    ensures !Failed(reg, rootDraft, Place(root, rootDraft, rootUri), run.log, 0)
  {
    hide Broken, Covered, LinksTo, PlaceOf;
    CoveredMeans(reg, Place(root, rootDraft, rootUri), run.visited);
    forall i | 0 <= i < |run.log| ensures !Broken(reg, PlaceOf(run.log[i], rootDraft)) {
      AllDone(reg, rootUri, rootDraft, run, run.log[i]);
      CoveredMeans(reg, PlaceOf(run.log[i], rootDraft), run.visited);
    }
  }

  // Succeeds when every schema that is reached resolves all it refers to, and fails when one does not.
  method BundleFromRegistry(root: Json, draft: Draft, reg: Registry, baseUri: Uri) returns (bundle: Option<Json>)
    ensures bundle.Some? ==> exists run ::
              Complete(reg, baseUri, draft, root, run) && bundle.value == WithDefs(root, run.defs, draft)
    ensures bundle.None? ==> exists log ::
              Reached(reg, draft, Place(root, draft, baseUri), log, 0) && Failed(reg, draft, Place(root, draft, baseUri), log, 0)
  {
    hide Reached, Covered, Failed, Consistent;
    var bundler := new Bundler(reg, baseUri, draft);
    var ok := bundler.Walk(root, draft, baseUri);
    ghost var run := bundler.Now();
    if !ok {
      assert Reached(reg, draft, Place(root, draft, baseUri), run.log, 0);
      return None;
    }
    DefsDistinct(reg, baseUri, draft, run);
    assert Complete(reg, baseUri, draft, root, run);
    var merged := MergeDefs(root, bundler.defs, draft);
    bundle := Some(merged);
  }
}
