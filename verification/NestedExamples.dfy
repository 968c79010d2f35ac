/**
  Schemas that declare a draft of their own inside a document of another draft.
*/
module NestedExamples {
  import opened Schema
  import opened Bundler
  import opened BundleMeaning
  import opened BundleReach
  import opened BundleIndex
  import opened BundleExamples
  import opened Options

  const DRAFT7_URI: string := "http://json-schema.org/draft-07/schema"

  // A schema that declares draft-07 and has a reference under the given keyword.
  function Nested(key: Key, ref: string): Json {
    JObject([Entry(SchemaUri, JString(DRAFT7_URI)), Entry(key, JArray([Bare(ref)]))])
  }

  // It stands in a 2020-12 root.
  function Around(nested: Json): Json {
    JObject([Entry(AllOf, JArray([nested]))])
  }

  function NestedRegistry(root: Json): Registry {
    Registry(map["r" := Resource(root, Draft202012), "b" := Resource(JBool(false), Draft202012)], map[], Absolute())
  }

  function RootOf(key: Key, ref: string): Place {
    Place(Around(Nested(key, ref)), Draft202012, "r")
  }

  function NothingEmbedded(): State {
    State([], {"r"}, [], [], {})
  }

  // ---------------------------------------------------------------- what the schemas say

  lemma Draft7Uri()
    ensures DraftOfUri(DRAFT7_URI) == Draft7
  {
    var uri := DRAFT7_URI;
    assert uri[|uri| - 1] == 'a';
    assert TrimHashes(uri) == uri;
    assert uri[4] == ':' && uri[23] == 'd' && uri[28] == '-';
  }

  lemma AroundShape(nested: Json)
    ensures Around(nested).JObject? && SubresourcesOf(Draft202012, Around(nested)) == [nested]
    ensures ExternalRef(Around(nested)).None? && IdOf(Draft202012, Around(nested)).None?
  {
    hide Get, SubresourcesIn;
    OneEntry(Entry(AllOf, JArray([nested])), Draft202012);
  }

  // The draft decides where the nested schema has schemas.
  lemma NestedShape(key: Key, ref: string)
    requires key.Items? || key.PrefixItems?
    ensures Nested(key, ref).JObject? && Detect(Draft202012, Nested(key, ref)) == Draft7
    ensures ExternalRef(Nested(key, ref)).None?
    ensures IdOf(Draft7, Nested(key, ref)).None? && IdOf(Draft202012, Nested(key, ref)).None?
    ensures SubresourcesOf(Draft7, Nested(key, ref)) == if key.Items? then [Bare(ref)] else []
    ensures SubresourcesOf(Draft202012, Nested(key, ref)) == if key.Items? then [JArray([Bare(ref)])] else [Bare(ref)]
  {
    hide Get, SubresourcesIn, DraftOfUri;
    Draft7Uri();
    TwoEntries(Entry(SchemaUri, JString(DRAFT7_URI)), Entry(key, JArray([Bare(ref)])), Draft7);
    TwoEntries(Entry(SchemaUri, JString(DRAFT7_URI)), Entry(key, JArray([Bare(ref)])), Draft202012);
  }

  lemma BareReads(ref: string)
    requires !StartsWithHash(ref)
    ensures Bare(ref).JObject? && Detect(Draft7, Bare(ref)) == Draft7 && ExternalRef(Bare(ref)) == Some(ref)
  {
    hide Get;
    BareShape(ref);
  }

  lemma NestedReads(key: Key, ref: string)
    requires (key.Items? || key.PrefixItems?) && !StartsWithHash(ref)
    ensures AsRead(Nested(key, ref), Draft202012, "r") == Place(Nested(key, ref), Draft7, "r")
    ensures AsRead(Bare(ref), Draft7, "r") == Place(Bare(ref), Draft7, "r")
  {
    hide Detect, Nested, Bare;
    NestedShape(key, ref);
    BareReads(ref);
  }

  // ---------------------------------------------------------------- a reference that is not walked

  lemma NestedIsCovered()
    ensures var start := RootOf(Items, "b");
            Covered(NestedRegistry(start.schema), start, {"r"})
  {
    hide SubresourcesOf, ExternalRef, IdOf, Get, Lookup, Nested, Around, Bare;
    var nested, list, start := Nested(Items, "b"), JArray([Bare("b")]), RootOf(Items, "b");
    var reg := NestedRegistry(start.schema);
    AroundShape(nested);
    NestedShape(Items, "b");
    PlainPlace(reg, Place(list, Draft202012, "r"), {"r"});
    assert Covered(reg, Place(nested, Draft202012, "r"), {"r"});
  }

  // The walk finds none: `items` with a list is no subresource location of 2020-12.
  lemma NestedIsWalked()
    ensures var start := RootOf(Items, "b");
            && Complete(NestedRegistry(start.schema), "r", Draft202012, start.schema, NothingEmbedded())
            && FragmentFree(NestedRegistry(start.schema), "r", Draft202012, start.schema, NothingEmbedded())
  {
    hide SubresourcesOf, ExternalRef, IdOf, Get, Lookup, Nested, Around, Bare, Covered;
    var nested, list, start := Nested(Items, "b"), JArray([Bare("b")]), RootOf(Items, "b");
    AroundShape(nested);
    NestedShape(Items, "b");
    PlainIsFragmentFree(Draft202012, list);
    NestedIsCovered();
    assert Bases([]) == {};
  }

  function Missed(): Target {
    Target(JBool(false), "b", Draft202012)
  }

  // Reading finds it.
  lemma NestedIsRead()
    ensures var start := RootOf(Items, "b");
            LinksToAsRead(NestedRegistry(start.schema), start, Missed())
  {
    hide SubresourcesOf, ExternalRef, IdOf, Get, Lookup, Nested, Around, Detect, Bare, AsRead;
    var nested, start := Nested(Items, "b"), RootOf(Items, "b");
    var reg := NestedRegistry(start.schema);
    AroundShape(nested);
    NestedShape(Items, "b");
    NestedReads(Items, "b");
    BareShape("b");
    BareReads("b");
    PlainLookup(reg, "r", "b");
    assert Bare("b") in [Bare("b")] && nested in [nested];
    assert LinksToAsRead(reg, Place(Bare("b"), Draft7, "r"), Missed());
    assert LinksToAsRead(reg, Place(nested, Draft7, "r"), Missed());
  }

  lemma NestedIsMissed()
    ensures var start := RootOf(Items, "b");
            var top := Target(start.schema, "r", Draft202012);
            !AllReadEmbedded(NestedRegistry(start.schema), top, NothingEmbedded())
  {
    hide LinksToAsRead, Around, Nested;
    var start := RootOf(Items, "b");
    var reg := NestedRegistry(start.schema);
    NestedIsRead();
    assert Before(start, [Missed()], 0) == start;
    assert ChainAsRead(reg, start, [Missed()]);
    assert [Missed()][0] == Missed() && Missed().base != "r";
    assert ReachableAsRead(reg, Original(Target(start.schema, "r", Draft202012)), Missed());
  }

  // No schema in the root has an identifier, so the only registry built from the bundle has the bundle alone.
  lemma NestedIndex(uri: Uri, r: Resource)
    ensures var start := RootOf(Items, "b");
            !Indexed(NestedRegistry(start.schema), "r", Draft202012, start.schema, uri, r)
  {
    hide SubresourcesOf, ExternalRef, IdOf, Get, Nested, Around, Detect, Bare;
    var nested := Nested(Items, "b");
    var reg := NestedRegistry(Around(nested));
    AroundShape(nested);
    NestedShape(Items, "b");
    BareShape("b");
    BareReads("b");
    assert !Indexed(reg, "r", Draft7, Bare("b"), uri, r);
    assert !Indexed(reg, "r", Draft7, nested, uri, r);
  }

  // ---------------------------------------------------------------- what it means

  lemma OneChild(reg: Registry, draft: Draft, scope: Uri, e: Entry, c: Json, n: nat)
    requires !Skipped(e) && Select(LocationOf(draft, e.key), e.value) == [c]
    ensures UnfoldFields(reg, draft, scope, [e], n)
            == [Field(e.key, RestOf(LocationOf(draft, e.key), e.value), [Unfold(reg, AsRead(c, draft, scope), n)])]
  {
    hide Select, LocationOf, RestOf, Unfold, AsRead, Skipped;
    assert [e][1..] == [] && UnfoldFields(reg, draft, scope, [], n) == [];
    assert UnfoldAll(reg, draft, scope, [c], n) == [Unfold(reg, AsRead(c, draft, scope), n)];
    assert UnfoldFields(reg, draft, scope, [e], n) == [UnfoldField(reg, draft, scope, e, n)];
  }

  lemma SecondChild(reg: Registry, draft: Draft, scope: Uri, e: Entry, f: Entry, c: Json, n: nat)
    requires !Skipped(e) && !Skipped(f) && Select(LocationOf(draft, f.key), f.value) == [c]
    ensures var fields := UnfoldFields(reg, draft, scope, [e, f], n);
            |fields| == 2 && fields[1].children == [Unfold(reg, AsRead(c, draft, scope), n)]
  {
    hide Select, LocationOf, RestOf, Unfold, AsRead, Skipped, UnfoldField;
    assert [e, f][1..] == [f];
    OneChild(reg, draft, scope, f, c, n);
  }

  // The way down to the nested reference.
  lemma NestedUnfolds(reg: Registry)
    requires reg.resolve == Absolute()
    ensures var tree := Unfold(reg, RootOf(Items, "b"), 4);
            && tree.Node? && |tree.fields| == 1 && |tree.fields[0].children| == 1
            && var nested := tree.fields[0].children[0];
            && nested.Node? && |nested.fields| == 2 && |nested.fields[1].children| == 1
            && nested.fields[1].children[0] == Unfold(reg, Place(Bare("b"), Draft7, "r"), 2)
  {
    hide SubresourcesOf, ExternalRef, IdOf, Get, Lookup, Detect, UnfoldFields, UnfoldRef, AsRead, Bare;
    var nested := Nested(Items, "b");
    AroundShape(nested);
    NestedShape(Items, "b");
    NestedReads(Items, "b");
    OneChild(reg, Draft202012, "r", Entry(AllOf, JArray([nested])), nested, 3);
    SecondChild(reg, Draft7, "r", Entry(SchemaUri, JString(DRAFT7_URI)), Entry(Items, JArray([Bare("b")])), Bare("b"), 2);
  }

  lemma NestedBareUnfolds(reg: Registry)
    requires reg.resolve == Absolute() && ("b" in reg.resources ==> !reg.resources["b"].contents.JObject?)
    ensures var tree := Unfold(reg, Place(Bare("b"), Draft7, "r"), 2);
            && tree.Node? && tree.ref == External(if "b" in reg.resources then Atom(reg.resources["b"].contents) else Lost)
  {
    hide ExternalRef, IdOf, Get, UnfoldFields;
    BareShape("b");
    BareReads("b");
  }

  // Nothing is embedded, so what is asked of the embedded resources holds.
  lemma NestedHasNoDefinitions()
    ensures var root, run := Around(Nested(Items, "b")), NothingEmbedded();
            var reg := NestedRegistry(root);
            && WithDefs(root, run.defs, Draft202012) == root
            && AllClear(reg, "r", Draft202012, root, run) && OnlyDefinitions(reg, "r", Draft202012, root, run)
            && AllDiscoverable(reg, "r", Draft202012, root, run) && DraftsKept(Draft202012, run)
            && exists index :: IsIndex(index, reg, "r", Draft202012, root)
  {
    hide Around, Nested, Indexed;
    var root := Around(Nested(Items, "b"));
    var reg := NestedRegistry(root);
    forall uri, r ensures !Indexed(reg, "r", Draft202012, root, uri, r) { NestedIndex(uri, r); }
    var index := Registry(map["r" := Resource(root, Draft202012)], map[], Absolute());
    assert IsIndex(index, reg, "r", Draft202012, root);
  }

  lemma NestedChangesMeaning(index: Registry)
    requires IsIndex(index, NestedRegistry(Around(Nested(Items, "b"))), "r", Draft202012, Around(Nested(Items, "b")))
    ensures Unfold(index, RootOf(Items, "b"), 4) != Unfold(NestedRegistry(Around(Nested(Items, "b"))), RootOf(Items, "b"), 4)
  {
    hide Around, Nested, Indexed, Unfold, Bare;
    var reg := NestedRegistry(Around(Nested(Items, "b")));
    if "b" in index.resources { NestedIndex("b", index.resources["b"]); }
    NestedUnfolds(index);
    NestedUnfolds(reg);
    NestedBareUnfolds(index);
    NestedBareUnfolds(reg);
  }

  // The bundle is the root itself, and has lost what the nested schema refers to.
  lemma NestedDraftIsMissed()
    ensures var root, run := Around(Nested(Items, "b")), NothingEmbedded();
            var reg, top := NestedRegistry(root), Target(root, "r", Draft202012);
            && Complete(reg, "r", Draft202012, root, run) && FragmentFree(reg, "r", Draft202012, root, run)
            && AllClear(reg, "r", Draft202012, root, run) && OnlyDefinitions(reg, "r", Draft202012, root, run)
            && AllDiscoverable(reg, "r", Draft202012, root, run) && DraftsKept(Draft202012, run)
            && WithDefs(root, run.defs, Draft202012) == root
            && !AllReadEmbedded(reg, top, run) && !NothingMissed(reg, top)
            && (exists index :: IsIndex(index, reg, "r", Draft202012, root))
            && forall index :: IsIndex(index, reg, "r", Draft202012, root) ==>
                 Unfold(index, Place(root, Draft202012, "r"), 4) != Unfold(reg, Place(root, Draft202012, "r"), 4)
  {
    hide Around, Nested, Complete, FragmentFree, AllClear, OnlyDefinitions, AllDiscoverable, DraftsKept, WithDefs;
    hide AllReadEmbedded, NothingMissed, IsIndex, Unfold, NestedRegistry;
    var root := Around(Nested(Items, "b"));
    NestedIsWalked();
    NestedIsMissed();
    NestedHasNoDefinitions();
    WithoutFragmentsAllReadEmbedded(NestedRegistry(root), "r", Draft202012, root, NothingEmbedded());
    forall index | IsIndex(index, NestedRegistry(root), "r", Draft202012, root)
      ensures Unfold(index, Place(root, Draft202012, "r"), 4) != Unfold(NestedRegistry(root), Place(root, Draft202012, "r"), 4)
    {
      NestedChangesMeaning(index);
    }
  }

  // ---------------------------------------------------------------- a reference that is not read

  lemma NothingLinked(reg: Registry, start: Place, t: Target)
    requires forall u :: !LinksToAsRead(reg, start, u)
    ensures !ReachableAsRead(reg, start, t)
  {
    hide LinksToAsRead;
    forall c: seq<Target> | c != [] ensures !ChainAsRead(reg, start, c) {
      assert Before(start, c, 0) == start;
      assert !LinksToAsRead(reg, start, c[0]);
    }
  }

  // draft-07 has no schemas in `prefixItems`, so nothing that is read is broken; bundling fails.
  lemma NestedDraftBreaksBundling(run: State)
    ensures var root := Around(Nested(PrefixItems, "missing"));
            var reg, top := NestedRegistry(root), Target(root, "r", Draft202012);
            && ReadsResolve(reg, top) && (forall t :: !ReachableAsRead(reg, Original(top), t))
            && Broken(reg, Original(top)) && !Complete(reg, "r", Draft202012, root, run)
  {
    hide SubresourcesOf, ExternalRef, IdOf, Get, Lookup, Nested, Around, Detect, Bare, AsRead, Consistent, Reached;
    var nested, start := Nested(PrefixItems, "missing"), RootOf(PrefixItems, "missing");
    var reg := NestedRegistry(start.schema);
    AroundShape(nested);
    NestedShape(PrefixItems, "missing");
    NestedReads(PrefixItems, "missing");
    BareShape("missing");
    BareReads("missing");
    assert nested in [nested] && Bare("missing") in [Bare("missing")];
    assert Lookup(reg, "r", "missing").None? by { MissingLookup(reg); }
    assert Broken(reg, Place(Bare("missing"), Draft202012, "r"));
    assert Broken(reg, Place(nested, Draft202012, "r"));
    CoveredMeans(reg, start, run.visited);
    assert forall u :: !LinksToAsRead(reg, Place(nested, Draft7, "r"), u);
    forall t ensures !ReachableAsRead(reg, start, t) {
      NothingLinked(reg, start, t);
    }
    assert ResolvesAsRead(reg, Place(nested, Draft7, "r"));
  }

  lemma MissingLookup(reg: Registry)
    requires reg.resolve == Absolute() && "missing" !in reg.resources
    ensures Lookup(reg, "r", "missing").None?
  {
  }
}
