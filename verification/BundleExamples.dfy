/**
  Inputs on which the bundle is not what it should be.
*/
module BundleExamples {
  import opened Schema
  import opened SchemaShapes
  import opened Bundler
  import opened BundleMeaning
  import opened BundleReach
  import opened BundleIndex
  import opened Options

  // ---------------------------------------------------------------- a root that refers to one resource

  // The URIs of the examples are absolute: each resolves to itself.
  function Absolute(): (Uri, string) -> Option<Uri> {
    (base, uri) => Some(uri)
  }

  function Bare(ref: string): Json {
    JObject([Entry(Ref, JString(ref))])
  }

  // The root "r" refers to "b".
  function TwoResources(rootDraft: Draft, contents: Json, draft: Draft): Registry {
    Registry(map["r" := Resource(Bare("b"), rootDraft), "b" := Resource(contents, draft)], map[], Absolute())
  }

  function Linked(contents: Json, draft: Draft): Target {
    Target(contents, "b", draft)
  }

  function OneRun(rootDraft: Draft, t: Target): State {
    State([Entry(Other(t.base), Embed(t, rootDraft))], {"r", t.base}, [t], [t], {})
  }

  function BareBundle(rootDraft: Draft, t: Target): Json {
    WithDefs(Bare("b"), OneRun(rootDraft, t).defs, rootDraft)
  }

  lemma OneEntry(e: Entry, draft: Draft)
    ensures forall key :: Get([e], key) == if e.key == key then Some(e.value) else None
    ensures SubresourcesIn(draft, [e]) == Select(LocationOf(draft, e.key), e.value)
  {
    hide LocationOf, Select;
    assert [e][1..] == [];
    assert SubresourcesIn(draft, [e]) == Select(LocationOf(draft, e.key), e.value) + SubresourcesIn(draft, []);
  }

  lemma TwoEntries(e: Entry, f: Entry, draft: Draft)
    ensures forall key :: Get([e, f], key)
                          == if e.key == key then Some(e.value) else if f.key == key then Some(f.value) else None
    ensures SubresourcesIn(draft, [e, f])
            == Select(LocationOf(draft, e.key), e.value) + Select(LocationOf(draft, f.key), f.value)
  {
    hide LocationOf, Select;
    OneEntry(f, draft);
    assert [e, f][1..] == [f];
    forall key ensures Get([e, f], key) == if e.key == key then Some(e.value) else Get([f], key) {
      GetFirst(e, [f], key);
      assert [e] + [f] == [e, f];
    }
  }

  lemma BareShape(ref: string)
    ensures Get(Bare(ref).entries, Ref) == Some(JString(ref))
    ensures forall key: Key :: !key.Ref? ==> Get(Bare(ref).entries, key).None?
    ensures forall draft :: SubresourcesOf(draft, Bare(ref)) == [] && IdOf(draft, Bare(ref)).None?
  {
    hide Get, SubresourcesIn;
    forall draft ensures SubresourcesOf(draft, Bare(ref)) == [] {
      OneEntry(Entry(Ref, JString(ref)), draft);
    }
    OneEntry(Entry(Ref, JString(ref)), Draft4);
  }

  lemma PlainLookup(reg: Registry, base: Uri, ref: string)
    requires reg.resolve == Absolute() && '#' !in ref && ref in reg.resources
    ensures Lookup(reg, base, ref) == Some(Target(reg.resources[ref].contents, ref, reg.resources[ref].draft))
  {
  }

  lemma OneRunIsComplete(rootDraft: Draft, contents: Json, draft: Draft)
    requires Covered(TwoResources(rootDraft, contents, draft), PlaceOf(Linked(contents, draft), rootDraft), {"r", "b"})
    ensures Complete(TwoResources(rootDraft, contents, draft), "r", rootDraft, Bare("b"),
                     OneRun(rootDraft, Linked(contents, draft)))
  {
    hide Embed, SubresourcesOf, IdOf, Get;
    var reg, t, root := TwoResources(rootDraft, contents, draft), Linked(contents, draft), Bare("b");
    var start := Place(root, rootDraft, "r");
    BareShape("b");
    PlainLookup(reg, "r", "b");
    assert [t][0] == t && Bases([t]) == {"b"} by {
      BasesGrow([], t);
      assert [] + [t] == [t];
    }
    assert ExternalRef(root) == Some("b") && !StartsWithHash("b");
    assert Scope(reg, "r", rootDraft, root) == Some("r");
    LinkHere(reg, start, t);
  }

  // The only schema in the bundle with an identifier is the definition.
  lemma BareBundleShape(rootDraft: Draft, t: Target)
    ensures BareBundle(rootDraft, t)
            == JObject([Entry(Ref, JString("b")),
                        Entry(DefinitionsKeyword(rootDraft), JObject([Entry(Other(t.base), Embed(t, rootDraft))]))])
    ensures SubresourcesOf(rootDraft, BareBundle(rootDraft, t)) == [Embed(t, rootDraft)]
    ensures IdOf(rootDraft, BareBundle(rootDraft, t)).None?
  {
    hide Embed, Get, SubresourcesIn, Merged, Insert, ValuesOf, EnsureEmbeddedIds;
    var e, def := Entry(Ref, JString("b")), Entry(Other(t.base), Embed(t, rootDraft));
    var box := Entry(DefinitionsKeyword(rootDraft), JObject([def]));
    BareShape("b");
    MergedIntoNothing([def]);
    InsertSecond(e, box);
    OneValue(def);
    TwoEntries(e, box, rootDraft);
  }

  lemma InsertSecond(e: Entry, f: Entry)
    requires e.key != f.key
    ensures Insert([e], f.key, f.value) == [e, f]
  {
    assert [e][1..] == [] && Insert([], f.key, f.value) == [f];
  }

  lemma OneValue(e: Entry)
    ensures ValuesOf([e], false) == [e.value]
  {
    assert [e][1..] == [];
  }

  lemma BareIndex(rootDraft: Draft, t: Target, reg: Registry, uri: Uri, r: Resource)
    requires SubresourcesOf(Detect(rootDraft, Embed(t, rootDraft)), Embed(t, rootDraft)) == []
    ensures Indexed(reg, "r", rootDraft, BareBundle(rootDraft, t), uri, r)
            <==> FoundAt(reg, "r", rootDraft, Embed(t, rootDraft), uri)
                 && r == Resource(Embed(t, rootDraft), Detect(rootDraft, Embed(t, rootDraft)))
  {
    hide Embed, Detect, SubresourcesOf, IdOf, WithDefs;
    BareBundleShape(rootDraft, t);
    var definition := Embed(t, rootDraft);
    var draft := Detect(rootDraft, definition);
    assert Indexed(reg, "r", rootDraft, BareBundle(rootDraft, t), uri, r)
           <==> Indexed(reg, "r", draft, definition, uri, r) by {
      assert definition in SubresourcesOf(rootDraft, BareBundle(rootDraft, t));
    }
    IdNeedsObject(draft, definition);
  }

  lemma IdNeedsObject(draft: Draft, schema: Json)
    ensures IdOf(draft, schema).Some? ==> schema.JObject?
  {
  }

  // What the root and its bundle say at the top.
  lemma BareIsPlain(rootDraft: Draft, t: Target)
    ensures ExternalRef(Bare("b")) == Some("b") && ExternalRef(BareBundle(rootDraft, t)) == Some("b")
    ensures BareBundle(rootDraft, t).JObject?
    ensures IdOf(rootDraft, Bare("b")).None? && IdOf(rootDraft, BareBundle(rootDraft, t)).None?
    ensures NoFragments(rootDraft, Bare("b"))
    ensures RootBase(TwoResources(rootDraft, t.contents, t.draft), "r", rootDraft, Bare("b")) == "r"
  {
    hide Embed, WithDefs, SubresourcesOf;
    BareShape("b");
    BareBundleShape(rootDraft, t);
  }

  lemma BareIsClear(rootDraft: Draft, t: Target)
    requires t == Linked(t.contents, t.draft)
    ensures AllClear(TwoResources(rootDraft, t.contents, t.draft), "r", rootDraft, Bare("b"), OneRun(rootDraft, t))
  {
    hide Embed, WithDefs, SubresourcesOf, Get, IdOf;
    BareShape("b");
    NothingThere(Other("b"));
  }

  lemma NothingThere(key: Key)
    ensures Get([], key).None?
  {
  }

  lemma BareOnlyDefinitions(reg: Registry, rootDraft: Draft, t: Target)
    requires reg.resolve == Absolute() && t.base == "b"
    requires SubresourcesOf(Detect(rootDraft, Embed(t, rootDraft)), Embed(t, rootDraft)) == []
    requires IdOf(Detect(rootDraft, Embed(t, rootDraft)), Embed(t, rootDraft)) in {None, Some("b")}
    ensures OnlyDefinitions(reg, "r", rootDraft, Bare("b"), OneRun(rootDraft, t))
  {
    hide Embed, Detect, IdOf, WithDefs, Indexed, SubresourcesOf;
    var bundle := BareBundle(rootDraft, t);
    assert RootBase(reg, "r", rootDraft, Bare("b")) == "r" by { BareShape("b"); }
    forall uri, r: Resource
      ensures Indexed(reg, "r", rootDraft, bundle, uri, r) ==>
                uri == "b" && FoundAt(reg, "r", rootDraft, Embed(t, rootDraft), uri)
                && r == Resource(Embed(t, rootDraft), Detect(rootDraft, Embed(t, rootDraft)))
    {
      BareIndex(rootDraft, t, reg, uri, r);
    }
  }

  // There is such a registry.
  lemma BareIndexExists(reg: Registry, rootDraft: Draft, t: Target)
    requires reg.resolve == Absolute() && t.base == "b"
    requires SubresourcesOf(Detect(rootDraft, Embed(t, rootDraft)), Embed(t, rootDraft)) == []
    requires IdOf(Detect(rootDraft, Embed(t, rootDraft)), Embed(t, rootDraft)) in {None, Some("b")}
    ensures exists index :: IsIndex(index, reg, "r", rootDraft, BareBundle(rootDraft, t))
  {
    hide Embed, Detect, IdOf, WithDefs, Indexed, SubresourcesOf;
    var bundle, definition := BareBundle(rootDraft, t), Embed(t, rootDraft);
    var top, r := Resource(bundle, rootDraft), Resource(definition, Detect(rootDraft, definition));
    var resources := if FoundAt(reg, "r", rootDraft, definition, "b") then map["r" := top, "b" := r] else map["r" := top];
    forall uri, r': Resource
      ensures Indexed(reg, "r", rootDraft, bundle, uri, r') <==> uri == "b" && uri in resources && r' == r
    {
      BareIndex(rootDraft, t, reg, uri, r');
    }
    assert IsIndex(Registry(resources, map[], reg.resolve), reg, "r", rootDraft, bundle);
  }

  lemma IndexResolves(index: Registry, reg: Registry, rootUri: Uri, draft: Draft, bundle: Json)
    requires IsIndex(index, reg, rootUri, draft, bundle)
    ensures index.resolve == reg.resolve
  {
  }

  // ---------------------------------------------------------------- a draft that is lost

  // Keywords of 2020-12 without `$schema`, registered as 2020-12.
  function TupleSchema(): Json {
    JObject([Entry(PrefixItems, JArray([JBool(true)]))])
  }

  function EmbeddedTuple(): Json {
    JObject([Entry(PrefixItems, JArray([JBool(true)])), Entry(Id, JString("b"))])
  }

  lemma TupleEmbeds()
    ensures Embed(Linked(TupleSchema(), Draft202012), Draft7) == EmbeddedTuple()
  {
    hide Get;
    OneEntry(Entry(PrefixItems, JArray([JBool(true)])), Draft7);
    assert TupleSchema().entries + [Entry(Id, JString("b"))] == EmbeddedTuple().entries;
  }

  lemma TupleHas(key: Key)
    ensures Get(TupleSchema().entries, key) == if key.PrefixItems? then Some(JArray([JBool(true)])) else None
    ensures Get(EmbeddedTuple().entries, key)
            == if key.PrefixItems? then Some(JArray([JBool(true)])) else if key.Id? then Some(JString("b")) else None
  {
    hide Get;
    OneEntry(Entry(PrefixItems, JArray([JBool(true)])), Draft7);
    TwoEntries(Entry(PrefixItems, JArray([JBool(true)])), Entry(Id, JString("b")), Draft7);
  }

  lemma TupleReads(draft: Draft)
    requires draft.Draft7? || draft.Draft202012?
    ensures Detect(draft, EmbeddedTuple()) == draft == Detect(draft, TupleSchema())
    ensures IdOf(draft, EmbeddedTuple()) == Some("b") && IdOf(draft, TupleSchema()).None?
    ensures ExternalRef(EmbeddedTuple()).None? && ExternalRef(TupleSchema()).None?
  {
    hide Get;
    TupleHas(SchemaUri);
    TupleHas(Ref);
    TupleHas(Id);
    assert TrimHashes("b") == "b";
  }

  lemma TupleParts(draft: Draft)
    requires draft.Draft7? || draft.Draft202012?
    ensures SubresourcesOf(draft, EmbeddedTuple()) == SubresourcesOf(draft, TupleSchema())
            == if draft.Draft7? then [] else [JBool(true)]
  {
    hide Get, SubresourcesIn;
    OneEntry(Entry(PrefixItems, JArray([JBool(true)])), draft);
    TwoEntries(Entry(PrefixItems, JArray([JBool(true)])), Entry(Id, JString("b")), draft);
  }

  function TupleField(draft: Draft): Field {
    if draft.Draft7? then Field(PrefixItems, JArray([JBool(true)]), []) else Field(PrefixItems, JArray([]), [Beyond])
  }

  lemma TupleFields(reg: Registry, draft: Draft)
    requires draft.Draft7? || draft.Draft202012?
    ensures UnfoldFields(reg, draft, "b", TupleSchema().entries, 0) == [TupleField(draft)]
    ensures UnfoldFields(reg, draft, "b", EmbeddedTuple().entries, 0) == [TupleField(draft)]
  {
    var items, id := Entry(PrefixItems, JArray([JBool(true)])), Entry(Id, JString("b"));
    var value := items.value;
    hide UnfoldFields;
    assert UnfoldField(reg, draft, "b", items, 0) == TupleField(draft) by {
      assert Select(LocationOf(draft, PrefixItems), value) == if draft.Draft7? then [] else [JBool(true)];
    }
    OneField(reg, draft, "b", items);
    FieldsAppend(reg, draft, "b", [items], id, 0);
    assert [items] + [id] == [items, id];
  }

  lemma OneField(reg: Registry, draft: Draft, scope: Uri, e: Entry)
    requires !Skipped(e)
    ensures UnfoldFields(reg, draft, scope, [e], 0) == [UnfoldField(reg, draft, scope, e, 0)]
  {
    hide UnfoldField;
    assert [e][1..] == [] && UnfoldFields(reg, draft, scope, [], 0) == [];
  }

  // How the embedded schema unfolds in a draft: draft-07 has no schemas in `prefixItems`.
  lemma TupleUnfolds(reg: Registry, draft: Draft, schema: Json)
    requires reg.resolve == Absolute() && (draft.Draft7? || draft.Draft202012?)
    requires schema == TupleSchema() || schema == EmbeddedTuple()
    ensures Unfold(reg, Place(schema, draft, "b"), 1) == Node(NoRef, [TupleField(draft)])
  {
    hide Get, IdOf, ExternalRef, Detect, UnfoldFields, TupleField;
    TupleReads(draft);
    TupleHas(Ref);
    TupleFields(reg, draft);
  }

  // A bare reference unfolds to what it leads to.
  lemma BareUnfolds(reg: Registry, draft: Draft, bundle: Json, n: nat)
    requires reg.resolve == Absolute() && bundle.JObject? && ExternalRef(bundle) == Some("b") && IdOf(draft, bundle).None?
    ensures Unfold(reg, Place(bundle, draft, "r"), n + 2).Node?
    ensures Unfold(reg, Place(bundle, draft, "r"), n + 2).ref
            == External(if "b" in reg.resources
                        then Unfold(reg, Place(reg.resources["b"].contents, reg.resources["b"].draft, "b"), n + 1)
                        else Lost)
  {
    hide Get, IdOf, ExternalRef, UnfoldFields;
    assert SplitAtHash("b") == ("b", "");
    if "b" in reg.resources { PlainLookup(reg, "r", "b"); }
  }

  lemma TupleCovered(reg: Registry)
    requires reg.resolve == Absolute()
    ensures Covered(reg, PlaceOf(Linked(TupleSchema(), Draft202012), Draft7), {"r", "b"})
  {
    hide Embed, IdOf, Get, SubresourcesOf, ExternalRef, EmbeddedTuple;
    TupleEmbeds();
    TupleReads(Draft202012);
    TupleParts(Draft202012);
    assert Scope(reg, "b", Draft202012, EmbeddedTuple()) == Some("b");
    assert Covered(reg, Place(JBool(true), Draft202012, "b"), {"r", "b"});
  }

  lemma TupleFragmentFree()
    ensures var t := Linked(TupleSchema(), Draft202012);
            FragmentFree(TwoResources(Draft7, t.contents, t.draft), "r", Draft7, Bare("b"), OneRun(Draft7, t))
  {
    hide Embed, IdOf, Get, SubresourcesOf, ExternalRef, TupleSchema;
    BareIsPlain(Draft7, Linked(TupleSchema(), Draft202012));
    TupleReads(Draft202012);
    TupleParts(Draft202012);
    PlainSchema(Draft202012);
  }

  lemma PlainSchema(draft: Draft)
    ensures NoFragments(draft, JBool(true))
  {
  }

  // The root is draft-07 and names no draft for "b", which was registered as 2020-12: the bundle has "b",
  // discoverable, but reads it as draft-07, in which `prefixItems` holds no schemas.
  lemma DraftIsLost()
    ensures var t := Linked(TupleSchema(), Draft202012);
            var reg, run := TwoResources(Draft7, t.contents, t.draft), OneRun(Draft7, t);
            && Complete(reg, "r", Draft7, Bare("b"), run) && FragmentFree(reg, "r", Draft7, Bare("b"), run)
            && AllClear(reg, "r", Draft7, Bare("b"), run) && OnlyDefinitions(reg, "r", Draft7, Bare("b"), run)
            && AllDiscoverable(reg, "r", Draft7, Bare("b"), run) && !DraftsKept(Draft7, run)
            && (exists index :: IsIndex(index, reg, "r", Draft7, BareBundle(Draft7, t)))
            && forall index :: IsIndex(index, reg, "r", Draft7, BareBundle(Draft7, t)) ==>
                 Unfold(index, Place(BareBundle(Draft7, t), Draft7, "r"), 2) != Unfold(reg, Place(Bare("b"), Draft7, "r"), 2)
  {
    hide Embed, Detect, IdOf, Get, SubresourcesOf, WithDefs, Unfold, Indexed, ExternalRef, Complete, IsIndex;
    hide TupleSchema, EmbeddedTuple;
    var t := Linked(TupleSchema(), Draft202012);
    var reg, run := TwoResources(Draft7, t.contents, t.draft), OneRun(Draft7, t);
    TupleEmbeds();
    TupleReads(Draft7);
    TupleReads(Draft202012);
    TupleParts(Draft7);
    TupleParts(Draft202012);
    TupleCovered(reg);
    OneRunIsComplete(Draft7, t.contents, t.draft);
    BareIsPlain(Draft7, t);
    TupleFragmentFree();
    BareIsClear(Draft7, t);
    BareOnlyDefinitions(reg, Draft7, t);
    BareIndexExists(reg, Draft7, t);
    DiscoverableExactly(reg, "r", Draft7, t);
    forall index | IsIndex(index, reg, "r", Draft7, BareBundle(Draft7, t))
      ensures Unfold(index, Place(BareBundle(Draft7, t), Draft7, "r"), 2) != Unfold(reg, Place(Bare("b"), Draft7, "r"), 2)
    {
      BundleFinds(index, reg, "r", Draft7, Bare("b"), run, t);
      IndexResolves(index, reg, "r", Draft7, BareBundle(Draft7, t));
      BareUnfolds(index, Draft7, BareBundle(Draft7, t), 0);
      BareUnfolds(reg, Draft7, Bare("b"), 0);
      TupleUnfolds(index, Draft7, EmbeddedTuple());
      TupleUnfolds(reg, Draft202012, TupleSchema());
    }
  }

  // ---------------------------------------------------------------- resources that are not found again

  // In no registry built from the bundle is there anything under "b", and the root has lost it.
  ghost predicate Loses(rootDraft: Draft, t: Target) {
    var reg, bundle := TwoResources(rootDraft, t.contents, t.draft), BareBundle(rootDraft, t);
    && (exists index :: IsIndex(index, reg, "r", rootDraft, bundle))
    && forall index :: IsIndex(index, reg, "r", rootDraft, bundle) ==>
      && "b" !in index.resources
      && Unfold(index, Place(bundle, rootDraft, "r"), 2) != Unfold(reg, Place(Bare("b"), rootDraft, "r"), 2)
  }

  lemma UndiscoverableIsLost(rootDraft: Draft, t: Target)
    requires t == Linked(t.contents, t.draft)
    requires var definition := Embed(t, rootDraft);
             && SubresourcesOf(Detect(rootDraft, definition), definition) == []
             && IdOf(Detect(rootDraft, definition), definition).None?
    requires var reg := TwoResources(rootDraft, t.contents, t.draft);
             && Covered(reg, PlaceOf(t, rootDraft), {"r", "b"})
             && !Discoverable(reg, "r", rootDraft, t) && Scope(reg, "b", t.draft, t.contents).Some?
    ensures Complete(TwoResources(rootDraft, t.contents, t.draft), "r", rootDraft, Bare("b"), OneRun(rootDraft, t))
    ensures Loses(rootDraft, t)
  {
    hide Embed, Detect, IdOf, Get, SubresourcesOf, WithDefs, Indexed, ExternalRef, Complete, IsIndex, Discoverable;
    var reg, run := TwoResources(rootDraft, t.contents, t.draft), OneRun(rootDraft, t);
    OneRunIsComplete(rootDraft, t.contents, t.draft);
    BareIsPlain(rootDraft, t);
    BareIsClear(rootDraft, t);
    BareOnlyDefinitions(reg, rootDraft, t);
    BareIndexExists(reg, rootDraft, t);
    forall index | IsIndex(index, reg, "r", rootDraft, BareBundle(rootDraft, t))
      ensures "b" !in index.resources
      ensures Unfold(index, Place(BareBundle(rootDraft, t), rootDraft, "r"), 2)
              != Unfold(reg, Place(Bare("b"), rootDraft, "r"), 2)
    {
      BundleFinds(index, reg, "r", rootDraft, Bare("b"), run, t);
      IndexResolves(index, reg, "r", rootDraft, BareBundle(rootDraft, t));
      BareUnfolds(index, rootDraft, BareBundle(rootDraft, t), 0);
      BareUnfolds(reg, rootDraft, Bare("b"), 0);
      assert !Unfold(reg, Place(t.contents, t.draft, "b"), 1).Lost?;
    }
  }

  // A boolean schema has no place for an identifier.
  lemma BooleanIsNotFound()
    ensures var t := Linked(JBool(true), Draft202012);
            && Complete(TwoResources(Draft202012, t.contents, t.draft), "r", Draft202012, Bare("b"), OneRun(Draft202012, t))
            && Loses(Draft202012, t)
  {
    hide WithDefs, Unfold, Indexed, Complete, Loses, Bare;
    UndiscoverableIsLost(Draft202012, Linked(JBool(true), Draft202012));
  }

  // In draft-07 an identifier beside `$ref` is ignored.
  lemma LegacyReferenceIsNotFound()
    ensures var t := Linked(Bare("r"), Draft7);
            && Complete(TwoResources(Draft7, t.contents, t.draft), "r", Draft7, Bare("b"), OneRun(Draft7, t))
            && Loses(Draft7, t)
  {
    hide WithDefs, Unfold, Indexed, Complete, Loses, Get, SubresourcesOf, Embed, ExternalRef, IdOf, Detect, Lookup, Covered;
    var t := Linked(Bare("r"), Draft7);
    BareShape("r");
    LegacyShape();
    LegacyCovered(TwoResources(Draft7, t.contents, t.draft));
    UndiscoverableIsLost(Draft7, t);
  }

  lemma LegacyShape()
    ensures var t := Linked(Bare("r"), Draft7);
            var definition := Embed(t, Draft7);
            && definition.JObject? && Detect(Draft7, definition) == Draft7 == Detect(Draft7, t.contents)
            && SubresourcesOf(Draft7, definition) == [] && IdOf(Draft7, definition).None?
            && ExternalRef(definition) == Some("r")
            && Get(t.contents.entries, Ref).Some?
  {
    hide Get, SubresourcesIn, DraftOfUri, Embed, LocationOf;
    BareShape("r");
    LegacyEmbeds();
    TwoEntries(Entry(Ref, JString("r")), Entry(Id, JString("b")), Draft7);
    assert LocationOf(Draft7, Ref).Nowhere? && LocationOf(Draft7, Id).Nowhere? by { NoLegacySchemas(); }
  }

  lemma NoLegacySchemas()
    ensures LocationOf(Draft7, Ref).Nowhere? && LocationOf(Draft7, Id).Nowhere?
  {
  }

  lemma LegacyEmbeds()
    ensures Embed(Linked(Bare("r"), Draft7), Draft7) == JObject([Entry(Ref, JString("r")), Entry(Id, JString("b"))])
  {
    hide Get;
    BareShape("r");
    assert Bare("r").entries + [Entry(Id, JString("b"))] == [Entry(Ref, JString("r")), Entry(Id, JString("b"))];
  }

  lemma LegacyCovered(reg: Registry)
    requires reg.resolve == Absolute() && "r" in reg.resources
    ensures Covered(reg, PlaceOf(Linked(Bare("r"), Draft7), Draft7), {"r", "b"})
  {
    hide Embed, ExternalRef, IdOf, Get, SubresourcesOf, Lookup, Detect;
    LegacyShape();
    PlainLookup(reg, "b", "r");
  }

  // ---------------------------------------------------------------- a reference under a keyword

  // The root {"properties": {"x": {"$ref": "b"}}} of any draft: whatever run finishes has "b".
  lemma PropertyIsFollowed(reg: Registry, draft: Draft, run: State)
    requires reg.resolve == Absolute() && "b" in reg.resources
    requires Complete(reg, "r", draft, JObject([Entry(Properties, JObject([Entry(Other("x"), Bare("b"))]))]), run)
    ensures exists d :: d in run.done && d.base == "b"
  {
    hide Complete, Get, IdOf, ExternalRef, Lookup;
    var c, es := Bare("b"), [Entry(Other("x"), Bare("b"))];
    var root := [Entry(Properties, JObject(es))];
    BareShape("b");
    OneEntry(root[0], draft);
    assert es[0].value == c && HasValue(es, c);
    assert Found(draft, root, Properties, c);
    assert IdOf(draft, JObject(root)).None? && ExternalRef(c) == Some("b") by { BareIsExternal(draft, JObject(es)); }
    PlainLookup(reg, "r", "b");
    ReferenceIsFollowed(reg, "r", draft, JObject(root), run, Properties, c,
                        Target(reg.resources["b"].contents, "b", reg.resources["b"].draft));
  }

  lemma BareIsExternal(draft: Draft, value: Json)
    ensures ExternalRef(Bare("b")) == Some("b") && IdOf(draft, JObject([Entry(Properties, value)])).None?
  {
    hide Get;
    BareShape("b");
    OneEntry(Entry(Properties, value), draft);
  }

  // ---------------------------------------------------------------- two fragments of one document

  // The root refers to two parts of "d"; one part refers to "x", the other to "y".
  function TwoParts(): Json {
    JObject([Entry(AllOf, JArray([Bare("d#a"), Bare("d#b")]))])
  }

  function PartA(): Target {
    Target(Bare("x"), "d", Draft202012)
  }

  function PartB(): Target {
    Target(Bare("y"), "d", Draft202012)
  }

  function Leaf(uri: Uri): Target {
    Target(JBool(true), uri, Draft202012)
  }

  function Parts(): Registry {
    Registry(map["r" := Resource(TwoParts(), Draft202012), "d" := Resource(JObject([]), Draft202012),
                 "x" := Resource(JBool(true), Draft202012), "y" := Resource(JBool(true), Draft202012)],
             map[("d", "a") := PartA(), ("d", "b") := PartB()], Absolute())
  }

  function PartsRoot(): Place {
    Place(TwoParts(), Draft202012, "r")
  }

  lemma PartLookup(base: Uri)
    ensures Lookup(Parts(), base, "d#a") == Some(PartA()) && Lookup(Parts(), base, "d#b") == Some(PartB())
  {
    SplitPart('a');
    SplitPart('b');
    assert "d#" + "a" == "d#a" && "d#" + "b" == "d#b";
  }

  lemma SplitPart(c: char)
    requires c != '#'
    ensures SplitAtHash("d#" + [c]) == ("d", [c])
  {
    var s := "d#" + [c];
    assert "d#"[..1] == "d" && s[..2] == "d#" && s[1] == '#' && s[2] == c && "" + [c] == [c];
    assert SplitAtHash("d#") == ("d", "");
  }

  // Where a bare reference leads.
  lemma BareLinks(base: Uri, ref: string, t: Target)
    requires ref != "" && ref[0] != '#'
    ensures LinksTo(Parts(), Place(Bare(ref), Draft202012, base), t) <==> Lookup(Parts(), base, ref) == Some(t)
  {
    hide SubresourcesOf, IdOf, Get, Lookup, Parts;
    BareShape(ref);
    assert ExternalRef(Bare(ref)) == Some(ref);
  }

  lemma TwoPartsShape()
    ensures SubresourcesOf(Draft202012, TwoParts()) == [Bare("d#a"), Bare("d#b")]
    ensures ExternalRef(TwoParts()).None? && Scope(Parts(), "r", Draft202012, TwoParts()) == Some("r")
  {
    hide Get, SubresourcesIn;
    OneEntry(Entry(AllOf, JArray([Bare("d#a"), Bare("d#b")])), Draft202012);
  }

  lemma RootLinks(t: Target)
    ensures LinksTo(Parts(), PartsRoot(), t) <==> t == PartA() || t == PartB()
  {
    hide SubresourcesOf, IdOf, Get, Lookup, ExternalRef, Scope, Parts;
    TwoPartsShape();
    BareLinks("r", "d#a", t);
    BareLinks("r", "d#b", t);
    PartLookup("r");
    var subs := [Bare("d#a"), Bare("d#b")];
    assert Bare("d#a") in subs && Bare("d#b") in subs;
  }

  lemma PartLinks(t: Target)
    ensures LinksTo(Parts(), Original(PartA()), t) <==> t == Leaf("x")
    ensures LinksTo(Parts(), Original(PartB()), t) <==> t == Leaf("y")
    ensures !LinksTo(Parts(), Original(Leaf("x")), t) && !LinksTo(Parts(), Original(Leaf("y")), t)
  {
    hide SubresourcesOf, IdOf, Get, Scope, ExternalRef;
    BareLinks("d", "x", t);
    BareLinks("d", "y", t);
    PlainLookup(Parts(), "d", "x");
    PlainLookup(Parts(), "d", "y");
  }

  lemma {:induction false} PartsLogged(run: State, i: nat)
    requires Complete(Parts(), "r", Draft202012, TwoParts(), run) && i < |run.log|
    ensures run.log[i] in {PartA(), PartB(), Leaf("x"), Leaf("y")}
    ensures run.log[i] == Leaf("x") ==> PartA() in run.log
    ensures run.log[i] == Leaf("y") ==> PartB() in run.log
    decreases i
  {
    hide Consistent, Covered, LinksTo, Embed, Bare, TwoParts, Parts;
    var t := run.log[i];
    RootLinks(t);
    if !LinksTo(Parts(), PartsRoot(), t) {
      var j :| 0 <= j < i && LinksTo(Parts(), PlaceOf(run.log[j], Draft202012), t);
      PartsLogged(run, j);
      PartLinks(t);
      EmbeddedPartLinks(run.log[j], t);
    }
  }

  lemma EmbeddedPartLinks(from: Target, t: Target)
    requires from in {PartA(), PartB(), Leaf("x"), Leaf("y")}
    ensures LinksTo(Parts(), PlaceOf(from, Draft202012), t) == LinksTo(Parts(), Original(from), t)
  {
    hide LinksTo, Embed;
    if from.contents.JObject? {
      EmbedKeepsBody(Parts(), from, Draft202012);
      SameBodyLinks(Parts(), Original(from), PlaceOf(from, Draft202012), t);
    } else {
      PlainEmbed(from);
    }
  }

  lemma PlainEmbed(t: Target)
    requires !t.contents.JObject?
    ensures Embed(t, Draft202012) == t.contents
  {
  }

  lemma BareCovered(base: Uri, ref: string, uris: set<Uri>)
    requires ref != "" && ref[0] != '#' && Lookup(Parts(), base, ref).Some? && Lookup(Parts(), base, ref).value.base in uris
    ensures Covered(Parts(), Place(Bare(ref), Draft202012, base), uris)
  {
    hide SubresourcesOf, IdOf, Get, Lookup, Parts;
    BareShape(ref);
    assert ExternalRef(Bare(ref)) == Some(ref);
  }

  // The run that takes the first part first.
  function PartsRun(): State {
    State([Entry(Other("x"), JBool(true)), Entry(Other("d"), Embed(PartA(), Draft202012))],
          {"r", "d", "x"}, [PartA(), Leaf("x")], [Leaf("x"), PartA()], {})
  }

  lemma PartsCovered()
    ensures var uris := {"r", "d", "x"};
            && Covered(Parts(), PartsRoot(), uris)
            && Covered(Parts(), PlaceOf(PartA(), Draft202012), uris) && Covered(Parts(), PlaceOf(Leaf("x"), Draft202012), uris)
  {
    hide SubresourcesOf, IdOf, Get, Lookup, ExternalRef, Scope, Embed;
    var uris := {"r", "d", "x"};
    PartLookup("r");
    TwoPartsShape();
    BareCovered("r", "d#a", uris);
    BareCovered("r", "d#b", uris);
    PlainLookup(Parts(), "d", "x");
    BareCovered("d", "x", uris);
    EmbedKeepsBody(Parts(), PartA(), Draft202012);
    SameBodyCovers(Parts(), Original(PartA()), PlaceOf(PartA(), Draft202012), uris);
    PlainEmbed(Leaf("x"));
    PlainPlace(Parts(), PlaceOf(Leaf("x"), Draft202012), uris);
  }

  lemma PartsRunIsConsistent()
    ensures Consistent(Parts(), "r", Draft202012, PartsRun())
  {
    hide Covered, Embed, Bare, TwoParts, Parts, PlaceOf;
    var a, x := PartA(), Leaf("x");
    PartsCovered();
    PlainEmbed(x);
    assert Bases([]) == {};
    BasesGrow([], a);
    BasesGrow([a], x);
    BasesGrow([], x);
    BasesGrow([x], a);
    assert [] + [a] == [a] && [a] + [x] == [a, x] && [] + [x] == [x] && [x] + [a] == [x, a];
  }

  lemma PartsRunIsComplete()
    ensures Complete(Parts(), "r", Draft202012, TwoParts(), PartsRun())
  {
    hide Consistent, Covered, LinksTo, Embed, Bare, TwoParts, Parts;
    PartsRunIsConsistent();
    PartsCovered();
    RootLinks(PartA());
    PartLinks(Leaf("x"));
    EmbeddedPartLinks(PartA(), Leaf("x"));
    assert PartsRun().log[0] == PartA();
  }

  // Both "x" and "y" can be reached, but whatever order the walk takes, only one of the two parts is
  // followed, and what the other refers to is not in the bundle.
  lemma SecondFragmentIsLost(run: State)
    requires Complete(Parts(), "r", Draft202012, TwoParts(), run)
    ensures Reachable(Parts(), PartsRoot(), Leaf("x")) && Reachable(Parts(), PartsRoot(), Leaf("y"))
    ensures Leaf("x") !in run.done || Leaf("y") !in run.done
    ensures !OneTargetPerUri(Parts(), Target(TwoParts(), "r", Draft202012))
  {
    hide Covered, LinksTo, Embed, Bare, TwoParts, Parts, Reached;
    RootLinks(PartA());
    RootLinks(PartB());
    PartLinks(Leaf("x"));
    PartLinks(Leaf("y"));
    OneLink(Parts(), PartsRoot(), PartA());
    OneLink(Parts(), PartsRoot(), PartB());
    ChainGrows(Parts(), PartsRoot(), [PartA()], Leaf("x"));
    ChainGrows(Parts(), PartsRoot(), [PartB()], Leaf("y"));
    assert Reachable(Parts(), PartsRoot(), PartA()) && Reachable(Parts(), PartsRoot(), PartB());
    var top := Target(TwoParts(), "r", Draft202012);
    DifferentParts();
    assert Among(Parts(), top, PartA()) && Among(Parts(), top, PartB());
    NotBothLeaves(run);
  }

  lemma NotBothLeaves(run: State)
    requires Complete(Parts(), "r", Draft202012, TwoParts(), run)
    ensures Leaf("x") !in run.done || Leaf("y") !in run.done
  {
    hide Covered, LinksTo, Embed, Bare, TwoParts, Parts, Reached;
    DifferentParts();
    forall leaf | leaf in run.done
      ensures leaf == Leaf("x") ==> PartA() in run.log
      ensures leaf == Leaf("y") ==> PartB() in run.log
    {
      var i :| 0 <= i < |run.log| && run.log[i] == leaf;
      PartsLogged(run, i);
    }
    assert PartA() !in run.log || PartB() !in run.log by {
      OneOfEachBase(run);
    }
  }

  lemma OneOfEachBase(run: State)
    requires DistinctBases(run.log)
    ensures PartA() !in run.log || PartB() !in run.log
  {
    DifferentParts();
    forall i, j | 0 <= i < |run.log| && 0 <= j < |run.log| ensures run.log[i] != PartA() || run.log[j] != PartB() {
    }
  }

  lemma DifferentParts()
    ensures PartA() != PartB() && PartA().base == PartB().base
  {
    assert "x"[0] != "y"[0];
  }
}
