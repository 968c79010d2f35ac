/**
  The bundle read on its own: the registry that is built from it, what it finds, and when it means the
  same as the original.
*/
module BundleIndex {
  import opened Schema
  import opened Bundler
  import opened BundleMeaning
  import opened BundleReach
  import opened Options

  // ---------------------------------------------------------------- building a registry

  // resolve_id: an identifier that is an anchor leaves the base as it is.
  function IndexBase(reg: Registry, base: Uri, id: string): Option<Uri> {
    if StartsWithHash(id) then Some(base) else reg.resolve(base, id)
  }

  function IndexScope(reg: Registry, base: Uri, draft: Draft, schema: Json): Option<Uri> {
    match IdOf(draft, schema)
    case None => Some(base)
    case Some(id) => IndexBase(reg, base, id)
  }

  // process_queue: a schema with an identifier is entered under its base, and so are all those below it,
  // each read in the draft that it declares or inherits.
  ghost predicate Indexed(reg: Registry, base: Uri, draft: Draft, schema: Json, uri: Uri, r: Resource)
    decreases schema
  {
    schema.JObject? &&
    var scope := IndexScope(reg, base, draft, schema);
    scope.Some? &&
    ((IdOf(draft, schema).Some? && scope.value == uri && r == Resource(schema, draft))
     || exists c :: c in SubresourcesOf(draft, schema) && Indexed(reg, scope.value, Detect(draft, c), c, uri, r))
  }

  // What the bundle has under a URI: itself under the URI of the root, or a schema in it.
  ghost predicate InBundle(reg: Registry, rootUri: Uri, draft: Draft, bundle: Json, uri: Uri, r: Resource) {
    (uri == rootUri && r == Resource(bundle, draft)) || Indexed(reg, rootUri, draft, bundle, uri, r)
  }

  // A registry built from the bundle alone, whichever schema it keeps where several claim one URI.
  ghost predicate IsIndex(index: Registry, reg: Registry, rootUri: Uri, draft: Draft, bundle: Json) {
    && index.resolve == reg.resolve
    && (forall uri :: uri in index.resources ==> InBundle(reg, rootUri, draft, bundle, uri, index.resources[uri]))
    && forall uri, r :: InBundle(reg, rootUri, draft, bundle, uri, r) ==> uri in index.resources
  }

  // The base of the root schema, against which the identifiers of its definitions are read.
  function RootBase(reg: Registry, rootUri: Uri, rootDraft: Draft, root: Json): Uri {
    var scope := IndexScope(reg, rootUri, rootDraft, root);
    if scope.Some? then scope.value else rootUri
  }

  // ---------------------------------------------------------------- finding an embedded resource

  // Is a definition found under the URI, by its own identifier?
  predicate FoundAt(reg: Registry, base: Uri, draft: Draft, definition: Json, uri: Uri) {
    match IdOf(Detect(draft, definition), definition)
    case Some(id) => IndexBase(reg, base, id) == Some(uri)
    case None => false
  }

  // A definition whose identifier is an anchor is found under the base it stands in and under nothing else.
  lemma AnchorIsNoIdentifier(reg: Registry, base: Uri, draft: Draft, definition: Json, id: string, uri: Uri)
    requires IdOf(Detect(draft, definition), definition) == Some(id) && "#" <= id
    ensures FoundAt(reg, base, draft, definition, uri) <==> uri == base
  {
  }

  // Exactly which targets can be found again by the identifier of their embedded copy.
  predicate Discoverable(reg: Registry, rootBase: Uri, rootDraft: Draft, t: Target) {
    t.contents.JObject? &&
    var draft := Detect(rootDraft, t.contents);
    && (IsLegacy(draft) ==> Get(t.contents.entries, Ref).None?)
    && match Get(t.contents.entries, IdKeyword(draft))
       case None => IdKeyword(draft) == IdKeyword(rootDraft) || IdKeyword(draft) == IdKeyword(t.draft)
       case Some(JString(id)) =>
         !(IsLegacy(draft) && StartsWithHash(id)) && IndexBase(reg, rootBase, TrimHashes(id)) == Some(t.base)
       case Some(_) => false
  }

  lemma DiscoverableExactly(reg: Registry, rootBase: Uri, rootDraft: Draft, t: Target)
    requires IsAbsolute(reg, t.base) && reg.resolve(rootBase, t.base) == Some(t.base)
    ensures FoundAt(reg, rootBase, rootDraft, Embed(t, rootDraft), t.base) <==> Discoverable(reg, rootBase, rootDraft, t)
    ensures Detect(rootDraft, Embed(t, rootDraft)) == Detect(rootDraft, t.contents)
  {
    hide DraftOfUri, Get, EnsureEmbeddedIds;
    if t.contents.JObject? {
      EmbeddedGet(t, rootDraft, SchemaUri);
      EmbeddedGet(t, rootDraft, Ref);
      EmbeddedGet(t, rootDraft, IdKeyword(Detect(rootDraft, t.contents)));
      assert t.base[|t.base| - 1] in t.base && TrimHashes(t.base) == t.base && !StartsWithHash(t.base);
    }
  }

  // What has to hold of the root and the URIs around one embedded resource: its URI is absolute, and the
  // root has no definition of its own under it.
  predicate Clear(reg: Registry, rootUri: Uri, rootDraft: Draft, root: Json, t: Target) {
    && IsAbsolute(reg, t.base) && reg.resolve(RootBase(reg, rootUri, rootDraft, root), t.base) == Some(t.base)
    && root.JObject? && Get(Existing(root.entries, rootDraft), Other(t.base)).None?
  }

  // Under the URI of the root the bundle has only itself, and under that of an embedded resource only the
  // definition made from it, or copies of that: no nested identifier claims the URI for something else.
  ghost predicate OnlyDefinitions(reg: Registry, rootUri: Uri, rootDraft: Draft, root: Json, run: State) {
    var bundle := WithDefs(root, run.defs, rootDraft);
    && (forall r :: InBundle(reg, rootUri, rootDraft, bundle, rootUri, r) ==> r == Resource(bundle, rootDraft))
    && forall t, r :: t in run.done && InBundle(reg, rootUri, rootDraft, bundle, t.base, r) ==>
         && FoundAt(reg, RootBase(reg, rootUri, rootDraft, root), rootDraft, Embed(t, rootDraft), t.base)
         && r == Resource(Embed(t, rootDraft), Detect(rootDraft, Embed(t, rootDraft)))
  }

  lemma SameIndexScope(reg: Registry, rootUri: Uri, draft: Draft, root: Json, defs: seq<Entry>)
    requires Distinct(defs)
    ensures IndexScope(reg, rootUri, draft, WithDefs(root, defs, draft)) == IndexScope(reg, rootUri, draft, root)
  {
    hide Get, Insert, Merged, Existing;
    if defs != [] && root.JObject? { MergeKeeps(root, defs, draft); }
  }

  lemma RootIsIndexed(reg: Registry, rootUri: Uri, rootDraft: Draft, root: Json, run: State)
    requires Complete(reg, rootUri, rootDraft, root, run) && root.JObject?
    ensures IndexScope(reg, rootUri, rootDraft, root).Some?
  {
    hide Consistent, Reached, IdOf;
  }

  // The definition of a resource is among those that are entered, under the URI its identifier says.
  lemma DefinitionIsIndexed(reg: Registry, rootUri: Uri, rootDraft: Draft, root: Json, run: State, t: Target)
    requires Complete(reg, rootUri, rootDraft, root, run) && t in run.done && Clear(reg, rootUri, rootDraft, root, t)
    requires FoundAt(reg, RootBase(reg, rootUri, rootDraft, root), rootDraft, Embed(t, rootDraft), t.base)
    ensures InBundle(reg, rootUri, rootDraft, WithDefs(root, run.defs, rootDraft), t.base,
                     Resource(Embed(t, rootDraft), Detect(rootDraft, Embed(t, rootDraft))))
  {
    hide Covered, Reached, Embed, Detect, Get, Merged, Insert, Existing, SubresourcesOf, IdOf, IsAbsolute;
    var i :| 0 <= i < |run.done| && run.done[i] == t;
    DefsDistinct(reg, rootUri, rootDraft, run);
    GetAt(run.defs, i);
    ContainerIsSearched(root, run.defs, rootDraft, Other(t.base));
    SameIndexScope(reg, rootUri, rootDraft, root, run.defs);
    RootIsIndexed(reg, rootUri, rootDraft, root, run);
    var definition, base := Embed(t, rootDraft), RootBase(reg, rootUri, rootDraft, root);
    IndexedHere(reg, base, Detect(rootDraft, definition), definition, t.base);
    MergeKeeps(root, run.defs, rootDraft);
  }

  lemma IndexedHere(reg: Registry, base: Uri, draft: Draft, schema: Json, uri: Uri)
    requires IdOf(draft, schema).Some? && IndexBase(reg, base, IdOf(draft, schema).value) == Some(uri)
    ensures Indexed(reg, base, draft, schema, uri, Resource(schema, draft))
  {
  }

  // The bundle read on its own finds an embedded resource under its URI exactly when it is discoverable;
  // otherwise the references that led to it lead nowhere.
  lemma BundleFinds(index: Registry, reg: Registry, rootUri: Uri, rootDraft: Draft, root: Json, run: State, t: Target)
    requires Complete(reg, rootUri, rootDraft, root, run) && t in run.done && Clear(reg, rootUri, rootDraft, root, t)
    requires IsIndex(index, reg, rootUri, rootDraft, WithDefs(root, run.defs, rootDraft))
    requires OnlyDefinitions(reg, rootUri, rootDraft, root, run)
    ensures t.base in index.resources <==> Discoverable(reg, RootBase(reg, rootUri, rootDraft, root), rootDraft, t)
    ensures t.base in index.resources ==>
              index.resources[t.base] == Resource(Embed(t, rootDraft), Detect(rootDraft, t.contents))
  {
    hide Complete, Embed, Detect, FoundAt, Discoverable, InBundle, WithDefs, RootBase;
    DiscoverableExactly(reg, RootBase(reg, rootUri, rootDraft, root), rootDraft, t);
    if FoundAt(reg, RootBase(reg, rootUri, rootDraft, root), rootDraft, Embed(t, rootDraft), t.base) {
      DefinitionIsIndexed(reg, rootUri, rootDraft, root, run, t);
    }
  }

  // It finds it with the draft that the original has exactly when the draft can also be told from the
  // resource itself, or is the root's.
  lemma BundleFindsWithDraft(index: Registry, reg: Registry, rootUri: Uri, rootDraft: Draft, root: Json, run: State, t: Target)
    requires Complete(reg, rootUri, rootDraft, root, run) && t in run.done && Clear(reg, rootUri, rootDraft, root, t)
    requires IsIndex(index, reg, rootUri, rootDraft, WithDefs(root, run.defs, rootDraft))
    requires OnlyDefinitions(reg, rootUri, rootDraft, root, run)
    ensures t.base in index.resources && index.resources[t.base] == Resource(Embed(t, rootDraft), t.draft)
            <==> Discoverable(reg, RootBase(reg, rootUri, rootDraft, root), rootDraft, t)
                 && Detect(rootDraft, t.contents) == t.draft
  {
    hide Complete, Embed, Detect, Discoverable, InBundle, WithDefs, RootBase, IsIndex, OnlyDefinitions;
    BundleFinds(index, reg, rootUri, rootDraft, root, run, t);
  }

  // ---------------------------------------------------------------- meaning is preserved

  ghost predicate AllClear(reg: Registry, rootUri: Uri, rootDraft: Draft, root: Json, run: State) {
    forall t :: t in run.done ==> Clear(reg, rootUri, rootDraft, root, t)
  }

  // The draft of every embedded resource is the one that the bundle's registry will read it in.
  ghost predicate DraftsKept(rootDraft: Draft, run: State) {
    forall t :: t in run.done ==> Detect(rootDraft, t.contents) == t.draft
  }

  ghost predicate AllDiscoverable(reg: Registry, rootUri: Uri, rootDraft: Draft, root: Json, run: State) {
    forall t :: t in run.done ==> Discoverable(reg, RootBase(reg, rootUri, rootDraft, root), rootDraft, t)
  }

  // The bundle's own registry serves every embedded resource as it was exactly when each is discoverable
  // and keeps its draft.
  lemma ServesExactly(index: Registry, reg: Registry, rootUri: Uri, rootDraft: Draft, root: Json, run: State)
    requires Complete(reg, rootUri, rootDraft, root, run) && AllClear(reg, rootUri, rootDraft, root, run)
    requires IsIndex(index, reg, rootUri, rootDraft, WithDefs(root, run.defs, rootDraft))
    requires OnlyDefinitions(reg, rootUri, rootDraft, root, run)
    ensures Serves(index, reg, rootUri, rootDraft, root, run)
            <==> AllDiscoverable(reg, rootUri, rootDraft, root, run) && DraftsKept(rootDraft, run)
  {
    hide Complete, Embed, Detect, Discoverable, WithDefs, RootBase, Indexed, Clear;
    var bundle := WithDefs(root, run.defs, rootDraft);
    assert InBundle(reg, rootUri, rootDraft, bundle, rootUri, Resource(bundle, rootDraft));
    forall t | t in run.done
      ensures t.base in index.resources && index.resources[t.base] == Resource(Embed(t, rootDraft), t.draft)
              <==> Discoverable(reg, RootBase(reg, rootUri, rootDraft, root), rootDraft, t)
                   && Detect(rootDraft, t.contents) == t.draft
    {
      BundleFindsWithDraft(index, reg, rootUri, rootDraft, root, run, t);
    }
  }

  // The bundle means, read on its own, what the root means in the registry.
  lemma MeaningIsPreserved(index: Registry, reg: Registry, rootUri: Uri, rootDraft: Draft, root: Json, run: State, n: nat)
    requires Complete(reg, rootUri, rootDraft, root, run) && Readable(reg, rootUri, rootDraft, root, run)
    requires AllClear(reg, rootUri, rootDraft, root, run) && OnlyDefinitions(reg, rootUri, rootDraft, root, run)
    requires AllDiscoverable(reg, rootUri, rootDraft, root, run) && DraftsKept(rootDraft, run)
    requires IsIndex(index, reg, rootUri, rootDraft, WithDefs(root, run.defs, rootDraft))
    ensures Unfold(index, Place(WithDefs(root, run.defs, rootDraft), rootDraft, rootUri), n)
            == Unfold(reg, Place(root, rootDraft, rootUri), n)
  {
    hide *;
    ServesExactly(index, reg, rootUri, rootDraft, root, run);
    ServedMeansTheSame(index, reg, rootUri, rootDraft, root, run, n);
  }

  // In documents of one draft throughout, there is nothing more to ask of the references.
  lemma UniformMeaningIsPreserved(index: Registry, reg: Registry, rootUri: Uri, rootDraft: Draft, root: Json, run: State, n: nat)
    requires Complete(reg, rootUri, rootDraft, root, run) && FragmentFree(reg, rootUri, rootDraft, root, run)
    requires AllUniform(rootDraft, root, run)
    requires AllClear(reg, rootUri, rootDraft, root, run) && OnlyDefinitions(reg, rootUri, rootDraft, root, run)
    requires AllDiscoverable(reg, rootUri, rootDraft, root, run) && DraftsKept(rootDraft, run)
    requires IsIndex(index, reg, rootUri, rootDraft, WithDefs(root, run.defs, rootDraft))
    ensures Unfold(index, Place(WithDefs(root, run.defs, rootDraft), rootDraft, rootUri), n)
            == Unfold(reg, Place(root, rootDraft, rootUri), n)
  {
    hide *;
    UniformIsReadable(reg, rootUri, rootDraft, root, run);
    MeaningIsPreserved(index, reg, rootUri, rootDraft, root, run, n);
  }
}
