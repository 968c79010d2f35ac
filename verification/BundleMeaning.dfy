/**
  What a bundle means: its schemas, with every external reference replaced by what it refers to, to any
  depth, are the ones that the registry gives for the original.
*/
module BundleMeaning {
  import opened Schema
  import opened Bundler
  import opened Options

  // ---------------------------------------------------------------- reading

  // A nested schema is read in the draft that it declares, or else in that of the schema around it. The
  // walk does not look for a declared draft.
  function AsRead(c: Json, draft: Draft, base: Uri): Place {
    Place(c, Detect(draft, c), base)
  }

  // Some external reference at or below the place, as it is read, leads to t.
  ghost predicate LinksToAsRead(reg: Registry, p: Place, t: Target)
    decreases p.schema
  {
    p.schema.JObject? &&
    var scope := Scope(reg, p.base, p.draft, p.schema);
    scope.Some? &&
    ((ExternalRef(p.schema).Some? && Lookup(reg, scope.value, ExternalRef(p.schema).value) == Some(t))
     || exists c :: c in SubresourcesOf(p.draft, p.schema) && LinksToAsRead(reg, AsRead(c, p.draft, scope.value), t))
  }

  // Every identifier and every external reference at or below the place, as it is read, resolves, and no
  // reference has a fragment.
  ghost predicate ResolvesAsRead(reg: Registry, p: Place)
    decreases p.schema
  {
    p.schema.JObject? ==>
      var scope := Scope(reg, p.base, p.draft, p.schema);
      && scope.Some?
      && (ExternalRef(p.schema).Some? ==>
            '#' !in ExternalRef(p.schema).value && Lookup(reg, scope.value, ExternalRef(p.schema).value).Some?)
      && forall c :: c in SubresourcesOf(p.draft, p.schema) ==> ResolvesAsRead(reg, AsRead(c, p.draft, scope.value))
  }

  function Original(t: Target): Place {
    Place(t.contents, t.draft, t.base)
  }

  function Before(start: Place, c: seq<Target>, i: nat): Place
    requires i < |c|
  {
    if i == 0 then start else Original(c[i - 1])
  }

  // References, each read in the schema that the one before it leads to.
  ghost predicate ChainAsRead(reg: Registry, start: Place, c: seq<Target>) {
    forall i :: 0 <= i < |c| ==> LinksToAsRead(reg, Before(start, c, i), c[i])
  }

  ghost predicate ReachableAsRead(reg: Registry, start: Place, t: Target) {
    exists c :: c != [] && c[|c| - 1] == t && ChainAsRead(reg, start, c)
  }

  ghost predicate AmongRead(reg: Registry, top: Target, t: Target) {
    t == top || ReachableAsRead(reg, Original(top), t)
  }

  lemma ReadOn(reg: Registry, top: Target, from: Target, t: Target)
    requires AmongRead(reg, top, from) && LinksToAsRead(reg, Original(from), t)
    ensures ReachableAsRead(reg, Original(top), t)
  {
    hide LinksToAsRead;
    var start := Original(top);
    if from == top {
      assert Before(start, [t], 0) == start;
      assert ChainAsRead(reg, start, [t]);
    } else {
      var c :| c != [] && c[|c| - 1] == from && ChainAsRead(reg, start, c);
      var more := c + [t];
      assert forall i :: 0 <= i < |c| ==> Before(start, more, i) == Before(start, c, i) && more[i] == c[i];
      assert ChainAsRead(reg, start, more);
    }
  }

  // ---------------------------------------------------------------- unfolding

  datatype Tree = Beyond | Atom(value: Json) | Lost | Node(ref: RefTree, fields: seq<Field>)

  // A reference within the document keeps its text and the base URI it is read against.
  datatype RefTree = NoRef | LocalRef(base: Uri, ref: string) | External(tree: Tree)

  // A keyword: what is left of its value without the schemas in it, and those schemas.
  datatype Field = Field(key: Key, rest: Json, children: seq<Tree>)

  // Identifiers only name a schema and definitions only hold schemas to refer to.
  predicate Skipped(e: Entry) {
    e.key.Id? || e.key.LegacyId? || e.key.Defs? || e.key.Definitions? || (e.key.Ref? && e.value.JString?)
  }

  function Blank(es: seq<Entry>, objectsOnly: bool): (blank: seq<Entry>)
    ensures |blank| == |es|
  {
    if es == [] then []
    else [if objectsOnly && !es[0].value.JObject? then es[0] else es[0].(value := JObject([]))] + Blank(es[1..], objectsOnly)
  }

  function RestOf(location: Location, value: Json): Json {
    match location
    case Nowhere => value
    case Once => JNull
    case OnceIfObject => if value.JObject? then JNull else value
    case Elements => if value.JArray? then JArray([]) else value
    case ElementsOrOnce => if value.JArray? then JArray([]) else JNull
    case Values => if value.JObject? then JObject(Blank(value.entries, false)) else value
    case ObjectValues => if value.JObject? then JObject(Blank(value.entries, true)) else value
  }

  // Nothing is lost: a keyword's value can be told from its rest and its schemas.
  lemma FieldKeepsValue(location: Location, v: Json, w: Json)
    requires RestOf(location, v) == RestOf(location, w) && Select(location, v) == Select(location, w)
    ensures v == w
  {
    hide Blank, ValuesOf;
    if v.JObject? && w.JObject? {
      if location.Values? { BlankKeepsValues(v.entries, w.entries, false); }
      if location.ObjectValues? { BlankKeepsValues(v.entries, w.entries, true); }
    }
  }

  lemma {:induction false} BlankKeepsValues(es: seq<Entry>, fs: seq<Entry>, objectsOnly: bool)
    requires Blank(es, objectsOnly) == Blank(fs, objectsOnly) && ValuesOf(es, objectsOnly) == ValuesOf(fs, objectsOnly)
    ensures es == fs
    decreases |es|
  {
    if es != [] {
      assert fs != [];
      assert Blank(es, objectsOnly)[0] == Blank(fs, objectsOnly)[0];
      assert Blank(es, objectsOnly)[1..] == Blank(es[1..], objectsOnly) && Blank(fs, objectsOnly)[1..] == Blank(fs[1..], objectsOnly);
      FirstValue(es, objectsOnly);
      FirstValue(fs, objectsOnly);
      BlankKeepsValues(es[1..], fs[1..], objectsOnly);
      assert es == [es[0]] + es[1..] && fs == [fs[0]] + fs[1..];
    }
  }

  lemma FirstValue(es: seq<Entry>, objectsOnly: bool)
    requires es != []
    ensures var vs := ValuesOf(es, objectsOnly);
            if objectsOnly && !es[0].value.JObject? then vs == ValuesOf(es[1..], objectsOnly)
            else vs != [] && vs[0] == es[0].value && vs[1..] == ValuesOf(es[1..], objectsOnly)
  {
  }

  function Unfold(reg: Registry, p: Place, n: nat): Tree
    decreases n, 0, 0
  {
    if n == 0 then Beyond
    else if !p.schema.JObject? then Atom(p.schema)
    else
      match Scope(reg, p.base, p.draft, p.schema)
      case None => Lost
      case Some(scope) => Node(UnfoldRef(reg, p.schema, scope, n - 1),
                               UnfoldFields(reg, p.draft, scope, p.schema.entries, n - 1))
  }

  function UnfoldRef(reg: Registry, schema: Json, scope: Uri, n: nat): RefTree
    decreases n, 1, 0
  {
    match ExternalRef(schema)
    case Some(ref) => (
      match Lookup(reg, scope, ref)
      case Some(t) => External(Unfold(reg, Place(t.contents, t.draft, t.base), n))
      case None => External(Lost))
    case None =>
      if schema.JObject? && Get(schema.entries, Ref).Some? && Get(schema.entries, Ref).value.JString?
      then LocalRef(scope, Get(schema.entries, Ref).value.s)
      else NoRef
  }

  function UnfoldFields(reg: Registry, draft: Draft, scope: Uri, es: seq<Entry>, n: nat): seq<Field>
    decreases n, 2, |es|
  {
    if es == [] then []
    else (if Skipped(es[0]) then [] else [UnfoldField(reg, draft, scope, es[0], n)])
         + UnfoldFields(reg, draft, scope, es[1..], n)
  }

  function UnfoldField(reg: Registry, draft: Draft, scope: Uri, e: Entry, n: nat): Field
    decreases n, 2, 0
  {
    var location := LocationOf(draft, e.key);
    Field(e.key, RestOf(location, e.value), UnfoldAll(reg, draft, scope, Select(location, e.value), n))
  }

  function UnfoldAll(reg: Registry, draft: Draft, scope: Uri, schemas: seq<Json>, n: nat): (ts: seq<Tree>)
    ensures |ts| == |schemas|
    ensures forall i :: 0 <= i < |ts| ==> ts[i] == Unfold(reg, AsRead(schemas[i], draft, scope), n)
    decreases n, 1, |schemas|
  {
    if schemas == [] then []
    else [Unfold(reg, AsRead(schemas[0], draft, scope), n)] + UnfoldAll(reg, draft, scope, schemas[1..], n)
  }

  // A reference within the document is in the tree with its text and its base,
  lemma LocalRefStays(reg: Registry, p: Place, n: nat)
    requires p.schema.JObject? && Scope(reg, p.base, p.draft, p.schema).Some?
    requires Get(p.schema.entries, Ref).Some? && Get(p.schema.entries, Ref).value.JString?
    requires StartsWithHash(Get(p.schema.entries, Ref).value.s)
    ensures Unfold(reg, p, n + 1).Node?
    ensures Unfold(reg, p, n + 1).ref
            == LocalRef(Scope(reg, p.base, p.draft, p.schema).value, Get(p.schema.entries, Ref).value.s)
  {
    hide UnfoldFields, Scope;
  }

  // and so is every keyword but identifiers, definitions and the reference.
  lemma {:induction false} KeywordStays(reg: Registry, draft: Draft, scope: Uri, es: seq<Entry>, i: nat, n: nat)
    requires i < |es| && es[i].key !in {Id, LegacyId, Defs, Definitions, Ref}
    ensures UnfoldField(reg, draft, scope, es[i], n) in UnfoldFields(reg, draft, scope, es, n)
    decreases |es|
  {
    hide UnfoldField;
    if i > 0 { KeywordStays(reg, draft, scope, es[1..], i - 1, n); }
  }

  // ---------------------------------------------------------------- objects that gain an entry

  lemma {:induction false} GetAppend(es: seq<Entry>, e: Entry, key: Key)
    ensures Get(es + [e], key)
            == if Get(es, key).Some? then Get(es, key) else if e.key == key then Some(e.value) else None
    decreases |es|
  {
    if es == [] {
      assert [] + [e] == [e] && [e][1..] == [];
    } else {
      assert (es + [e])[1..] == es[1..] + [e];
      GetAppend(es[1..], e, key);
    }
  }

  lemma GetFirst(e: Entry, es: seq<Entry>, key: Key)
    ensures Get([e] + es, key) == if e.key == key then Some(e.value) else Get(es, key)
  {
    assert ([e] + es)[1..] == es;
  }

  lemma {:induction false} GetInsert(es: seq<Entry>, k: Key, v: Json, key: Key)
    ensures Get(Insert(es, k, v), key) == if key == k then Some(v) else Get(es, key)
    decreases |es|
  {
    hide Get;
    if es == [] {
      assert [Entry(k, v)] + [] == [Entry(k, v)];
      GetFirst(Entry(k, v), [], key);
    } else {
      assert es == [es[0]] + es[1..];
      GetFirst(es[0], es[1..], key);
      if es[0].key == k {
        GetFirst(Entry(k, v), es[1..], key);
      } else {
        GetInsert(es[1..], k, v, key);
        GetFirst(es[0], Insert(es[1..], k, v), key);
      }
    }
  }

  lemma {:induction false} FieldsAppend(reg: Registry, draft: Draft, scope: Uri, es: seq<Entry>, e: Entry, n: nat)
    requires Skipped(e)
    ensures UnfoldFields(reg, draft, scope, es + [e], n) == UnfoldFields(reg, draft, scope, es, n)
    decreases |es|
  {
    hide UnfoldField, Skipped;
    if es == [] {
      assert [] + [e] == [e] && [e][1..] == [];
    } else {
      assert (es + [e])[1..] == es[1..] + [e];
      FieldsAppend(reg, draft, scope, es[1..], e, n);
    }
  }

  lemma {:induction false} FieldsInsert(reg: Registry, draft: Draft, scope: Uri, es: seq<Entry>, k: Key, v: Json, n: nat)
    requires k.Defs? || k.Definitions?
    ensures UnfoldFields(reg, draft, scope, Insert(es, k, v), n) == UnfoldFields(reg, draft, scope, es, n)
    decreases |es|
  {
    hide UnfoldField;
    if es == [] {
      assert [Entry(k, v)][1..] == [];
    } else if es[0].key == k {
      assert ([Entry(k, v)] + es[1..])[1..] == es[1..];
    } else {
      assert ([es[0]] + Insert(es[1..], k, v))[1..] == Insert(es[1..], k, v);
      FieldsInsert(reg, draft, scope, es[1..], k, v, n);
    }
  }

  lemma {:induction false} SubresourcesAppend(draft: Draft, es: seq<Entry>, e: Entry)
    requires LocationOf(draft, e.key).Nowhere?
    ensures SubresourcesIn(draft, es + [e]) == SubresourcesIn(draft, es)
    decreases |es|
  {
    hide LocationOf;
    if es == [] {
      assert [] + [e] == [e] && [e][1..] == [];
    } else {
      assert (es + [e])[1..] == es[1..] + [e];
      SubresourcesAppend(draft, es[1..], e);
    }
  }

  // ---------------------------------------------------------------- embedding changes no meaning

  // Absolute, without a fragment, and therefore its own resolution from any base.
  predicate IsAbsolute(reg: Registry, uri: Uri) {
    uri != "" && '#' !in uri && reg.resolve(uri, uri) == Some(uri)
  }

  // Two schemas that differ at most in identifiers that name their own base.
  ghost predicate SameBody(reg: Registry, p: Place, q: Place) {
    && p.base == q.base && p.draft == q.draft && p.schema.JObject? && q.schema.JObject?
    && Scope(reg, p.base, p.draft, p.schema) == Scope(reg, q.base, q.draft, q.schema)
    && Get(p.schema.entries, Ref) == Get(q.schema.entries, Ref)
    && SubresourcesOf(p.draft, p.schema) == SubresourcesOf(q.draft, q.schema)
    && forall r: Registry, scope: Uri, n: nat ::
         UnfoldFields(r, p.draft, scope, p.schema.entries, n) == UnfoldFields(r, q.draft, scope, q.schema.entries, n)
  }

  lemma AddId(reg: Registry, es: seq<Entry>, draft: Draft, uri: Uri, k: Key)
    requires IsAbsolute(reg, uri) && (k.Id? || k.LegacyId?)
    ensures SameBody(reg, Place(JObject(es), draft, uri), Place(JObject(OrInsert(es, k, JString(uri))), draft, uri))
  {
    hide LocationOf, SubresourcesIn, UnfoldFields;
    if Get(es, k).None? {
      var e := Entry(k, JString(uri));
      GetAppend(es, e, Ref);
      GetAppend(es, e, IdKeyword(draft));
      NoSchemaInIds(draft, k);
      SubresourcesAppend(draft, es, e);
      forall r: Registry, scope: Uri, n: nat
        ensures UnfoldFields(r, draft, scope, es + [e], n) == UnfoldFields(r, draft, scope, es, n)
      {
        FieldsAppend(r, draft, scope, es, e, n);
      }
      assert uri[|uri| - 1] in uri && TrimHashes(uri) == uri && !StartsWithHash(uri);
    }
  }

  lemma NoSchemaInIds(draft: Draft, k: Key)
    requires k.Id? || k.LegacyId?
    ensures LocationOf(draft, k).Nowhere?
  {
  }

  lemma EmbedKeepsBody(reg: Registry, t: Target, rootDraft: Draft)
    requires t.contents.JObject? && IsAbsolute(reg, t.base)
    ensures SameBody(reg, Place(t.contents, t.draft, t.base), PlaceOf(t, rootDraft))
  {
    hide SubresourcesOf, Scope, UnfoldFields, OrInsert;
    var es := t.contents.entries;
    AddId(reg, es, t.draft, t.base, IdKeyword(t.draft));
    var own := OrInsert(es, IdKeyword(t.draft), JString(t.base));
    AddId(reg, own, t.draft, t.base, IdKeyword(rootDraft));
  }

  lemma SameBodyUnfolds(reg: Registry, p: Place, q: Place, n: nat)
    requires SameBody(reg, p, q)
    ensures Unfold(reg, p, n) == Unfold(reg, q, n)
  {
    hide Lookup, UnfoldFields, Scope;
  }

  lemma SameBodyCovers(reg: Registry, p: Place, q: Place, uris: set<Uri>)
    requires SameBody(reg, p, q)
    ensures Covered(reg, p, uris) == Covered(reg, q, uris)
  {
    hide Lookup, UnfoldFields, Scope;
  }

  // ---------------------------------------------------------------- the container

  lemma {:induction false} MergedKeeps(target: seq<Entry>, defs: seq<Entry>, key: Key)
    requires Distinct(defs)
    ensures Get(Merged(target, defs), key) == if Get(target, key).Some? then Get(target, key) else Get(defs, key)
    decreases |defs|
  {
    if defs != [] {
      GetAppend(target, Entry(defs[0].key, defs[0].value), key);
      assert forall i :: 0 <= i < |defs| - 1 ==> defs[1..][i] == defs[i + 1];
      MergedKeeps(OrInsert(target, defs[0].key, defs[0].value), defs[1..], key);
    }
  }

  // The definitions go under `definitions` up to draft-07. Later they go under `$defs`, unless only `definitions`
  // holds an object.
  lemma ContainerExactly(es: seq<Entry>, draft: Draft)
    ensures Container(es, draft)
            == if draft in {Draft4, Draft6, Draft7} || (HasObject(es, Definitions) && !HasObject(es, Defs)) then Definitions
               else Defs
  {
  }

  // The merge keeps every other keyword of the root and every definition it had.
  lemma MergeKeeps(root: Json, defs: seq<Entry>, draft: Draft)
    requires root.JObject? && defs != [] && Distinct(defs)
    ensures var bundle := WithDefs(root, defs, draft);
            var container := Container(root.entries, draft);
            && bundle.JObject? && Container(bundle.entries, draft) == container
            && (forall key :: key != container ==> Get(bundle.entries, key) == Get(root.entries, key))
            && HasObject(bundle.entries, container)
            && Existing(bundle.entries, draft) == Merged(Existing(root.entries, draft), defs)
            && forall key :: Get(Existing(bundle.entries, draft), key)
                             == if Get(Existing(root.entries, draft), key).Some? then Get(Existing(root.entries, draft), key)
                                else Get(defs, key)
  {
    hide Get, Merged, Distinct;
    var container, merged := Container(root.entries, draft), Merged(Existing(root.entries, draft), defs);
    forall key { GetInsert(root.entries, container, JObject(merged), key); }
    forall key { MergedKeeps(Existing(root.entries, draft), defs, key); }
  }

  lemma {:induction false} ValuesIncludes(es: seq<Entry>, key: Key)
    requires Get(es, key).Some?
    ensures Get(es, key).value in ValuesOf(es, false)
    decreases |es|
  {
    if es[0].key != key { ValuesIncludes(es[1..], key); }
  }

  lemma {:induction false} SubresourcesInclude(draft: Draft, es: seq<Entry>, key: Key, v: Json)
    requires Get(es, key).Some? && v in Select(LocationOf(draft, key), Get(es, key).value)
    ensures v in SubresourcesIn(draft, es)
    decreases |es|
  {
    hide LocationOf, Select;
    if es[0].key != key { SubresourcesInclude(draft, es[1..], key, v); }
  }

  // Whatever container is chosen, the root's draft looks for schemas in it.
  lemma ContainerIsSearched(root: Json, defs: seq<Entry>, draft: Draft, key: Key)
    requires root.JObject? && Distinct(defs) && Get(defs, key).Some? && Get(Existing(root.entries, draft), key).None?
    ensures Get(defs, key).value in SubresourcesOf(draft, WithDefs(root, defs, draft))
  {
    hide Merged, Distinct, Insert;
    MergeKeeps(root, defs, draft);
    var bundle := WithDefs(root, defs, draft);
    var container := Container(root.entries, draft);
    var es := Existing(bundle.entries, draft);
    ValuesIncludes(es, key);
    assert LocationOf(draft, container).Values?;
    SubresourcesInclude(draft, bundle.entries, container, Get(defs, key).value);
  }

  lemma EmbeddedGet(t: Target, rootDraft: Draft, key: Key)
    requires t.contents.JObject?
    ensures var es := t.contents.entries;
            Get(Embed(t, rootDraft).entries, key)
            == if Get(es, key).Some? then Get(es, key)
               else if key == IdKeyword(t.draft) || key == IdKeyword(rootDraft) then Some(JString(t.base))
               else None
  {
    hide Get;
    var own := OrInsert(t.contents.entries, IdKeyword(t.draft), JString(t.base));
    GetAppend(t.contents.entries, Entry(IdKeyword(t.draft), JString(t.base)), key);
    GetAppend(own, Entry(IdKeyword(rootDraft), JString(t.base)), key);
    GetAppend(t.contents.entries, Entry(IdKeyword(t.draft), JString(t.base)), IdKeyword(rootDraft));
  }

  // ---------------------------------------------------------------- whole resources

  // No external reference at or below a schema has a fragment.
  predicate NoFragments(draft: Draft, schema: Json)
    decreases schema
  {
    && (ExternalRef(schema).Some? ==> '#' !in ExternalRef(schema).value)
    && forall c :: c in SubresourcesOf(draft, schema) ==> NoFragments(draft, c)
  }

  predicate IsWhole(reg: Registry, t: Target) {
    t.base in reg.resources && t == Target(reg.resources[t.base].contents, t.base, reg.resources[t.base].draft)
  }

  lemma {:induction false} LinksToWhole(reg: Registry, p: Place, t: Target)
    requires LinksTo(reg, p, t) && NoFragments(p.draft, p.schema)
    ensures IsWhole(reg, t)
    decreases p.schema
  {
    hide SubresourcesOf, ExternalRef;
    var scope := Scope(reg, p.base, p.draft, p.schema).value;
    if c :| c in SubresourcesOf(p.draft, p.schema) && LinksTo(reg, Place(c, p.draft, scope), t) {
      LinksToWhole(reg, Place(c, p.draft, scope), t);
    }
  }

  lemma SameBodyNoFragments(reg: Registry, p: Place, q: Place)
    requires SameBody(reg, p, q)
    ensures NoFragments(p.draft, p.schema) == NoFragments(q.draft, q.schema)
  {
    hide UnfoldFields, Scope;
  }

  // Every reference that the run followed was without a fragment.
  ghost predicate FragmentFree(reg: Registry, rootUri: Uri, rootDraft: Draft, root: Json, run: State) {
    && rootUri in reg.resources && reg.resources[rootUri] == Resource(root, rootDraft)
    && NoFragments(rootDraft, root)
    && forall t :: t in run.done ==> IsAbsolute(reg, t.base) && NoFragments(t.draft, t.contents)
  }

  lemma {:induction false} GetAt(es: seq<Entry>, i: nat)
    requires Distinct(es) && i < |es|
    ensures Get(es, es[i].key) == Some(es[i].value)
    decreases |es|
  {
    if i > 0 {
      assert forall j :: 0 <= j < |es| - 1 ==> es[1..][j] == es[j + 1];
      GetAt(es[1..], i - 1);
    }
  }

  lemma SameScope(reg: Registry, rootUri: Uri, draft: Draft, root: Json, defs: seq<Entry>)
    requires Distinct(defs)
    ensures Scope(reg, rootUri, draft, WithDefs(root, defs, draft)) == Scope(reg, rootUri, draft, root)
  {
    hide Get, Insert, Merged, Existing;
    if defs != [] && root.JObject? { MergeKeeps(root, defs, draft); }
  }

  // Without fragments, what was embedded are whole resources.
  lemma DoneIsWhole(reg: Registry, rootUri: Uri, rootDraft: Draft, root: Json, run: State, t: Target)
    requires Complete(reg, rootUri, rootDraft, root, run) && FragmentFree(reg, rootUri, rootDraft, root, run)
    requires t in run.done
    ensures IsWhole(reg, t) && root.JObject?
  {
    hide Covered, NoFragments, IsWhole, Embed, LinksTo;
    var start := Place(root, rootDraft, rootUri);
    var i :| 0 <= i < |run.log| && run.log[i] == t;
    if LinksTo(reg, start, t) {
      LinksToWhole(reg, start, t);
    } else {
      var j :| 0 <= j < i && LinksTo(reg, PlaceOf(run.log[j], rootDraft), t);
      var from := run.log[j];
      AllDone(reg, rootUri, rootDraft, run, from);
      LinksNeedObject(reg, from, rootDraft, t);
      EmbedKeepsBody(reg, from, rootDraft);
      SameBodyNoFragments(reg, Place(from.contents, from.draft, from.base), PlaceOf(from, rootDraft));
      LinksToWhole(reg, PlaceOf(from, rootDraft), t);
    }
    RootIsObject(reg, rootUri, rootDraft, root, run);
  }

  lemma LinksNeedObject(reg: Registry, from: Target, rootDraft: Draft, t: Target)
    requires LinksTo(reg, PlaceOf(from, rootDraft), t)
    ensures from.contents.JObject?
  {
  }

  lemma RootIsObject(reg: Registry, rootUri: Uri, rootDraft: Draft, root: Json, run: State)
    requires Complete(reg, rootUri, rootDraft, root, run) && run.done != []
    ensures root.JObject?
  {
    hide Covered, Embed;
    assert run.done[0] in run.done;
    assert run.log != [];
    assert LinksTo(reg, Place(root, rootDraft, rootUri), run.log[0]);
  }

  // ---------------------------------------------------------------- the same tree

  lemma {:induction false} FieldsSame(r: Registry, r': Registry, draft: Draft, scope: Uri, es: seq<Entry>, n: nat)
    requires forall c :: c in SubresourcesIn(draft, es) ==>
               Unfold(r, AsRead(c, draft, scope), n) == Unfold(r', AsRead(c, draft, scope), n)
    ensures UnfoldFields(r, draft, scope, es, n) == UnfoldFields(r', draft, scope, es, n)
    decreases |es|
  {
    hide Unfold, Select, LocationOf, RestOf, UnfoldAll, AsRead;
    if es != [] {
      var here := Select(LocationOf(draft, es[0].key), es[0].value);
      forall c | c in here ensures Unfold(r, AsRead(c, draft, scope), n) == Unfold(r', AsRead(c, draft, scope), n) {
        assert c in SubresourcesIn(draft, es);
      }
      assert UnfoldAll(r, draft, scope, here, n) == UnfoldAll(r', draft, scope, here, n);
      FieldsSame(r, r', draft, scope, es[1..], n);
    }
  }

  lemma MergedUnfolds(r: Registry, root: Json, defs: seq<Entry>, draft: Draft, base: Uri, n: nat)
    requires Distinct(defs)
    ensures Unfold(r, Place(WithDefs(root, defs, draft), draft, base), n) == Unfold(r, Place(root, draft, base), n)
  {
    hide Get, Insert, Merged, Existing, Lookup, UnfoldFields;
    SameScope(r, base, draft, root, defs);
    if defs != [] && root.JObject? && n > 0 {
      MergeKeeps(root, defs, draft);
      var container := Container(root.entries, draft);
      var scope := Scope(r, base, draft, root);
      if scope.Some? {
        FieldsInsert(r, draft, scope.value, root.entries, container,
                     JObject(Merged(Existing(root.entries, draft), defs)), n - 1);
      }
    }
  }

  // A registry that gives the bundle under the URI of the root, and each embedded resource under its own
  // URI with its own draft.
  ghost predicate Serves(served: Registry, reg: Registry, rootUri: Uri, rootDraft: Draft, root: Json, run: State) {
    && served.resolve == reg.resolve
    && rootUri in served.resources
    && served.resources[rootUri] == Resource(WithDefs(root, run.defs, rootDraft), rootDraft)
    && forall t :: t in run.done ==>
         t.base in served.resources && served.resources[t.base] == Resource(Embed(t, rootDraft), t.draft)
  }

  // The reading of the root and of all that it leads to: everything resolves, without fragments.
  ghost predicate ReadsResolve(reg: Registry, top: Target) {
    forall t :: AmongRead(reg, top, t) ==> ResolvesAsRead(reg, Original(t))
  }

  // Whatever the reading leads to is embedded, or is the root.
  ghost predicate AllReadEmbedded(reg: Registry, top: Target, run: State) {
    forall t :: ReachableAsRead(reg, Original(top), t) ==> t in run.done || t == top
  }

  ghost predicate AbsoluteDone(reg: Registry, run: State) {
    forall t :: t in run.done ==> IsAbsolute(reg, t.base)
  }

  // What reading needs for the bundle to be read alike.
  ghost predicate Readable(reg: Registry, rootUri: Uri, rootDraft: Draft, root: Json, run: State) {
    var top := Target(root, rootUri, rootDraft);
    && rootUri in reg.resources && reg.resources[rootUri] == Resource(root, rootDraft)
    && AbsoluteDone(reg, run) && ReadsResolve(reg, top) && AllReadEmbedded(reg, top, run)
  }

  // A place whose references, as they are read, all resolve to what the root leads to.
  ghost predicate ReadFrom(reg: Registry, top: Target, p: Place) {
    ResolvesAsRead(reg, p) && forall t :: LinksToAsRead(reg, p, t) ==> ReachableAsRead(reg, Original(top), t)
  }

  lemma ReadFromOriginal(reg: Registry, top: Target, from: Target)
    requires ReadsResolve(reg, top) && AmongRead(reg, top, from)
    ensures ReadFrom(reg, top, Original(from))
  {
    hide LinksToAsRead, ResolvesAsRead, ReachableAsRead;
    forall t | LinksToAsRead(reg, Original(from), t) ensures ReachableAsRead(reg, Original(top), t) {
      ReadOn(reg, top, from, t);
    }
  }

  lemma ReadFromChild(reg: Registry, top: Target, p: Place, c: Json)
    requires ReadFrom(reg, top, p) && p.schema.JObject? && c in SubresourcesOf(p.draft, p.schema)
    ensures Scope(reg, p.base, p.draft, p.schema).Some?
    ensures ReadFrom(reg, top, AsRead(c, p.draft, Scope(reg, p.base, p.draft, p.schema).value))
  {
    hide ReachableAsRead, SubresourcesOf, Lookup;
    var below := AsRead(c, p.draft, Scope(reg, p.base, p.draft, p.schema).value);
    assert forall t :: LinksToAsRead(reg, below, t) ==> LinksToAsRead(reg, p, t);
  }

  // Whatever is read from the root on unfolds, to any depth, to the same tree in the bundle.
  lemma {:induction false} SameInBundle(served: Registry, reg: Registry, rootUri: Uri, rootDraft: Draft, root: Json,
                                        run: State, p: Place, n: nat)
    requires Complete(reg, rootUri, rootDraft, root, run) && Readable(reg, rootUri, rootDraft, root, run)
    requires Serves(served, reg, rootUri, rootDraft, root, run)
    requires ReadFrom(reg, Target(root, rootUri, rootDraft), p)
    ensures Unfold(served, p, n) == Unfold(reg, p, n)
    decreases n, 1
  {
    hide Complete, Readable, SubresourcesOf, SubresourcesIn, UnfoldFields, Lookup, ExternalRef, ReachableAsRead, AsRead;
    if n > 0 && p.schema.JObject? {
      var top := Target(root, rootUri, rootDraft);
      var scope := Scope(reg, p.base, p.draft, p.schema).value;
      forall c | c in SubresourcesOf(p.draft, p.schema)
        ensures Unfold(served, AsRead(c, p.draft, scope), n - 1) == Unfold(reg, AsRead(c, p.draft, scope), n - 1)
      {
        ReadFromChild(reg, top, p, c);
        SameInBundle(served, reg, rootUri, rootDraft, root, run, AsRead(c, p.draft, scope), n - 1);
      }
      FieldsSameOf(served, reg, p, scope, n - 1);
      if ExternalRef(p.schema).Some? {
        assert LinksToAsRead(reg, p, Lookup(reg, scope, ExternalRef(p.schema).value).value);
        SameTarget(served, reg, rootUri, rootDraft, root, run, scope, ExternalRef(p.schema).value, n - 1);
      }
    }
  }

  lemma FieldsSameOf(r: Registry, r': Registry, p: Place, scope: Uri, n: nat)
    requires p.schema.JObject?
    requires forall c :: c in SubresourcesOf(p.draft, p.schema) ==>
               Unfold(r, AsRead(c, p.draft, scope), n) == Unfold(r', AsRead(c, p.draft, scope), n)
    ensures UnfoldFields(r, p.draft, scope, p.schema.entries, n) == UnfoldFields(r', p.draft, scope, p.schema.entries, n)
  {
    hide Unfold, UnfoldFields, SubresourcesIn, AsRead;
    FieldsSame(r, r', p.draft, scope, p.schema.entries, n);
  }

  lemma {:induction false} SameTarget(served: Registry, reg: Registry, rootUri: Uri, rootDraft: Draft, root: Json,
                                      run: State, scope: Uri, ref: string, n: nat)
    requires Complete(reg, rootUri, rootDraft, root, run) && Readable(reg, rootUri, rootDraft, root, run)
    requires Serves(served, reg, rootUri, rootDraft, root, run)
    requires '#' !in ref && Lookup(reg, scope, ref).Some?
    requires ReachableAsRead(reg, Place(root, rootDraft, rootUri), Lookup(reg, scope, ref).value)
    ensures var t, b := Lookup(reg, scope, ref).value, Lookup(served, scope, ref);
            b.Some? && Unfold(served, Original(b.value), n) == Unfold(reg, Original(t), n)
    decreases n, 2
  {
    hide Complete, Unfold, Embed, ReachableAsRead, ResolvesAsRead;
    var t, top := Lookup(reg, scope, ref).value, Target(root, rootUri, rootDraft);
    assert t in run.done || t == top;
    if t in run.done {
      assert Lookup(served, scope, ref) == Some(Target(Embed(t, rootDraft), t.base, t.draft));
      EmbeddedInBundle(served, reg, rootUri, rootDraft, root, run, t, n);
    } else {
      assert Lookup(served, scope, ref) == Some(Target(WithDefs(root, run.defs, rootDraft), rootUri, rootDraft));
      ServedMeansTheSame(served, reg, rootUri, rootDraft, root, run, n);
    }
  }

  lemma {:induction false} EmbeddedInBundle(served: Registry, reg: Registry, rootUri: Uri, rootDraft: Draft, root: Json,
                                            run: State, t: Target, n: nat)
    requires Complete(reg, rootUri, rootDraft, root, run) && Readable(reg, rootUri, rootDraft, root, run)
    requires Serves(served, reg, rootUri, rootDraft, root, run)
    requires t in run.done && ReachableAsRead(reg, Place(root, rootDraft, rootUri), t)
    ensures Unfold(served, PlaceOf(t, rootDraft), n) == Unfold(reg, Original(t), n)
    decreases n, 2, 0
  {
    hide Complete, Unfold, Embed, ReachableAsRead, ResolvesAsRead;
    if t.contents.JObject? {
      ReadFromOriginal(reg, Target(root, rootUri, rootDraft), t);
      SameInBundle(served, reg, rootUri, rootDraft, root, run, Original(t), n);
      EmbedKeepsBody(served, t, rootDraft);
      SameBodyUnfolds(served, Original(t), PlaceOf(t, rootDraft), n);
    } else {
      PlainUnfolds(served, reg, t, rootDraft, n);
    }
  }

  lemma PlainUnfolds(r: Registry, r': Registry, t: Target, rootDraft: Draft, n: nat)
    requires !t.contents.JObject?
    ensures Unfold(r, PlaceOf(t, rootDraft), n) == Unfold(r', Place(t.contents, t.draft, t.base), n)
  {
  }

  // Read through such a registry, the bundle means what the root means in the original one.
  lemma {:induction false} ServedMeansTheSame(served: Registry, reg: Registry, rootUri: Uri, rootDraft: Draft, root: Json,
                                              run: State, n: nat)
    requires Complete(reg, rootUri, rootDraft, root, run) && Readable(reg, rootUri, rootDraft, root, run)
    requires Serves(served, reg, rootUri, rootDraft, root, run)
    ensures Unfold(served, Place(WithDefs(root, run.defs, rootDraft), rootDraft, rootUri), n)
            == Unfold(reg, Place(root, rootDraft, rootUri), n)
    decreases n, 2, 0
  {
    hide Covered, Reached, Unfold, Embed, WithDefs, ReachableAsRead, ResolvesAsRead;
    DefsDistinct(reg, rootUri, rootDraft, run);
    ReadFromOriginal(reg, Target(root, rootUri, rootDraft), Target(root, rootUri, rootDraft));
    SameInBundle(served, reg, rootUri, rootDraft, root, run, Place(root, rootDraft, rootUri), n);
    MergedUnfolds(served, root, run.defs, rootDraft, rootUri, n);
  }
}
