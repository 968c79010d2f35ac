/**
  JSON Schema documents as the bundler sees them: keywords, the subresource locations of each draft,
  identifiers, and a registry of resources.
*/
module Schema {
  import opened Options

  type Uri = string

  datatype Draft = Draft4 | Draft6 | Draft7 | Draft201909 | Draft202012 | Unknown

  // The keywords that matter here; every other key is Other. LegacyId is `id`, Id is `$id`.
  datatype Key =
    | Ref | LegacyId | Id | SchemaUri | Defs | Definitions
    | AdditionalItems | AdditionalProperties | AllOf | AnyOf | OneOf | PrefixItems | Contains
    | ContentSchema | Dependencies | DependentSchemas | If | Then | Else | Items | Not
    | PatternProperties | Properties | PropertyNames | UnevaluatedItems | UnevaluatedProperties
    | Other(name: string)

  datatype Json =
    | JNull | JBool(b: bool) | JNumber(n: int) | JString(s: string)
    | JArray(items: seq<Json>) | JObject(entries: seq<Entry>)

  datatype Entry = Entry(key: Key, value: Json)

  // ---------------------------------------------------------------- objects

  function Get(es: seq<Entry>, key: Key): Option<Json> {
    if es == [] then None
    else if es[0].key == key then Some(es[0].value)
    else Get(es[1..], key)
  }

  // entry(key).or_insert(value)
  function OrInsert(es: seq<Entry>, key: Key, value: Json): seq<Entry> {
    if Get(es, key).Some? then es else es + [Entry(key, value)]
  }

  // insert(key, value): a key that is there keeps its place.
  function Insert(es: seq<Entry>, key: Key, value: Json): seq<Entry> {
    if es == [] then [Entry(key, value)]
    else if es[0].key == key then [Entry(key, value)] + es[1..]
    else [es[0]] + Insert(es[1..], key, value)
  }

  // ---------------------------------------------------------------- subresources

  datatype Location = Nowhere | Once | OnceIfObject | Elements | ElementsOrOnce | Values | ObjectValues

  function LocationOf(draft: Draft, key: Key): Location {
    match draft
    case Draft4 => (
      match key
      case Items => ElementsOrOnce
      case AllOf | AnyOf | OneOf | PrefixItems => Elements
      case Defs | Definitions | DependentSchemas | PatternProperties | Properties => Values
      case Dependencies => ObjectValues
      case AdditionalItems | AdditionalProperties => OnceIfObject
      case Contains | ContentSchema | Else | If | PropertyNames | Not | Then
         | UnevaluatedItems | UnevaluatedProperties => Once
      case _ => Nowhere)
    case Draft6 | Draft7 => (
      match key
      case AdditionalItems | AdditionalProperties | Contains | Not | PropertyNames => Once
      case Else | If | Then => if draft.Draft7? then Once else Nowhere
      case AllOf | AnyOf | OneOf => Elements
      case Definitions | PatternProperties | Properties => Values
      case Items => ElementsOrOnce
      case Dependencies => ObjectValues
      case _ => Nowhere)
    case Draft201909 => (
      match key
      case AdditionalItems | AdditionalProperties | Contains | ContentSchema | Else | If | Not
         | PropertyNames | Then | UnevaluatedItems | UnevaluatedProperties => Once
      case AllOf | AnyOf | OneOf => Elements
      case Defs | Definitions | DependentSchemas | PatternProperties | Properties => Values
      case Items => ElementsOrOnce
      case _ => Nowhere)
    case Draft202012 | Unknown => (
      match key
      case AdditionalProperties | Contains | ContentSchema | Else | If | Items | Not | PropertyNames
         | Then | UnevaluatedItems | UnevaluatedProperties => Once
      case AllOf | AnyOf | OneOf | PrefixItems => Elements
      case Defs | Definitions | DependentSchemas | PatternProperties | Properties => Values
      case _ => Nowhere)
  }

  function ValuesOf(es: seq<Entry>, objectsOnly: bool): (vs: seq<Json>)
    ensures forall v :: v in vs ==> exists i :: 0 <= i < |es| && v == es[i].value
  {
    if es == [] then []
    else
      assert forall i :: 0 < i < |es| ==> es[i] == es[1..][i - 1];
      (if objectsOnly && !es[0].value.JObject? then [] else [es[0].value]) + ValuesOf(es[1..], objectsOnly)
  }

  // The schemas found in a keyword's value.
  function Select(location: Location, value: Json): (vs: seq<Json>)
    ensures forall v :: v in vs ==> v == value || v < value
  {
    match location
    case Nowhere => []
    case Once => [value]
    case OnceIfObject => if value.JObject? then [value] else []
    case Elements => if value.JArray? then value.items else []
    case ElementsOrOnce => if value.JArray? then value.items else [value]
    case Values => if value.JObject? then ValuesOf(value.entries, false) else []
    case ObjectValues => if value.JObject? then ValuesOf(value.entries, true) else []
  }

  function SubresourcesIn(draft: Draft, es: seq<Entry>): (vs: seq<Json>)
    ensures forall v :: v in vs ==> exists i :: 0 <= i < |es| && v in Select(LocationOf(draft, es[i].key), es[i].value)
  {
    if es == [] then []
    else
      assert forall i :: 0 < i < |es| ==> es[i] == es[1..][i - 1];
      Select(LocationOf(draft, es[0].key), es[0].value) + SubresourcesIn(draft, es[1..])
  }

  function SubresourcesOf(draft: Draft, schema: Json): (vs: seq<Json>)
    ensures forall v :: v in vs ==> v < schema
  {
    if schema.JObject? then SubresourcesIn(draft, schema.entries) else []
  }

  // ---------------------------------------------------------------- identifiers

  predicate IsLegacy(draft: Draft) {
    draft.Draft4? || draft.Draft6? || draft.Draft7?
  }

  function IdKeyword(draft: Draft): Key {
    if draft.Draft4? then LegacyId else Id
  }

  function DefinitionsKeyword(draft: Draft): Key {
    if IsLegacy(draft) then Definitions else Defs
  }

  predicate StartsWithHash(s: string) {
    s != "" && s[0] == '#'
  }

  function TrimHashes(s: string): (r: string)
    ensures s == "" || s[|s| - 1] != '#' ==> r == s
  {
    if s != "" && s[|s| - 1] == '#' then TrimHashes(s[..|s| - 1]) else s
  }

  // The identifier a schema declares: older drafts ignore one beside `$ref` and one that is an anchor.
  function IdOf(draft: Draft, schema: Json): Option<string> {
    if !schema.JObject? || (IsLegacy(draft) && Get(schema.entries, Ref).Some?) then None
    else
      match Get(schema.entries, IdKeyword(draft))
      case Some(JString(id)) => if IsLegacy(draft) && StartsWithHash(id) then None else Some(TrimHashes(id))
      case _ => None
  }

  // ---------------------------------------------------------------- drafts

  // Draft::from_schema_uri
  function DraftOfUri(uri: string): Draft {
    var u := TrimHashes(uri);
    if u == "https://json-schema.org/draft/2020-12/schema" || u == "http://json-schema.org/draft/2020-12/schema" then Draft202012
    else if u == "https://json-schema.org/draft/2019-09/schema" || u == "http://json-schema.org/draft/2019-09/schema" then Draft201909
    else if u == "https://json-schema.org/draft-07/schema" || u == "http://json-schema.org/draft-07/schema" then Draft7
    else if u == "https://json-schema.org/draft-06/schema" || u == "http://json-schema.org/draft-06/schema" then Draft6
    else if u == "https://json-schema.org/draft-04/schema" || u == "http://json-schema.org/draft-04/schema" then Draft4
    else Unknown
  }

  // The draft of a subresource: the one it declares, else the one of the document around it.
  function Detect(draft: Draft, schema: Json): Draft {
    if !schema.JObject? then draft
    else
      match Get(schema.entries, SchemaUri)
      case Some(JString(uri)) => DraftOfUri(uri)
      case _ => draft
  }

  // ---------------------------------------------------------------- the registry

  datatype Resource = Resource(contents: Json, draft: Draft)

  // What a reference leads to: a schema, the base URI for references in it, and its draft.
  datatype Target = Target(contents: Json, base: Uri, draft: Draft)

  // Resources by URI, the targets of the fragments in use, and URI resolution (section 5.2 of RFC 3986).
  datatype Registry = Registry(
    resources: map<Uri, Resource>, fragments: map<(Uri, string), Target>, resolve: (Uri, string) -> Option<Uri>)

  function Universe(reg: Registry): set<Uri> {
    reg.resources.Keys + set k | k in reg.fragments.Keys :: reg.fragments[k].base
  }

  // A reference is split at its last '#'.
  function SplitAtHash(s: string): (r: (string, string))
    ensures '#' !in s ==> r == (s, "")
  {
    if s == "" then ("", "")
    else if s[|s| - 1] == '#' then (s[..|s| - 1], "")
    else
      var (uri, fragment) := SplitAtHash(s[..|s| - 1]);
      if '#' in s then (uri, fragment + [s[|s| - 1]]) else (s, "")
  }

  function Lookup(reg: Registry, base: Uri, ref: string): (t: Option<Target>)
    ensures t.Some? ==> t.value.base in Universe(reg)
  {
    var (path, fragment) := SplitAtHash(ref);
    match reg.resolve(base, path)
    case None => None
    case Some(uri) =>
      if uri !in reg.resources then None
      else if fragment == "" then Some(Target(reg.resources[uri].contents, uri, reg.resources[uri].draft))
      else if (uri, fragment) in reg.fragments then Some(reg.fragments[(uri, fragment)])
      else None
  }

  // The base URI inside a schema (in_subresource); None if its identifier does not resolve.
  function Scope(reg: Registry, base: Uri, draft: Draft, schema: Json): Option<Uri> {
    match IdOf(draft, schema)
    case None => Some(base)
    case Some(id) => reg.resolve(base, id)
  }

  // `$ref` with a string that is more than a fragment.
  function ExternalRef(schema: Json): Option<string> {
    if !schema.JObject? then None
    else
      match Get(schema.entries, Ref)
      case Some(JString(ref)) => if StartsWithHash(ref) then None else Some(ref)
      case _ => None
  }
}
