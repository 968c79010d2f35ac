/**
  Where each draft has schemas, read off the keywords and the shapes of their values.
*/
module SchemaShapes {
  import opened Schema
  import opened Options

  predicate Modern(draft: Draft) {
    draft.Draft201909? || draft.Draft202012? || draft.Unknown?
  }

  // The value of the keyword is a schema. Draft-04 knows every keyword of the later drafts as well.
  predicate IsSingle(draft: Draft, k: Key) {
    || k.Contains? || k.Not? || k.PropertyNames?
    || (k.AdditionalProperties? && !draft.Draft4?)
    || (k.AdditionalItems? && (draft.Draft6? || draft.Draft7? || draft.Draft201909?))
    || ((k.If? || k.Then? || k.Else?) && !draft.Draft6?)
    || ((k.ContentSchema? || k.UnevaluatedItems? || k.UnevaluatedProperties?) && (Modern(draft) || draft.Draft4?))
    || (k.Items? && (draft.Draft202012? || draft.Unknown?))
  }

  // It is a schema if it is an object.
  predicate IsSingleIfObject(draft: Draft, k: Key) {
    draft.Draft4? && (k.AdditionalItems? || k.AdditionalProperties?)
  }

  // It is a list of schemas,
  predicate IsList(draft: Draft, k: Key) {
    || k.AllOf? || k.AnyOf? || k.OneOf?
    || (k.PrefixItems? && (draft.Draft4? || draft.Draft202012? || draft.Unknown?))
  }

  // or else a schema.
  predicate IsListOrSingle(draft: Draft, k: Key) {
    k.Items? && !draft.Draft202012? && !draft.Unknown?
  }

  // It is an object of schemas,
  predicate IsMap(draft: Draft, k: Key) {
    || k.Properties? || k.PatternProperties? || k.Definitions?
    || ((k.Defs? || k.DependentSchemas?) && (Modern(draft) || draft.Draft4?))
  }

  // or of schemas and lists of names.
  predicate IsMixed(draft: Draft, k: Key) {
    k.Dependencies? && !Modern(draft)
  }

  // No keyword occurs twice.
  predicate DistinctKeys(es: seq<Entry>) {
    forall i, j :: 0 <= i < j < |es| ==> es[i].key != es[j].key
  }

  predicate HasValue(es: seq<Entry>, c: Json) {
    exists i :: 0 <= i < |es| && es[i].value == c
  }

  // Is c a schema in the value of this keyword?
  predicate Under(draft: Draft, k: Key, value: Json, c: Json) {
    || (IsSingle(draft, k) && c == value)
    || (IsSingleIfObject(draft, k) && c == value && c.JObject?)
    || (IsList(draft, k) && value.JArray? && c in value.items)
    || (IsListOrSingle(draft, k) && if value.JArray? then c in value.items else c == value)
    || (IsMap(draft, k) && value.JObject? && HasValue(value.entries, c))
    || (IsMixed(draft, k) && value.JObject? && HasValue(value.entries, c) && c.JObject?)
  }

  lemma {:induction false} ValuesMean(es: seq<Entry>, objectsOnly: bool, c: Json)
    ensures c in ValuesOf(es, objectsOnly) <==> HasValue(es, c) && (objectsOnly ==> c.JObject?)
    decreases |es|
  {
    if es != [] {
      ValuesMean(es[1..], objectsOnly, c);
      assert forall i :: 0 < i < |es| ==> es[i] == es[1..][i - 1];
      if HasValue(es, c) && es[0].value != c {
        var i :| 0 <= i < |es| && es[i].value == c;
        assert es[1..][i - 1].value == c;
      }
      if HasValue(es[1..], c) {
        var i :| 0 <= i < |es[1..]| && es[1..][i].value == c;
        assert es[i + 1].value == c;
      }
    }
  }

  // The draft's table says the same.
  lemma KindsMean(draft: Draft, k: Key)
    ensures var location := LocationOf(draft, k);
            && (IsSingle(draft, k) <==> location.Once?) && (IsSingleIfObject(draft, k) <==> location.OnceIfObject?)
            && (IsList(draft, k) <==> location.Elements?) && (IsListOrSingle(draft, k) <==> location.ElementsOrOnce?)
            && (IsMap(draft, k) <==> location.Values?) && (IsMixed(draft, k) <==> location.ObjectValues?)
  {
  }

  lemma SelectMeans(draft: Draft, k: Key, value: Json, c: Json)
    ensures c in Select(LocationOf(draft, k), value) <==> Under(draft, k, value, c)
  {
    hide LocationOf, HasValue, IsSingle, IsSingleIfObject, IsList, IsListOrSingle, IsMap, IsMixed;
    KindsMean(draft, k);
    if value.JObject? {
      ValuesMean(value.entries, false, c);
      ValuesMean(value.entries, true, c);
    }
  }

  lemma {:induction false} GetLater(es: seq<Entry>, key: Key)
    requires forall i :: 0 <= i < |es| ==> es[i].key != key
    ensures Get(es, key).None?
    decreases |es|
  {
    if es != [] { GetLater(es[1..], key); }
  }

  predicate Found(draft: Draft, es: seq<Entry>, k: Key, c: Json) {
    Get(es, k).Some? && Under(draft, k, Get(es, k).value, c)
  }

  // The schemas in a schema with distinct keywords are exactly those that its draft has under its keywords.
  lemma {:induction false} SubresourcesExactly(draft: Draft, es: seq<Entry>, c: Json)
    requires DistinctKeys(es)
    ensures c in SubresourcesOf(draft, JObject(es)) <==> exists k :: Found(draft, es, k, c)
    decreases |es|
  {
    hide LocationOf, Select, Under;
    if es != [] {
      var first, rest := es[0], es[1..];
      assert forall i :: 0 <= i < |rest| ==> rest[i] == es[i + 1];
      SubresourcesExactly(draft, rest, c);
      SelectMeans(draft, first.key, first.value, c);
      GetLater(rest, first.key);
      if c in Select(LocationOf(draft, first.key), first.value) {
        assert Found(draft, es, first.key, c);
      } else if k :| Found(draft, rest, k, c) {
        assert Found(draft, es, k, c);
      }
      if k :| Found(draft, es, k, c) {
        if k != first.key { assert Found(draft, rest, k, c); }
      }
    }
  }

  // ---------------------------------------------------------------- identifiers and references

  // A schema names itself by `id` in draft-04 and by `$id` later. Up to draft-07 `$ref` hides the identifier and
  // one that starts with '#' is an anchor.
  lemma IdExactly(draft: Draft, schema: Json, id: string)
    ensures IdOf(draft, schema) == Some(id) <==>
            schema.JObject? && exists raw ::
              && Get(schema.entries, if draft.Draft4? then LegacyId else Id) == Some(JString(raw))
              && id == TrimHashes(raw)
              && (!Modern(draft) ==> Get(schema.entries, Ref).None? && (raw != "" ==> raw[0] != '#'))
  {
    if schema.JObject? {
      match Get(schema.entries, if draft.Draft4? then LegacyId else Id)
      case Some(JString(raw)) => assert Some(JString(raw)) == Get(schema.entries, if draft.Draft4? then LegacyId else Id);
      case _ =>
    }
  }

  // Trailing '#'s are cut off, all of them and nothing else.
  lemma {:induction false} TrimMeans(s: string)
    ensures var r := TrimHashes(s);
            && |r| <= |s| && r == s[..|r|] && (forall i :: |r| <= i < |s| ==> s[i] == '#')
            && (r != "" ==> r[|r| - 1] != '#')
    decreases |s|
  {
    if s != "" && s[|s| - 1] == '#' { TrimMeans(s[..|s| - 1]); }
  }

  lemma ExternalExactly(schema: Json, ref: string)
    ensures ExternalRef(schema) == Some(ref) <==>
            schema.JObject? && Get(schema.entries, Ref) == Some(JString(ref)) && !("#" <= ref)
  {
  }

  // The fragment is what stands behind the last '#'.
  lemma {:induction false} SplitMeans(path: string, fragment: string)
    requires '#' !in fragment
    ensures SplitAtHash(path + "#" + fragment) == (path, fragment)
    decreases |fragment|
  {
    var s := path + "#" + fragment;
    if fragment == "" {
      assert s == path + "#" && s[..|s| - 1] == path;
    } else {
      var front := fragment[..|fragment| - 1];
      assert s[..|s| - 1] == path + "#" + front && front + [fragment[|fragment| - 1]] == fragment;
      SplitMeans(path, front);
      assert s[|path|] == '#';
    }
  }

  // A reference to another document leads to the resource at its URI, or to what the fragment names in it.
  lemma LookupMeans(reg: Registry, base: Uri, path: string, fragment: string)
    requires '#' !in fragment && !StartsWithHash(path + "#")
    ensures Lookup(reg, base, path + "#" + fragment)
            == match reg.resolve(base, path)
               case None => None
               case Some(uri) =>
                 if uri !in reg.resources then None
                 else if fragment == "" then Some(Target(reg.resources[uri].contents, uri, reg.resources[uri].draft))
                 else if (uri, fragment) in reg.fragments then Some(reg.fragments[(uri, fragment)]) else None
    ensures '#' !in path ==> Lookup(reg, base, path) == Lookup(reg, base, path + "#")
  {
    SplitMeans(path, fragment);
    SplitMeans(path, "");
    assert path + "#" + "" == path + "#";
  }

  // ---------------------------------------------------------------- declared drafts

  function OfDraft(uri: string): Json {
    JObject([Entry(SchemaUri, JString(uri))])
  }

  lemma Declares(inherited: Draft, uri: string)
    ensures Detect(inherited, OfDraft(uri)) == DraftOfUri(uri)
  {
    hide DraftOfUri;
    assert Get(OfDraft(uri).entries, SchemaUri) == Some(JString(uri));
  }

  // What each draft's `$schema` says, with or without the '#' behind it, and that no `$schema` inherits the draft.
  lemma DraftsDeclared(inherited: Draft)
    ensures Detect(inherited, OfDraft("http://json-schema.org/draft-04/schema#")) == Draft4
    ensures Detect(inherited, OfDraft("http://json-schema.org/draft-06/schema#")) == Draft6
    ensures Detect(inherited, OfDraft("http://json-schema.org/draft-07/schema#")) == Draft7
    ensures Detect(inherited, OfDraft("https://json-schema.org/draft/2019-09/schema")) == Draft201909
    ensures Detect(inherited, OfDraft("https://json-schema.org/draft/2020-12/schema")) == Draft202012
    ensures Detect(inherited, OfDraft("https://example.org/own")) == Unknown
    ensures Detect(inherited, JObject([])) == inherited == Detect(inherited, JBool(true))
  {
    hide DraftOfUri;
    Draft4Declared();
    Draft6Declared();
    Draft7Declared();
    NewerDrafts();
    ForeignDraft();
    Declares(inherited, "http://json-schema.org/draft-04/schema#");
    Declares(inherited, "http://json-schema.org/draft-06/schema#");
    Declares(inherited, "http://json-schema.org/draft-07/schema#");
    Declares(inherited, "https://json-schema.org/draft/2019-09/schema");
    Declares(inherited, "https://json-schema.org/draft/2020-12/schema");
    Declares(inherited, "https://example.org/own");
  }

  lemma Draft4Declared()
    ensures DraftOfUri("http://json-schema.org/draft-04/schema#") == Draft4
  {
    var uri := "http://json-schema.org/draft-04/schema";
    Trimmed(uri);
    assert uri[4] == ':' && uri[28] == '-' && uri[30] == '4';
    assert "http://json-schema.org/draft-07/schema"[30] == '7';
    assert "http://json-schema.org/draft-06/schema"[30] == '6';
  }

  lemma Draft6Declared()
    ensures DraftOfUri("http://json-schema.org/draft-06/schema#") == Draft6
  {
    var uri := "http://json-schema.org/draft-06/schema";
    Trimmed(uri);
    assert uri[4] == ':' && uri[28] == '-' && uri[30] == '6';
    assert "http://json-schema.org/draft-07/schema"[30] == '7';
  }

  lemma Draft7Declared()
    ensures DraftOfUri("http://json-schema.org/draft-07/schema#") == Draft7
  {
    var uri := "http://json-schema.org/draft-07/schema";
    Trimmed(uri);
    assert uri[4] == ':' && uri[28] == '-' && uri[30] == '7';
  }

  lemma Trimmed(uri: string)
    requires uri != "" && uri[|uri| - 1] != '#'
    ensures TrimHashes(uri) == uri == TrimHashes(uri + "#")
  {
    assert (uri + "#")[..|uri|] == uri;
  }

  lemma NewerDrafts()
    ensures DraftOfUri("https://json-schema.org/draft/2019-09/schema") == Draft201909
    ensures DraftOfUri("https://json-schema.org/draft/2020-12/schema") == Draft202012
  {
    Trimmed("https://json-schema.org/draft/2019-09/schema");
    Trimmed("https://json-schema.org/draft/2020-12/schema");
  }

  lemma ForeignDraft()
    ensures DraftOfUri("https://example.org/own") == Unknown
  {
    Trimmed("https://example.org/own");
  }
}
