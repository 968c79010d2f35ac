/**
  What a bundle embeds: the schemas that references lead to, one for each base URI.
*/
module BundleReach {
  import opened Schema
  import opened SchemaShapes
  import opened Bundler
  import opened BundleMeaning
  import opened Options

  // ---------------------------------------------------------------- chains of references

  // References, each found in the schema that the one before it leads to.
  ghost predicate Chain(reg: Registry, start: Place, c: seq<Target>) {
    forall i :: 0 <= i < |c| ==> LinksTo(reg, Before(start, c, i), c[i])
  }

  lemma OneLink(reg: Registry, start: Place, t: Target)
    requires LinksTo(reg, start, t)
    ensures Chain(reg, start, [t])
  {
    assert Before(start, [t], 0) == start;
  }

  lemma ChainGrows(reg: Registry, start: Place, c: seq<Target>, t: Target)
    requires c != [] && Chain(reg, start, c) && LinksTo(reg, Original(c[|c| - 1]), t)
    ensures Chain(reg, start, c + [t])
  {
    hide LinksTo;
    assert forall i :: 0 <= i < |c| ==> Before(start, c + [t], i) == Before(start, c, i) && (c + [t])[i] == c[i];
  }

  lemma SameBodyLinks(reg: Registry, p: Place, q: Place, t: Target)
    requires SameBody(reg, p, q)
    ensures LinksTo(reg, p, t) == LinksTo(reg, q, t)
  {
    hide Lookup, UnfoldFields, Scope;
  }

  ghost predicate Reachable(reg: Registry, start: Place, t: Target) {
    exists c :: c != [] && c[|c| - 1] == t && Chain(reg, start, c)
  }

  // The original of what is embedded, and the root, refer to visited URIs only.
  lemma OriginalCovered(reg: Registry, rootUri: Uri, rootDraft: Draft, root: Json, run: State, t: Target)
    requires Complete(reg, rootUri, rootDraft, root, run) && AbsoluteDone(reg, run)
    requires t in run.done || t == Target(root, rootUri, rootDraft)
    ensures Covered(reg, Original(t), run.visited)
  {
    hide Covered, Embed, Reached;
    if t in run.done {
      if t.contents.JObject? {
        EmbedKeepsBody(reg, t, rootDraft);
        SameBodyCovers(reg, Original(t), PlaceOf(t, rootDraft), run.visited);
      } else {
        PlainPlace(reg, Original(t), run.visited);
      }
    }
  }

  lemma {:induction false} LoggedByChain(reg: Registry, rootUri: Uri, rootDraft: Draft, root: Json, run: State, i: nat)
    returns (c: seq<Target>)
    requires Complete(reg, rootUri, rootDraft, root, run) && AbsoluteDone(reg, run)
    requires i < |run.log|
    ensures Chain(reg, Place(root, rootDraft, rootUri), c) && c != [] && c[|c| - 1] == run.log[i]
    decreases i
  {
    hide Covered, Embed, LinksTo, Chain, SameBody;
    var start, t := Place(root, rootDraft, rootUri), run.log[i];
    if LinksTo(reg, start, t) {
      c := [t];
      OneLink(reg, start, t);
    } else {
      var j :| 0 <= j < i && LinksTo(reg, PlaceOf(run.log[j], rootDraft), t);
      var from := run.log[j];
      AllDone(reg, rootUri, rootDraft, run, from);
      LinksNeedObject(reg, from, rootDraft, t);
      EmbedKeepsBody(reg, from, rootDraft);
      SameBodyLinks(reg, Original(from), PlaceOf(from, rootDraft), t);
      var before := LoggedByChain(reg, rootUri, rootDraft, root, run, j);
      ChainGrows(reg, start, before, t);
      c := before + [t];
    }
  }

  // A reference in the root or in what is embedded leads to the root's URI or to that of something embedded.
  lemma LinkIsVisited(reg: Registry, rootUri: Uri, rootDraft: Draft, root: Json, run: State, from: Target, t: Target)
    requires Complete(reg, rootUri, rootDraft, root, run) && AbsoluteDone(reg, run)
    requires from in run.done || from == Target(root, rootUri, rootDraft)
    requires LinksTo(reg, Original(from), t)
    ensures t.base == rootUri || exists d :: d in run.done && d.base == t.base
  {
    hide Covered, Embed, LinksTo, Reached;
    OriginalCovered(reg, rootUri, rootDraft, root, run, from);
    CoveredMeans(reg, Original(from), run.visited);
    if t.base != rootUri {
      var k :| 0 <= k < |run.done| && run.done[k].base == t.base;
      assert run.done[k] in run.done;
    }
  }

  // ---------------------------------------------------------------- one target for each URI

  ghost predicate Among(reg: Registry, root: Target, t: Target) {
    t == root || Reachable(reg, Original(root), t)
  }

  // No two different targets share a base URI, among the root and all that can be reached from it.
  ghost predicate OneTargetPerUri(reg: Registry, root: Target) {
    forall t, u :: Among(reg, root, t) && Among(reg, root, u) && t.base == u.base ==> t == u
  }

  lemma DoneIsReachable(reg: Registry, rootUri: Uri, rootDraft: Draft, root: Json, run: State, t: Target)
    requires Complete(reg, rootUri, rootDraft, root, run) && AbsoluteDone(reg, run) && t in run.done
    ensures Reachable(reg, Place(root, rootDraft, rootUri), t) && t.base != rootUri
  {
    hide Covered, Embed, LinksTo, Chain, Reached;
    var i :| 0 <= i < |run.log| && run.log[i] == t;
    var c := LoggedByChain(reg, rootUri, rootDraft, root, run, i);
    var k :| 0 <= k < |run.done| && run.done[k] == t;
    assert t.base in Bases(run.done);
  }

  lemma {:induction false} ChainHasOneEach(reg: Registry, rootUri: Uri, rootDraft: Draft, root: Json, run: State,
                                           c: seq<Target>, i: nat)
    requires Complete(reg, rootUri, rootDraft, root, run) && AbsoluteDone(reg, run)
    requires OneTargetPerUri(reg, Target(root, rootUri, rootDraft))
    requires Chain(reg, Place(root, rootDraft, rootUri), c) && i < |c|
    ensures c[i] in run.done || c[i] == Target(root, rootUri, rootDraft)
    decreases i
  {
    hide Complete, LinksTo, Reachable;
    var start, top := Place(root, rootDraft, rootUri), Target(root, rootUri, rootDraft);
    var from := top;
    if i > 0 {
      ChainHasOneEach(reg, rootUri, rootDraft, root, run, c, i - 1);
      from := c[i - 1];
    }
    assert Before(start, c, i) == Original(from);
    ChainPrefix(reg, start, c, i);
    LinkIsVisited(reg, rootUri, rootDraft, root, run, from, c[i]);
    if c[i].base == rootUri {
      assert Among(reg, top, top) && Among(reg, top, c[i]);
    } else {
      var d :| d in run.done && d.base == c[i].base;
      DoneIsReachable(reg, rootUri, rootDraft, root, run, d);
      assert Among(reg, top, d) && Among(reg, top, c[i]);
    }
  }

  lemma ChainPrefix(reg: Registry, start: Place, c: seq<Target>, i: nat)
    requires Chain(reg, start, c) && i < |c|
    ensures Reachable(reg, start, c[i])
  {
    hide LinksTo;
    var front := c[..i + 1];
    assert forall k :: 0 <= k < |front| ==> Before(start, front, k) == Before(start, c, k) && front[k] == c[k];
    assert Chain(reg, start, front);
  }

  // Everything that can be reached is embedded exactly when each base URI stands for one target. Two
  // fragments of one document break that: only the first that the walk meets is embedded.
  lemma EmbedsAllExactly(reg: Registry, rootUri: Uri, rootDraft: Draft, root: Json, run: State)
    requires Complete(reg, rootUri, rootDraft, root, run) && AbsoluteDone(reg, run)
    ensures (forall t :: Reachable(reg, Place(root, rootDraft, rootUri), t) ==>
                           t in run.done || t == Target(root, rootUri, rootDraft))
            <==> OneTargetPerUri(reg, Target(root, rootUri, rootDraft))
  {
    hide Covered, Reached, Embed, Chain, LinksTo;
    var start, top := Place(root, rootDraft, rootUri), Target(root, rootUri, rootDraft);
    if OneTargetPerUri(reg, top) {
      forall t | Reachable(reg, start, t) ensures t in run.done || t == top {
        var c :| c != [] && c[|c| - 1] == t && Chain(reg, start, c);
        ChainHasOneEach(reg, rootUri, rootDraft, root, run, c, |c| - 1);
      }
    }
    if forall t :: Reachable(reg, start, t) ==> t in run.done || t == top {
      forall t, u | Among(reg, top, t) && Among(reg, top, u) && t.base == u.base ensures t == u {
        SameBaseSameTarget(reg, rootUri, rootDraft, root, run, t, u);
      }
    }
  }

  lemma SameBaseSameTarget(reg: Registry, rootUri: Uri, rootDraft: Draft, root: Json, run: State, t: Target, u: Target)
    requires Complete(reg, rootUri, rootDraft, root, run)
    requires t in run.done || t == Target(root, rootUri, rootDraft)
    requires u in run.done || u == Target(root, rootUri, rootDraft)
    requires t.base == u.base
    ensures t == u
  {
    hide Covered, Reached, Embed;
    forall d | d in run.done ensures d.base in Bases(run.done) {
      var k :| 0 <= k < |run.done| && run.done[k] == d;
    }
  }

  // ---------------------------------------------------------------- without fragments

  lemma {:induction false} ChainIsEmbedded(reg: Registry, rootUri: Uri, rootDraft: Draft, root: Json, run: State,
                                           c: seq<Target>, i: nat)
    requires Complete(reg, rootUri, rootDraft, root, run) && FragmentFree(reg, rootUri, rootDraft, root, run)
    requires Chain(reg, Place(root, rootDraft, rootUri), c) && i < |c|
    ensures c[i] in run.done || c[i] == Target(root, rootUri, rootDraft)
    decreases i
  {
    hide Covered, NoFragments, Embed, LinksTo, Reached;
    var from := Target(root, rootUri, rootDraft);
    if i > 0 {
      ChainIsEmbedded(reg, rootUri, rootDraft, root, run, c, i - 1);
      from := c[i - 1];
    }
    assert Before(Place(root, rootDraft, rootUri), c, i) == Original(from);
    LinkIsVisited(reg, rootUri, rootDraft, root, run, from, c[i]);
    LinksToWhole(reg, Original(from), c[i]);
    if c[i].base != rootUri {
      var d :| d in run.done && d.base == c[i].base;
      DoneIsWhole(reg, rootUri, rootDraft, root, run, d);
    }
  }

  // What is embedded is exactly what references lead to, over any number of schemas, the root left out.
  lemma EmbedsExactlyReachable(reg: Registry, rootUri: Uri, rootDraft: Draft, root: Json, run: State, t: Target)
    requires Complete(reg, rootUri, rootDraft, root, run) && FragmentFree(reg, rootUri, rootDraft, root, run)
    ensures t in run.done <==>
            t.base != rootUri && Reachable(reg, Place(root, rootDraft, rootUri), t)
  {
    hide Covered, NoFragments, Embed, LinksTo, Chain, Reached;
    if t in run.done {
      var i :| 0 <= i < |run.log| && run.log[i] == t;
      var c := LoggedByChain(reg, rootUri, rootDraft, root, run, i);
      assert Reachable(reg, Place(root, rootDraft, rootUri), t);
      var k :| 0 <= k < |run.done| && run.done[k] == t;
      assert t.base in Bases(run.done);
    }
    if c :| c != [] && c[|c| - 1] == t && Chain(reg, Place(root, rootDraft, rootUri), c) {
      ChainIsEmbedded(reg, rootUri, rootDraft, root, run, c, |c| - 1);
    }
  }

  lemma FragmentFreeHasOneEach(reg: Registry, rootUri: Uri, rootDraft: Draft, root: Json, run: State)
    requires Complete(reg, rootUri, rootDraft, root, run) && FragmentFree(reg, rootUri, rootDraft, root, run)
    ensures OneTargetPerUri(reg, Target(root, rootUri, rootDraft))
  {
    hide Covered, NoFragments, Embed, LinksTo, Chain, Reached;
    forall t | Reachable(reg, Place(root, rootDraft, rootUri), t)
      ensures t in run.done || t == Target(root, rootUri, rootDraft)
    {
      var c :| c != [] && c[|c| - 1] == t && Chain(reg, Place(root, rootDraft, rootUri), c);
      ChainIsEmbedded(reg, rootUri, rootDraft, root, run, c, |c| - 1);
    }
    EmbedsAllExactly(reg, rootUri, rootDraft, root, run);
  }

  // ---------------------------------------------------------------- nested schemas that declare a draft

  // The walk follows every reference that is read, starting from the root.
  ghost predicate NothingMissed(reg: Registry, top: Target) {
    forall t :: ReachableAsRead(reg, Original(top), t) ==> Reachable(reg, Original(top), t) || t == top
  }

  // All that is read is embedded exactly when it can be reached by the walk's reading as well, which passes
  // by the draft that a nested schema declares.
  lemma AllReadEmbeddedExactly(reg: Registry, rootUri: Uri, rootDraft: Draft, root: Json, run: State)
    requires Complete(reg, rootUri, rootDraft, root, run) && AbsoluteDone(reg, run)
    requires OneTargetPerUri(reg, Target(root, rootUri, rootDraft))
    ensures AllReadEmbedded(reg, Target(root, rootUri, rootDraft), run)
            <==> NothingMissed(reg, Target(root, rootUri, rootDraft))
  {
    hide Complete, Reachable, ReachableAsRead, OneTargetPerUri;
    var start, top := Place(root, rootDraft, rootUri), Target(root, rootUri, rootDraft);
    EmbedsAllExactly(reg, rootUri, rootDraft, root, run);
    forall t | t in run.done ensures Reachable(reg, start, t) {
      DoneIsReachable(reg, rootUri, rootDraft, root, run, t);
    }
  }

  lemma WithoutFragmentsAllReadEmbedded(reg: Registry, rootUri: Uri, rootDraft: Draft, root: Json, run: State)
    requires Complete(reg, rootUri, rootDraft, root, run) && FragmentFree(reg, rootUri, rootDraft, root, run)
    ensures AllReadEmbedded(reg, Target(root, rootUri, rootDraft), run)
            <==> NothingMissed(reg, Target(root, rootUri, rootDraft))
  {
    hide Complete, NothingMissed, AllReadEmbedded, OneTargetPerUri;
    FragmentFreeHasOneEach(reg, rootUri, rootDraft, root, run);
    AllReadEmbeddedExactly(reg, rootUri, rootDraft, root, run);
  }

  // No subresource at or below the schema declares another draft.
  predicate DraftsUniform(draft: Draft, schema: Json)
    decreases schema
  {
    forall c :: c in SubresourcesOf(draft, schema) ==> Detect(draft, c) == draft && DraftsUniform(draft, c)
  }

  // Then it is read as it is walked.
  lemma {:induction false} UniformReads(reg: Registry, p: Place)
    requires DraftsUniform(p.draft, p.schema)
    ensures forall t :: LinksToAsRead(reg, p, t) <==> LinksTo(reg, p, t)
    ensures ResolvesAsRead(reg, p) <==> !Broken(reg, p) && NoFragments(p.draft, p.schema)
    decreases p.schema
  {
    hide SubresourcesOf, Lookup, Detect;
    if p.schema.JObject? && Scope(reg, p.base, p.draft, p.schema).Some? {
      var scope := Scope(reg, p.base, p.draft, p.schema).value;
      forall c | c in SubresourcesOf(p.draft, p.schema)
        ensures AsRead(c, p.draft, scope) == Place(c, p.draft, scope)
        ensures forall t :: LinksToAsRead(reg, Place(c, p.draft, scope), t) <==> LinksTo(reg, Place(c, p.draft, scope), t)
        ensures ResolvesAsRead(reg, Place(c, p.draft, scope))
                <==> !Broken(reg, Place(c, p.draft, scope)) && NoFragments(p.draft, c)
      {
        UniformReads(reg, Place(c, p.draft, scope));
      }
    } else {
      PlainIsFragmentFree(p.draft, p.schema);
    }
  }

  lemma PlainIsFragmentFree(draft: Draft, schema: Json)
    ensures !schema.JObject? ==> NoFragments(draft, schema)
  {
  }

  // Every embedded resource, and the root, is of one draft throughout.
  ghost predicate AllUniform(rootDraft: Draft, root: Json, run: State) {
    DraftsUniform(rootDraft, root) && forall t :: t in run.done ==> DraftsUniform(t.draft, t.contents)
  }

  lemma {:induction false} UniformChain(reg: Registry, rootUri: Uri, rootDraft: Draft, root: Json, run: State,
                                        c: seq<Target>, i: nat)
    requires Complete(reg, rootUri, rootDraft, root, run) && FragmentFree(reg, rootUri, rootDraft, root, run)
    requires AllUniform(rootDraft, root, run)
    requires ChainAsRead(reg, Place(root, rootDraft, rootUri), c) && i < |c|
    ensures c[i] in run.done || c[i] == Target(root, rootUri, rootDraft)
    decreases i
  {
    hide Covered, NoFragments, Embed, LinksTo, LinksToAsRead, Reached, DraftsUniform, IsAbsolute;
    var from := Target(root, rootUri, rootDraft);
    if i > 0 {
      UniformChain(reg, rootUri, rootDraft, root, run, c, i - 1);
      from := c[i - 1];
    }
    assert Before(Place(root, rootDraft, rootUri), c, i) == Original(from);
    UniformReads(reg, Original(from));
    LinkIsVisited(reg, rootUri, rootDraft, root, run, from, c[i]);
    LinksToWhole(reg, Original(from), c[i]);
    if c[i].base != rootUri {
      var d :| d in run.done && d.base == c[i].base;
      DoneIsWhole(reg, rootUri, rootDraft, root, run, d);
    }
  }

  // In documents of one draft throughout, and without fragments, whatever is read resolves and is embedded.
  lemma UniformIsReadable(reg: Registry, rootUri: Uri, rootDraft: Draft, root: Json, run: State)
    requires Complete(reg, rootUri, rootDraft, root, run) && FragmentFree(reg, rootUri, rootDraft, root, run)
    requires AllUniform(rootDraft, root, run)
    ensures Readable(reg, rootUri, rootDraft, root, run)
  {
    hide Complete, ChainAsRead, NoFragments, Covered, Broken, ResolvesAsRead, LinksToAsRead, LinksTo, IsAbsolute, DraftsUniform;
    var start, top := Place(root, rootDraft, rootUri), Target(root, rootUri, rootDraft);
    forall t | ReachableAsRead(reg, start, t) ensures t in run.done || t == top {
      var c :| c != [] && c[|c| - 1] == t && ChainAsRead(reg, start, c);
      UniformChain(reg, rootUri, rootDraft, root, run, c, |c| - 1);
    }
    forall t | AmongRead(reg, top, t) ensures ResolvesAsRead(reg, Original(t)) {
      assert t in run.done || t == top;
      OriginalCovered(reg, rootUri, rootDraft, root, run, t);
      CoveredMeans(reg, Original(t), run.visited);
      UniformReads(reg, Original(t));
    }
  }

  // ---------------------------------------------------------------- with fragments

  // What is embedded under a URI is the target of the one reference that was followed: the copy has the
  // keywords of that target, and none of the others that the document at that URI may have.
  lemma OnlyThePartIsEmbedded(reg: Registry, rootUri: Uri, rootDraft: Draft, root: Json, run: State, t: Target)
    requires Complete(reg, rootUri, rootDraft, root, run) && t in run.done && t.contents.JObject?
    ensures var definition := Get(run.defs, Other(t.base));
            && definition == Some(Embed(t, rootDraft)) && definition.value.JObject?
            && forall key: Key :: !key.Id? && !key.LegacyId? ==>
                 Get(definition.value.entries, key) == Get(t.contents.entries, key)
  {
    hide Embed, Reached, Covered, Get;
    var i :| 0 <= i < |run.done| && run.done[i] == t;
    DefsDistinct(reg, rootUri, rootDraft, run);
    GetAt(run.defs, i);
    forall key { EmbeddedGet(t, rootDraft, key); }
    EmbedsObject(t, rootDraft);
  }

  lemma EmbedsObject(t: Target, rootDraft: Draft)
    requires t.contents.JObject?
    ensures Embed(t, rootDraft).JObject?
  {
  }

  // A reference in a schema under a keyword of the root is followed, wherever the draft has that schema.
  lemma ReferenceIsFollowed(reg: Registry, rootUri: Uri, rootDraft: Draft, root: Json, run: State, k: Key, c: Json, t: Target)
    requires Complete(reg, rootUri, rootDraft, root, run)
    requires root.JObject? && DistinctKeys(root.entries) && Found(rootDraft, root.entries, k, c)
    requires ExternalRef(c).Some? && IdOf(rootDraft, root).None? && IdOf(rootDraft, c).None?
    requires Lookup(reg, rootUri, ExternalRef(c).value) == Some(t) && t.base != rootUri
    ensures exists d :: d in run.done && d.base == t.base
  {
    hide Embed, Lookup, ExternalRef, SubresourcesOf, IdOf, Reached, Found;
    SubresourcesExactly(rootDraft, root.entries, c);
    assert ExternalRef(c).Some? ==> c.JObject? by { RefsNeedObject(c); }
    assert Covered(reg, Place(c, rootDraft, rootUri), run.visited);
    assert t.base in Bases(run.done);
  }

  lemma RefsNeedObject(c: Json)
    ensures ExternalRef(c).Some? ==> c.JObject?
  {
  }

  // The reference of a root that is a bare reference is followed, whatever its fragment.
  lemma BareReferenceIsEmbedded(reg: Registry, rootUri: Uri, rootDraft: Draft, root: Json, run: State, t: Target)
    requires Complete(reg, rootUri, rootDraft, root, run)
    requires root.JObject? && SubresourcesOf(rootDraft, root) == [] && ExternalRef(root).Some?
    requires Scope(reg, rootUri, rootDraft, root).Some?
    requires Lookup(reg, Scope(reg, rootUri, rootDraft, root).value, ExternalRef(root).value) == Some(t)
    requires t.base != rootUri
    ensures t in run.done
  {
    hide Embed, Lookup, ExternalRef, SubresourcesOf, Scope;
    var start := Place(root, rootDraft, rootUri);
    assert t.base in run.visited;
    assert run.log != [];
    assert LinksTo(reg, start, run.log[0]);
    assert run.log[0] == t;
    AllDone(reg, rootUri, rootDraft, run, t);
  }
}
