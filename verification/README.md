# Verification models

Dafny models of six parts of the repository, with proofs of what those parts promise. Run
`dafny verify dfyconfig.toml` in this directory to check them all.

Code that works by changing state is modelled by classes and loops, proved against a function of the old
state; what the source promises is then proved about that function, for all inputs, all runs or all
interleavings.

## The GIL runtime (`GilMachine`, `GilProofs`, `GilTheorems`, `GilWork`, `GilRuntime`, `GilCounting`, `GilHandles`)

`GilMachine` is a transition system over any number of threads. A state holds the owner of the GIL, the
pool of deferred decrefs and its mutex, a reference-counted heap whose objects own references, the handles
(`Py`, owned raw pointers, and the `Bound`s of each thread), and for each thread its GIL count, its stack of
open guards, drain batches and deallocators, and its phase. Each step is one atomic action in the order of
the source: the count is set before `PyEval_RestoreThread`, the GIL is released before the decrement, the
pool is swapped out before the first decref, and the interpreter may drop the GIL inside a call.
`GilProofs` shows the invariant, step by step; `GilTheorems` draws the promises from it. `GilRuntime` has the
functions of `gil.rs` as methods that take those steps, which gives what a single step cannot: the drain
terminates though deallocators drop more references and come back to drain again, and any tree of guards,
suspensions, traverse locks, drops, panics and catches leaves the thread as it was. A deallocator runs any
nesting of guards, suspensions of the GIL, field releases and drops of `Py`s kept elsewhere. What is done is
accounted for exactly: `GilWork` has the work of a piece of code (the `Py`s it drops, its calls of
`PyGILState_Ensure` and `PyEval_SaveThread`) and the work stored in the heap, that of the deallocators still to
run. Every method ends with the handles and the calls that its own work and the work that left the heap make.
`GilCounting` bounds the decrefs of every interleaved run by the references that there were and those created on
the way, and `GilHandles` says which handles and cells each step changes.

Finding: acquiring a guard under a traverse lock calls `PyGILState_Ensure` before the panic
(`pyo3-fork/src/gil.rs:207-208`), and nothing releases it. `RunLeaks` says exactly how many calls are lost in
any run, and `AcquiringUnderTraverseLeaks` gives a run that loses one.

## Detaching and the write-once cell (`Detach`, `OnceCell`)

`Detach` runs any number of threads against one mutex or one `Once` taken through the py_attached functions.
Every run ends, with everything released, and it is never stuck before, and a panic is reported to whoever
takes the lock after it. The same machine without the detaching has a run that deadlocks. `OnceCell` models `GILOnceCell`: all interleavings of racing
initialisers, `set`, `get` and `take`.

## The bundler (`Schema`, `SchemaShapes`, `Bundler`, `BundleMeaning`, `BundleReach`, `BundleIndex`, `BundleExamples`, `NestedExamples`)

`Schema` has JSON values, the subresource locations of each draft, identifiers and a registry; `SchemaShapes`
describes them anew, keyword by keyword and by the shapes of values, and shows that both agree. `Bundler` is
the walk with its `defs` and `visited`, and the merge into the root (section 9.3.1 of JSON Schema Core, draft
2020-12). `BundleReach` says what is embedded: which of the schemas that chains of references lead to.
`BundleMeaning` unfolds a schema, replacing each external reference by what it refers to, to any depth. Two
kinds of keywords are no part of the tree: identifiers, which embedding adds, and definitions, which only
hold schemas to refer to; that the schemas inside definitions keep their meaning too is the more general
`SameInBundle`. `BundleIndex` reads the bundle on its own, through any registry built from it by entering
every schema at every depth under its identifier, in the draft that it declares or inherits.

There are two readings of a nested schema. The walk reads it in the draft of the document around it
(`LinksTo`, `Reachable`, `Broken`); the registry and the validator read it in the draft that it declares, if it
declares one (`LinksToAsRead`, `ReachableAsRead`, `ResolvesAsRead`, `Unfold`). `UniformReads` shows that they
are the same where no nested schema declares another draft.

The bundle means what the root means (`MeaningIsPreserved`) if everything that is read resolves without
fragments (`ReadsResolve`) and is embedded (`AllReadEmbedded`), every URI of an embedded resource is absolute,
the root has no definition of its own under such a URI, no nested identifier claims one for something else
(`OnlyDefinitions`), every embedded resource can be found again by its identifier (`AllDiscoverable`), and its
draft is the one that will be told from the bundle (`DraftsKept`). The last two are exact: the bundle's registry
serves the embedded resources as they were if and only if both hold (`ServesExactly`). The first two follow from
what can be read off the documents: no reference has a fragment, and no nested schema declares another draft
(`UniformMeaningIsPreserved`).

Findings, each with the condition for all inputs and with an input:

- A resource registered with a draft that it does not declare is read in the root's draft once it is in a
  bundle (`BundleFindsWithDraft`). A draft-07 root that refers to a 2020-12 resource with `prefixItems` and
  without `$schema` changes its meaning (`DraftIsLost`).
- A nested schema that declares another draft than its document is walked in the wrong one. Without fragments,
  all that is read is embedded if and only if the walk reaches it too (`WithoutFragmentsAllReadEmbedded`), and
  with one target for each base URI in general (`AllReadEmbeddedExactly`). A 2020-12 root
  around a draft-07 schema with `items: [{"$ref": "b"}]` is bundled without "b", and its meaning changes
  (`NestedDraftIsMissed`); one with `prefixItems: [{"$ref": "missing"}]` cannot be bundled, though nothing that
  is read is broken (`NestedDraftBreaksBundling`).
- An embedded resource is found again only if it is `Discoverable`. A boolean schema
  (`BooleanIsNotFound`), or a draft-04 to draft-07 document with `$ref` at its root
  (`LegacyReferenceIsNotFound`), is embedded but cannot be found.
- `visited` is keyed by base URI alone. A reference with a fragment embeds the part it leads to under the URI
  of the whole document (the comment at `examples/jsonschema-dep/tests/bundle.rs:227-229` expects the whole
  document), and a reference to another part of it is not followed. All that can be reached is embedded if and
  only if no two reachable targets share a base URI (`EmbedsAllExactly`); with two fragments of one document,
  what one of them refers to is missing whatever the order of the walk (`SecondFragmentIsLost`).

## The string cache (`StringCache`)

The table, its five-slot window that does not wrap around, and the global mutex. The comment at
`examples/jiter/src/py_string_cache.rs:106` calls it fully associative with LRU replacement; it is neither,
and the model follows the code. Finding: a panic with the lock held is never forgotten, so from then on
every call empties the cache first. Once a window is full, new strings with that home slot keep evicting one
another and nothing else.

## Signatures and argument binding (`Signature`, `Binder`, `Repack`)

The parser of `#[pyo3(signature = (...))]` over tokens; the emitted binder as an interpreter of the parsed
specs over a destructively consumed argument list; and the repacking of the bound values for the Rust
function. The reference is section 6.3.4 of the Python Language Reference, with PEP 570 and PEP 3102. The
binder agrees with it on every signature without `**kwargs`; with one, they differ on exactly the calls that
name a positionally filled parameter. Finding: the parser drops the names of the signature
(`crates/pyo3-rustpython-derive/src/pymethods.rs:2476`), and the binder goes by those of the Rust parameters. It
agrees with Python if and only if the names that a keyword can fill are the same in both
(`NamesMatterExactly`): with `signature = (x)` on `f(y)` it takes `y=` and rejects `x=` (`OtherNameDiffers`).
The parser also accepts more than parameter lists (`ParsesExactly`): it asks for no comma between items and for
no order of slashes and stars.

## The JSON driver (`JsonCursor`, `JsonDriver`, `JsonTheorems`, `JsonPartial`)

`JsonCursor` is a token cursor for RFC 8259 in the place of jiter's `Parser`, which is not part of this
model: its error kinds, and which of them partial mode recovers from, are an assumption. On it stands
the driver with its recursion budget, duplicate-key check and partial mode. `Kept` says which document the
first tokens of a truncated one hold, and partial mode reads exactly that. Finding, as far as that assumption
goes: partial mode takes a list or dict for closed where it breaks off, so brackets need not match
(`BracketsNeedNotMatch`).

## The coroutine (`Coroutine`, `CoroutineTheorems`)

The coroutine with its waker, the cancel handle, and a world that does what it likes: the future clones,
drops and wakes wakers while it is polled, other threads do so at any time, and making the asyncio future may
fail. Finding: an error from the event loop (`pyo3-fork/src/coroutine.rs:111`) is raised to the caller but
leaves the coroutine open, unlike every other error; `LoopFails` is the guard of that branch.

## Model

| member | source | states |
|---|---|---|
| GilMachine.PositiveCountHolds | pyo3-fork/src/gil.rs:399-424 | with properly nested guards a positive count means that some open guard holds the GIL |
| GilProofs.StepIsOk | pyo3-fork/src/gil.rs:152-356 | every step passes the GIL and the pool mutex only through the thread that takes it, keeps that thread's count, guards and phase consistent, and loses an Ensure exactly when a guard is counted below zero |
| GilProofs.StepConserves | pyo3-fork/src/gil.rs:266-282 | every step of every thread keeps each refcount equal to the owned references, through drains and deallocators, and never touches a dead object or a count that is not positive |
| GilProofs.StepKeepsInv | pyo3-fork/src/gil.rs:152-424 | the whole invariant is kept by every enabled step |
| GilProofs.ReachableInv | pyo3-fork/src/gil.rs:152-424 | the invariant holds in every state that any number of threads can reach |
| GilTheorems.GilOwnershipSafety | pyo3-fork/src/gil.rs:152-247 | in every reachable state at most one thread runs Rust code with a positive count, and it owns the GIL |
| GilTheorems.CountWithoutGil | pyo3-fork/src/gil.rs:236-322 | a positive count without the GIL occurs exactly between release and decrement, between setting the count and PyEval_RestoreThread, and inside an interpreter call |
| GilTheorems.ReferenceConservation | pyo3-fork/src/gil.rs:365-397 | in every reachable state each refcount is the number of handles, heap fields, pool entries and unprocessed entries of drains and deallocators, and an object lives exactly while that number is positive |
| GilTheorems.NoUseAfterFree | pyo3-fork/src/instance.rs:1876-1883 | an object with a Py, an owned pointer, a Bound or a pool entry is alive, with at least that many references, and decrement_gil_count never sees a count that is not positive |
| GilTheorems.PoolMutexIsShort | pyo3-fork/src/gil.rs:270-282 | the holder of the pool mutex changes no refcount while it holds it and can always give it back at once |
| GilTheorems.RunLeaks | pyo3-fork/src/gil.rs:202-215 | over any run a thread loses one PyGILState_Ensure for each guard acquired under a traverse lock, and none otherwise |
| GilTheorems.AcquiringUnderTraverseLeaks | pyo3-fork/src/gil.rs:202-215 | attaching, locking for traverse and acquiring is such a run: it ends with one Ensure lost |
| GilTheorems.ScopesRestore | pyo3-fork/src/gil.rs:236-247 | once a thread's open guards are those it had before, its count is the same, saves match restores, and ensures exceed releases by exactly the lost ones |
| GilTheorems.TraverseStepFreezes | pyo3-fork/src/gil.rs:330-356 | no step of any thread but the unlock changes the guards or the count of a traversing thread, nor does that thread change a refcount |
| GilTheorems.TraverseLockFreezes | pyo3-fork/src/gil.rs:330-356 | over any run, a thread under a traverse lock gets no guard and keeps the count -1 until it unlocks |
| GilTheorems.DropWithoutGilDefers | pyo3-fork/src/gil.rs:382-397 | dropping a Py without a positive count moves its reference to the pool and changes nothing else |
| GilRuntime.ReleasesOnce | pyo3-fork/src/gil.rs:276-281 | what left the pool, was dropped, or was owned by a freed object was released exactly once, object by object |
| GilCounting.DecrefsArePaidFor | pyo3-fork/src/gil.rs:270-282 | over every run of any number of threads the decrefs, those of drains and deallocators included, are the fall of all refcounts plus the references created meanwhile, so no drain can go on forever while nothing is created |
| GilHandles.TransferMoves | pyo3-fork/src/instance.rs:1133-1138 | turning a handle into another kind takes one of the one kind and gives one of the other, and changes nothing else |
| GilHandles.MadeHandles | pyo3-fork/src/gil.rs:365-380 | each clone or borrow makes one handle of its kind, and a `Py` cloned without the GIL none |
| GilHandles.TakenHandles | pyo3-fork/src/gil.rs:382-397 | each drop takes one handle of its kind, and no other step changes any |
| GilHandles.StepKeepsCells | pyo3-fork/src/gil.rs:270-282 | live objects keep their fields and their deallocators until they are freed, through every step |
| GilRuntime.Process.UpdateCounts | pyo3-fork/src/gil.rs:270-282 | the drain ends with an empty pool, each queued reference released once, the work of every freed object done, and the caller's guards untouched, even when deallocators re-enter it, drop other `Py`s or give up the GIL |
| GilRuntime.Process.Finalize | pyo3-fork/src/impl_/trampoline.rs:227-243 | a deallocator drops exactly the `Py`s that its deeds name, as far as there are any, makes exactly their calls, and so do those it sets off in turn; it ends with all its fields released and the rest of the thread as it was, and with an empty pool if its last drain leaves one |
| GilRuntime.Process.RunDeeds | pyo3-fork/src/impl_/trampoline.rs:227-243 | any nesting of guards, suspensions, field releases and drops of `Py`s kept elsewhere does exactly its work, releases exactly the fields it names, and leaves the pool empty if its last drain does |
| GilRuntime.Process.RunGuarded | pyo3-fork/src/impl_/trampoline.rs:227-243 | a guard held while a deallocator does anything it may leaves the guards below as they were, whatever the drain and the releases set off |
| GilRuntime.Process.RunWithoutGil | pyo3-fork/src/gil.rs:300-322 | a deallocator that gives up the GIL, with drops that are queued and guards that take it again, does their work, has the GIL back with its count, and leaves an empty pool |
| GilRuntime.Process.RegisterDecref | pyo3-fork/src/gil.rs:382-397 | dropping a Py releases it and all it sets off at once with a positive count, and queues it otherwise |
| GilRuntime.Process.AcquireGuard | pyo3-fork/src/gil.rs:152-215 | the guard is Ensured exactly when the count was zero and Assumed when it was positive; a negative count panics and loses one Ensure; the pool is drained |
| GilRuntime.Process.AssumeGuard | pyo3-fork/src/gil.rs:218-226 | the count goes up by one and the pool is drained, or a negative count panics with nothing changed |
| GilRuntime.Process.DropGilGuard | pyo3-fork/src/gil.rs:236-247 | the innermost guard is undone: the count goes down by one, and the GIL is let go exactly if the guard had taken it |
| GilRuntime.Process.SuspendGil | pyo3-fork/src/gil.rs:300-307 | the count is set aside and zero, and the GIL is free |
| GilRuntime.Process.ResumeGil | pyo3-fork/src/gil.rs:309-322 | the count is what it was before the suspension, the GIL is held, and the pool is drained |
| GilRuntime.Process.RunOne | pyo3-fork/src/gil.rs:152-397 | one guard, suspension, traverse lock or drop with anything properly nested inside restores the thread, on return and on panic, and does exactly its work: a dropped `Py` is gone, its reference queued without the GIL and released with it |
| GilRuntime.Process.Run | pyo3-fork/src/gil.rs:152-397 | any sequence of properly nested scopes ends, panics exactly as the reference says, restores count, guards and GIL, and drops and calls exactly what the scopes that are reached and the deallocators they set off name, each reference released once |
| Detach.StepKeepsInv | pyo3-fork/src/sync.rs:616-671 | every step keeps: the attached threads are the GIL's owner, the holder of the lock is in its critical section, and saves lead restores only while blocked |
| Detach.OwnerCanStep | pyo3-fork/src/sync.rs:631-637 | the owner of the GIL is never blocked on the lock: it always has a step |
| Detach.Progress | pyo3-fork/src/sync.rs:616-671 | while a thread is unfinished, some thread can step |
| Detach.EveryRunFinishes | pyo3-fork/src/sync.rs:616-671 | every run is bounded, stuck only when all have finished with GIL and lock free, runs the initialiser to completion at most once, and regains the GIL once per detach on every path |
| Detach.MutualExclusion | pyo3-fork/src/sync.rs:616-671 | at most one thread is in the critical section or in the initialiser |
| Detach.PoisonExactly | pyo3-fork/src/sync.rs:615-634 | over every run a mutex is poisoned once some section has panicked, and a `Once` while the last initialiser that ran has |
| Detach.PoisonIsReported | pyo3-fork/src/sync.rs:615-634 | in every run the holder was told whether a panic has left the lock poisoned, and a blocking call ends as done, refused or with the lock exactly as the initialisers before it ended |
| Detach.ResultsGrow | pyo3-fork/src/sync.rs:615-634 | each call reports once how it ended, and the next one follows unless it was refused or panicked |
| Detach.BlockingAttachedDeadlocks | pyo3-fork/src/marker.rs:342-349 | blocking without detaching has a run that is stuck with unfinished threads |
| OnceCell.FirstSetIsUnique | pyo3-fork/src/sync.rs:249-268 | since the cell was last emptied there is one first value |
| OnceCell.GILOnceCell.Set | pyo3-fork/src/sync.rs:249-268 | the value is stored in an empty cell and handed back from a full one |
| OnceCell.GILOnceCell.Finish | pyo3-fork/src/sync.rs:217-232 | whenever an initialiser comes back, the cell is full, the reference denotes its value, and a value that came too late is discarded |
| OnceCell.GILOnceCell.Fail | pyo3-fork/src/sync.rs:228 | a failing initialiser leaves the cell as it is |
| OnceCell.GILOnceCell.Take | pyo3-fork/src/sync.rs:273-284 | the value is handed out and the cell is empty |
| OnceCell.Interleave | pyo3-fork/src/sync.rs:173-284 | in every interleaving every reference denotes the first value since the last take, and each value is stored, handed back, taken out or discarded exactly once |
| Schema.SubresourcesOf | examples/jsonschema-referencing-dep/src/specification/mod.rs:95-109 | whatever the table of any draft selects is a strict part of the schema, so every walk over subresources ends |
| SchemaShapes.SubresourcesExactly | examples/jsonschema-referencing-dep/src/specification/mod.rs:95-109 | for every draft, a value is among the schemas of a schema if and only if it stands under one of the draft's keywords, as the value, an element or a member, whichever that keyword has |
| SchemaShapes.IdExactly | examples/jsonschema-referencing-dep/src/specification/ids.rs:4-37 | for every draft, exactly which schemas declare an identifier, and which |
| SchemaShapes.ExternalExactly | examples/jsonschema-dep/src/bundler.rs:130-133 | a reference is external exactly if it is a string that does not start with '#' |
| SchemaShapes.LookupMeans | examples/jsonschema-referencing-dep/src/resolver.rs:69-73 | a reference to another document is split at its last '#' and leads to the resource or to what the fragment names in it |
| SchemaShapes.DraftsDeclared | examples/jsonschema-referencing-dep/src/specification/mod.rs:54-87 | the `$schema` of each draft is told, with or without '#', and without one the draft is inherited |
| Bundler.CoveredMeans | examples/jsonschema-dep/src/bundler.rs:127-168 | a schema is covered exactly when nothing in it fails to resolve and all it links to is visited |
| Bundler.BeginKeeps | examples/jsonschema-dep/src/bundler.rs:137-139 | marking a target visited keeps the closure invariant, with the target among those being walked |
| Bundler.EndKeeps | examples/jsonschema-dep/src/bundler.rs:159 | putting a walked target into defs keeps the closure invariant |
| Bundler.Bundler.EmbedTarget | examples/jsonschema-dep/src/bundler.rs:137-160 | an unvisited target is embedded after everything it refers to, or something reachable from it is broken |
| Bundler.Bundler.WalkReference | examples/jsonschema-dep/src/bundler.rs:130-162 | the external reference of a schema is resolved, and its base URI is visited afterwards |
| Bundler.Bundler.Walk | examples/jsonschema-dep/src/bundler.rs:119-171 | the walk ends on every finite registry, keeps visited the disjoint union of root, defs and the URIs being walked, leaves everything below the schema covered, visits only what is reachable, and fails only on something reachable that is broken; nested schemas are read in the draft of their document |
| Bundler.MergedSplits | examples/jsonschema-dep/src/bundler.rs:62-66 | entries with fresh keys are appended in order |
| Bundler.MergeEntries | examples/jsonschema-dep/src/bundler.rs:62-66 | the loop computes the merge in which existing entries win |
| Bundler.MergeDefs | examples/jsonschema-dep/src/bundler.rs:68-100 | the definitions are merged into the chosen container, the draft's own or an existing alternate |
| Bundler.CompleteHasNoFault | examples/jsonschema-dep/src/bundler.rs:119-171 | after a finished run nothing reachable is broken |
| Bundler.BundleFromRegistry | examples/jsonschema-dep/src/bundler.rs:6-19 | a result is the merge of a finished run, in which every external reference that the walk finds in the root or in a definition, reading nested schemas in the draft of their document, leads to the root or to a definition; a failure means that a schema so reached does not resolve what it refers to |
| BundleMeaning.EmbedKeepsBody | examples/jsonschema-dep/src/bundler.rs:102-117 | the identifiers that embedding adds change neither base, reference, subresources nor any other keyword |
| BundleMeaning.MergeKeeps | examples/jsonschema-dep/src/bundler.rs:68-100 | the merge keeps every other keyword of the root and every definition it had, and adds exactly the new ones |
| BundleMeaning.ContainerExactly | examples/jsonschema-dep/src/bundler.rs:77-94 | under which keyword the definitions go, for every draft and whatever containers the root has |
| BundleMeaning.ContainerIsSearched | examples/jsonschema-dep/src/bundler.rs:77-94 | for every draft and whatever containers the root has, each added definition is a subresource of the bundle |
| BundleMeaning.SameInBundle | examples/jsonschema-dep/src/compiler.rs:190-192 | if all that is read from the root resolves and is embedded: read through a registry that serves the embedded resources with their own drafts, any schema that leads only to what the root leads to, definitions included, unfolds to any depth to the tree it has in the original registry, each nested schema in the draft that it declares |
| BundleMeaning.EmbeddedInBundle | examples/jsonschema-dep/src/bundler.rs:102-117 | through such a registry each embedded copy that the reading reaches unfolds as the original resource does |
| BundleMeaning.ServedMeansTheSame | examples/jsonschema-dep/src/bundler.rs:6-19 | through such a registry the bundle unfolds as the root does, if all that is read resolves and is embedded, cycles and back-references to the root included |
| BundleReach.EmbedsAllExactly | examples/jsonschema-dep/src/bundler.rs:134-139 | with or without fragments: everything that chains of references lead to, as the walk reads them, is embedded if and only if no two different targets among the root and the reachable ones share a base URI |
| BundleReach.EmbedsExactlyReachable | examples/jsonschema-dep/src/bundler.rs:119-171 | without fragments, the embedded resources are exactly those that some chain of references, as the walk reads them, leads to from the root, the root left out |
| BundleReach.AllReadEmbeddedExactly | examples/jsonschema-dep/src/bundler.rs:166-168 | with one target for each base URI, everything that is read, each nested schema in the draft that it declares, is embedded if and only if the walk reaches it too |
| BundleReach.WithoutFragmentsAllReadEmbedded | examples/jsonschema-dep/src/bundler.rs:166-168 | without fragments the same holds of every finished run |
| BundleReach.UniformReads | examples/jsonschema-referencing-dep/src/specification/mod.rs:76-87 | a schema in which no subresource declares another draft has the same references, and the same faults, for the walk as for the reading |
| BundleReach.UniformIsReadable | examples/jsonschema-dep/src/bundler.rs:166-168 | in such documents, without fragments, everything that is read resolves and is embedded |
| BundleReach.OnlyThePartIsEmbedded | examples/jsonschema-dep/src/bundler.rs:141-159 | the definition under a URI is the copy of the one target that was followed, a part of a document if the reference had a fragment, with none of the document's other keywords |
| BundleReach.BareReferenceIsEmbedded | examples/jsonschema-dep/src/bundler.rs:130-159 | the target of a root that is a bare reference is embedded, whatever the fragment |
| BundleReach.ReferenceIsFollowed | examples/jsonschema-dep/src/bundler.rs:166-168 | a reference in a schema under any keyword that has schemas in the root's draft is followed: its target's URI is embedded by every finished run |
| BundleIndex.DiscoverableExactly | examples/jsonschema-dep/src/bundler.rs:142-146 | the definition made from a target is entered under the target's URI exactly when the target is an object without a legacy root `$ref` whose declared identifier, if any, names that URI, and else its keyword is one of the two added |
| BundleIndex.AnchorIsNoIdentifier | examples/jsonschema-referencing-dep/src/registry.rs:1236-1249 | a definition whose identifier is an anchor is entered under the base around it only |
| BundleIndex.DefinitionIsIndexed | examples/jsonschema-referencing-dep/src/registry.rs:719-771 | a definition with such an identifier is among the schemas that are entered when the bundle is indexed |
| BundleIndex.BundleFinds | examples/jsonschema-referencing-dep/src/registry.rs:719-771 | any registry built from the bundle has an embedded resource under its URI exactly when it is discoverable, read in the draft that it declares or else in the root's |
| BundleIndex.BundleFindsWithDraft | examples/jsonschema-referencing-dep/src/registry.rs:762-768 | it has it with the original's draft exactly when that draft is also the one detected |
| BundleIndex.ServesExactly | examples/jsonschema-referencing-dep/src/registry.rs:719-771 | the bundle's registry serves the bundle and all embedded resources as they were if and only if each is discoverable and keeps its draft |
| BundleIndex.MeaningIsPreserved | examples/jsonschema-dep/src/bundler.rs:6-19 | if all that is read, each nested schema in the draft that it declares, resolves without fragments and is embedded, embedded URIs are absolute and claimed neither by the root's definitions nor by nested identifiers, resources are discoverable, and their drafts are detected as they were registered, then the bundle on its own unfolds to any depth as the root does in the registry |
| BundleIndex.UniformMeaningIsPreserved | examples/jsonschema-dep/src/bundler.rs:6-19 | the same for fragment-free documents in which no nested schema declares another draft, with nothing more asked of their references |
| BundleExamples.DraftIsLost | examples/jsonschema-referencing-dep/src/resource.rs:48-50 | a draft-07 root with a 2020-12 resource that does not say so meets every other condition, and the meaning of the bundle differs in every registry built from it |
| BundleExamples.BooleanIsNotFound | examples/jsonschema-dep/src/bundler.rs:141-146 | a boolean resource is bundled, and no registry built from the bundle has it |
| BundleExamples.LegacyReferenceIsNotFound | examples/jsonschema-referencing-dep/src/specification/ids.rs:11-22 | a draft-07 resource with `$ref` at its root is bundled, and no registry built from the bundle has it |
| BundleExamples.PartsRunIsComplete | examples/jsonschema-dep/src/bundler.rs:134-139 | a root with references to two fragments of one document is bundled without an error |
| BundleExamples.SecondFragmentIsLost | examples/jsonschema-dep/src/bundler.rs:134-139 | for that root every finished run misses something reachable: what one of the two parts refers to is not embedded |
| BundleExamples.PropertyIsFollowed | examples/jsonschema-dep/src/bundler.rs:166-168 | for every draft, every finished run on a root whose property refers to "b" embeds "b" |
| NestedExamples.NestedDraftIsMissed | examples/jsonschema-dep/src/bundler.rs:127 | a 2020-12 root around a draft-07 schema with a list under `items` meets every other condition, what the list refers to is read but not embedded, and the meaning of the bundle differs in every registry built from it |
| NestedExamples.NestedDraftBreaksBundling | examples/jsonschema-dep/src/bundler.rs:166-168 | a 2020-12 root around a draft-07 schema with a broken reference under `prefixItems` reads nothing that is broken, and no run of the bundler succeeds |
| StringCache.HitIffCached | examples/jiter/src/py_string_cache.rs:129-144 | a probe that stops at the first vacant slot hits exactly the cached strings |
| StringCache.LooksAtFiveSlots | examples/jiter/src/py_string_cache.rs:103-145 | a lookup hits exactly a string in one of the five slots from hash modulo 16384 on, within the table, with no vacant slot before it |
| StringCache.AfterSpec | examples/jiter/src/py_string_cache.rs:125-150 | a call keeps the table in order; a hit changes nothing; a miss adds the string and evicts at most the one in its home slot, and only when the in-range window is full |
| StringCache.UsageCounts | examples/jiter/src/py_string_cache.rs:152-154 | the number of occupied slots is the number of distinct cached strings |
| StringCache.PresentAfter | examples/jiter/src/py_string_cache.rs:125-158 | how each event changes which strings were inserted and neither evicted nor cleared since |
| StringCache.PyStringCache.GetOrInsert | examples/jiter/src/py_string_cache.rs:125-150 | returns the text, hits exactly the present strings, and logs what was inserted and evicted |
| StringCache.PyStringCache.GetUsage | examples/jiter/src/py_string_cache.rs:152-154 | counts the distinct cached strings |
| StringCache.PyStringCache.Clear | examples/jiter/src/py_string_cache.rs:156-158 | nothing is cached afterwards |
| StringCache.EvictsMostRecentlyUsed | examples/jiter/src/py_string_cache.rs:106 | the string used by the last call can be the one that is evicted next |
| StringCache.MissesShareTheHomeSlot | examples/jiter/src/py_string_cache.rs:145-148 | for every full window and every sequence of uncached strings with that home, each string evicts the one before it from the home slot and the rest of the table stays |
| StringCache.GlobalCache.Lock | examples/jiter/src/py_string_cache.rs:69-81 | a poisoned lock empties the cache, whatever the panic left behind, and stays poisoned |
| StringCache.GlobalCache.CachedPyString | examples/jiter/src/py_string_cache.rs:93-100 | only texts of 2 to 63 bytes are cached; after a panic a call leaves its own string alone in the cache |
| StringCache.GlobalCache.CacheUsage | examples/jiter/src/py_string_cache.rs:83-85 | the number of cached strings, and always zero after a panic |
| StringCache.GlobalCache.CacheClear | examples/jiter/src/py_string_cache.rs:87-89 | nothing is cached afterwards |
| Signature.MarkAll | crates/pyo3-rustpython-derive/src/pymethods.rs:2460-2464 | a slash makes every earlier parameter positional-only that is not keyword-only |
| Signature.ParseSignatureSpec | crates/pyo3-rustpython-derive/src/pymethods.rs:2437-2509 | the loop over mutable flags computes the parse as a function, errors included |
| Signature.ParsePrint | crates/pyo3-rustpython-derive/src/pymethods.rs:2457-2497 | every parameter list, with or without a trailing comma, parses back to the specs it means, where parameters after `*args` are not flagged keyword-only |
| Signature.ParsesExactly | crates/pyo3-rustpython-derive/src/pymethods.rs:2453-2500 | which token lists are accepted, and so which are rejected: those in which every default, comma and token has its place |
| Binder.FuncArgs.BindOne | crates/pyo3-rustpython-derive/src/pymethods.rs:268-325 | one emitted statement takes the value from where the spec says and leaves the rest |
| Binder.FuncArgs.BindAll | crates/pyo3-rustpython-derive/src/pymethods.rs:1402-1414 | the emitted statements in order, then the rejection of leftovers |
| Binder.BindFits | crates/pyo3-rustpython-derive/src/pymethods.rs:1283-1355 | the binder accepts exactly the calls in which every argument has a slot and every slot a value, and gives each parameter that value |
| Binder.BinderRefinesPython | crates/pyo3-rustpython-derive/src/pymethods.rs:247-325 | without `**kwargs`, and with Rust parameters of the signature's names, parsing and binding together accept exactly the calls that Python accepts, with the same values |
| Binder.KwargsDifference | crates/pyo3-rustpython-derive/src/pymethods.rs:289-302 | with `**kwargs` the binder differs from Python exactly on calls that fit but name a positionally filled parameter |
| Binder.KwargsDiffers | crates/pyo3-rustpython-derive/src/pymethods.rs:289-302 | such a call exists |
| Repack.GenerateBinder | crates/pyo3-rustpython-derive/src/pymethods.rs:1283-1298 | the loop gives each parameter but the interpreter tokens the next spec of the signature |
| Repack.EmitMatches | crates/pyo3-rustpython-derive/src/pymethods.rs:1283-1298 | wherever the tokens stand, parameters and specs are paired in order |
| Repack.UnlistedArePlain | crates/pyo3-rustpython-derive/src/pymethods.rs:1283-1325 | parameters that the signature does not list are required, by position or by name, and surplus specs are dropped |
| Repack.Extract | crates/pyo3-rustpython-derive/src/pymethods.rs:1610-1638 | the extraction consumes the packed list one at a time |
| Repack.DeliverEach | crates/pyo3-rustpython-derive/src/pymethods.rs:1357-1366 | each parameter is handed precisely the value packed for it, for any placement of tokens |
| Repack.NamesMatterExactly | crates/pyo3-rustpython-derive/src/pymethods.rs:2476 | for any Rust parameters: binder and Python agree on all calls if and only if there are as many as in the signature and those that a keyword can fill have the same names |
| Repack.OtherNameDiffers | crates/pyo3-rustpython-derive/src/pymethods.rs:2476 | with another name in the signature the binder rejects the call by that name and accepts the one by the Rust name |
| Repack.CallDelivers | crates/pyo3-rustpython-derive/src/pymethods.rs:1402-1420 | from call to Rust function, with names that agree where a keyword can fill them: accepted exactly as Python does, and each parameter gets Python's value for it |
| Repack.ArgumentsConserved | crates/pyo3-rustpython-derive/src/pymethods.rs:1357-1362 | each argument of a successful bind lands in exactly one parameter, `*args` and `**kwargs` included, in order and under its name |
| JsonDriver.PythonParser.PyTakeValue | examples/jiter/src/python.rs:100-148 | reads the value that the reference gives, and leaves the recursion budget as it was on success, error and recovery |
| JsonDriver.PythonParser.ParseArray | examples/jiter/src/python.rs:150-163 | the loop keeps the elements read before an error, and the budget |
| JsonDriver.PythonParser.ParseObject | examples/jiter/src/python.rs:165-186 | the loop keeps the entries read before an error, checks keys before values, and keeps the budget |
| JsonDriver.PythonParser.CheckTake | examples/jiter/src/python.rs:196-206 | the budget goes down for one value and back up, within the range of u8 |
| JsonDriver.PythonParser.ParseAll | examples/jiter/src/python.rs:92-97 | one value, and nothing after it unless in partial mode |
| JsonTheorems.TakePrinted | examples/jiter/src/python.rs:100-148 | every document that fits the budget is read back to its value, in both modes, and nothing behind it is touched |
| JsonTheorems.TakeSound | examples/jiter/src/python.rs:100-186 | what is accepted outside partial mode is a printed document with that value, within the budget and without repeated keys if they are checked |
| JsonTheorems.TakeRejected | examples/jiter/src/python.rs:196-206 | a document that does not fit is rejected in both modes, with an error that names a fault it has: too deep, or a repeated key |
| JsonTheorems.AcceptsExactly | examples/jiter/src/python.rs:76-98 | outside partial mode the accepted inputs are exactly the documents whose depth is at most the limit |
| JsonPartial.TakeKept | examples/jiter/src/python.rs:100-148 | any non-empty prefix of a document that fits is accepted and read to its end, and its value is that of the document its tokens hold, repeated keys or not |
| JsonPartial.PartialPrefix | examples/jiter/src/python.rs:188-194 | a document truncated at a token boundary is read as the elements that have begun and the members whose value has begun, recursively; the empty prefix is an error even in partial mode |
| JsonPartial.KeptIsCut | examples/jiter/src/python.rs:150-186 | with distinct keys truncation loses only what comes later, recursively |
| JsonPartial.KeysSurvive | examples/jiter/src/python.rs:165-186 | repeated keys or not, the dict of a truncated document has only keys of the whole one |
| JsonPartial.ParseTail | examples/jiter/src/python.rs:92-97 | for every document that fits and every tail: partial mode returns the value whatever follows, otherwise anything behind the document is an error |
| JsonPartial.PartialAgrees | examples/jiter/src/python.rs:188-194 | partial mode changes nothing about complete input |
| JsonPartial.TakeFollowsStrict | examples/jiter/src/python.rs:188-194 | on any input, up to the first error both modes agree, and partial mode passes on exactly the errors it does not recover from |
| JsonPartial.MalformedFailsAlike | examples/jiter/src/python.rs:188-194 | input whose first error is of another kind fails in both modes with that error |
| JsonPartial.TrailingCommaIsRejected | examples/jiter/src/python.rs:150-163 | a comma before the closing bracket is an error in both modes, whatever follows |
| JsonPartial.ListBreaksOff | examples/jiter/src/python.rs:150-163 | a list with a foreign token behind an element is taken for closed in partial mode and an error otherwise |
| JsonPartial.DictBreaksOff | examples/jiter/src/python.rs:165-186 | and so is a dict |
| JsonPartial.BracketsNeedNotMatch | examples/jiter/src/python.rs:188-194 | partial mode reads a list inside a dict without its closing bracket as if it were there |
| JsonPartial.RepeatedKeyIsOverwritten | examples/jiter/src/python.rs:173-182 | with a repeated key the prefix can hold a value that the whole overwrites, so the value is no cut of the whole |
| Coroutine.Coroutine.DoPoll | pyo3-fork/src/coroutine.rs:74-123 | one call as a transition of coroutine, wakers and cancel handle |
| Coroutine.Coroutine.ResetOrReplaceWaker | pyo3-fork/src/coroutine.rs:90-94 | the waker is reset in place only if nobody else has a clone |
| Coroutine.Coroutine.InitializeFuture | pyo3-fork/src/coroutine.rs:110-122 | yields the asyncio future, or None if the waker was woken meanwhile, or raises the event loop's error |
| Coroutine.Coroutine.ThrowCallback | pyo3-fork/src/coroutine/cancel.rs:70-77 | keeps the last exception and wakes whoever waits for one |
| CoroutineTheorems.PollKeepsInv | pyo3-fork/src/coroutine.rs:74-123 | every call keeps each clone and each asyncio future with the poll that last reset its waker |
| CoroutineTheorems.RunKeepsInv | pyo3-fork/src/coroutine.rs:148-168 | so does every sequence of calls with anything in between |
| CoroutineTheorems.StaleClonesAreHarmless | pyo3-fork/src/coroutine.rs:89-95 | after any run, a clone kept from an earlier poll releases at most that poll's asyncio future and leaves the current waker alone |
| CoroutineTheorems.OneCall | pyo3-fork/src/coroutine.rs:74-109 | a call polls once or not at all, never a dropped future, and closes the coroutine exactly on a final outcome |
| CoroutineTheorems.OutcomeExactly | pyo3-fork/src/coroutine.rs:74-124 | for every state and call: the result, the error and the panic of the future are delivered each as that and only then, a thrown exception comes back exactly if nobody takes it, and a pending future yields or fails on the event loop |
| CoroutineTheorems.ResetExactly | pyo3-fork/src/coroutine.rs:89-94 | the waker is reset in place exactly if nobody else holds a clone, and replaced otherwise with the old one as it was |
| CoroutineTheorems.InitializeTellsCell | pyo3-fork/src/coroutine/waker.rs:28-36 | a waker's cell is written once, and the call yields what it holds afterwards |
| CoroutineTheorems.KeptCloneWakes | pyo3-fork/src/coroutine/waker.rs:39-51 | a kept clone wakes what the context's waker wakes |
| CoroutineTheorems.RefusedExactly | pyo3-fork/src/coroutine.rs:74-79 | in any run a call raises the reuse error exactly if a final outcome or a close came before it |
| CoroutineTheorems.AtMostOneFinal | pyo3-fork/src/coroutine.rs:148-168 | after a final outcome every later call raises the reuse error |
| CoroutineTheorems.LoopErrorExactly | pyo3-fork/src/coroutine.rs:110-111 | a call raises the event loop's error exactly when it gets to poll, the future is pending, nothing has woken its waker during the poll, and no asyncio future can be made |
| CoroutineTheorems.RaisingClosesUnlessLoop | pyo3-fork/src/coroutine.rs:99-111 | of all calls that raise, exactly those in that case leave the coroutine open |
| CoroutineTheorems.LoopErrorIsRetried | pyo3-fork/src/coroutine.rs:111 | after such an error the next call polls the future again |
| CoroutineTheorems.YieldedIsReleased | pyo3-fork/src/coroutine/waker.rs:43-51 | no wake-up is lost: once a call has yielded an asyncio future, any clone of that poll's waker releases it |
| CoroutineTheorems.WokenYieldsNone | pyo3-fork/src/coroutine.rs:120-122 | a future that wakes itself while pending makes the call yield None |
| CoroutineTheorems.ThrowReachesFuture | pyo3-fork/src/coroutine/cancel.rs:70-77 | a thrown exception is there for the poll of the same call, and the one who waited is woken |
| CoroutineTheorems.ThrowWakesWaiter | pyo3-fork/src/coroutine/cancel.rs:31-44 | a future that has looked for an exception in vain is woken by the next throw |

## Left out

- GilRuntime.Process.Run: runs one thread's scopes without interruption, because the interleavings are in the machine; guards are dropped in the reverse order of their creation there and in the machine.
- GilRuntime.Process.Finalize: no other thread runs while a deallocator has given up the GIL; that is in the machine. A deallocator creates no object. One that panics is one that does less.
- A pool that was never used is an empty pool here; a poisoned pool mutex is left out.
- The free-threaded build, critical sections, GC and the build options that disable the pool or leak; interpreter start and end.
- `OnceLock` through `get_or_init_py_attached`, which is the `Once` case with a value.
- Detach.EveryRunFinishes: one lock, taken without nesting, by threads that each make a bounded number of calls.
- Order of JSON object keys after bundling: definitions are appended in the order of embedding.
- BundleIndex.MeaningIsPreserved: references without a fragment, as said above. `$dynamicRef` and `$recursiveRef` are plain text in the unfolding. The bundler does not follow them, so with `{"$dynamicRef": "other.json#node"}` "other.json" is not embedded and what the reference means is lost with it.
- BundleIndex.BundleFinds: where nested schemas of the bundle claim the URI of an embedded resource for something else, which of them a registry keeps is left open.
- References within a document keep their text and base in the unfolding; resolving JSON pointers and anchors is a table of the registry.
- Building and fetching the registry, URI resolution (a parameter) and the async entry points.
- The hash of the string cache is any fixed function; building Python strings is left out.
- Typed receivers, VM parameters, error texts and arity ranges of the binder; the default expressions are one token each.
- Reading numbers and strings byte by byte, truncation inside a token, and error positions in the JSON driver.
- The names of the coroutine; an asyncio future that is done before it is first awaited.
- Wrappers around RustPython, token generation, type conversion, tables of exceptions and formats.
