# Owner-tree resolution and pod watching for a deploy script

This project models the core of a deploy script (the `4-tilt` variant) that
finds the pods of a freshly applied Deployment by the UID of their owners.

**Owner trees and the resolver** (`4-tilt/tilt/owner_fetcher.go`).
- An `ObjectRefTree` holds an object reference and, in declared order, the trees of its owners.
  - It answers whether any node carries a given UID.
  - It renders as indented `Kind:Name` lines.
- An `OwnerFetcher` builds that tree for an object. It walks the object's `ownerReferences` recursively and keeps three tables:
  - `cache`: one promise per UID. The first caller for a UID resolves the promise. Every later caller reads the stored pair.
  - `metaCache`: object metadata by UID. It is filled once per (namespace, kind) by a bulk list and then kept fresh by a watch.
  - `resourceFetches`: the once-flag of each such bulk fetch.
- A metadata lookup works like this:
  - it asks for the REST mapping first;
  - it then runs the bulk fetch;
  - it answers from the table if it can, and otherwise falls back to a direct get;
  - a not-found answer makes a leaf node, and any other error aborts the node.
- An `objectTreePromise` is a one-shot cell. It is resolved with a tree or rejected with an error.

**Pod rules and the pod-event callback** (`4-tilt/main.go`).
- `podPhase` reports a deleting pod as `Terminating`.
- `containerStatus` reports on the first container only, in the priority Waiting, then Running, then Terminated.
- `sanitize` turns a random phrase into a lower-case label.
- For every pod event, the callback does the following:
  - it resolves the pod's owner tree;
  - it drops pods the Deployment does not own;
  - it notes, once per pod, a pod built from another pod template;
  - it prints a pod whenever its (phase, container status) pair changes;
  - it closes `done` when a pod is Running with a Running container.

**How the model is built.**
- The API server is a value, `Cluster`. It holds four total functions: REST mapping, list, watch and get.
- The concurrency is made sequential:
  - the mutex and `sync.Once` are plain state, and a once-flag is a boolean;
  - the watch goroutine is the method `ApplyWatchEvent`, one event per call;
  - a promise's `done` channel is a boolean field.
- The resolver assumes an acyclic owner graph. On a cycle it would wait forever on its own pending promise. The model states acyclicity with two ghost rank functions:
  - each owner reference ranks below the object that declares it;
  - these ranks are the termination measure of the recursion;
  - they also prove that a caller never meets a promise that is still pending.
- Ghost state pairs each promise with a record of its state (`recs`), so that the resolver's contracts can speak of every record at once.
- Each resolver method is proved against a ghost function that computes the whole call as a value, `Run(tree, err, tables, records)`:
  - `RefRun` for OwnerTreeOfRef, `FreshRun` for the part after the record is opened, `MetaRun` once metadata is known, `NodeRun` for ownerTreeOfHelper after k owners, `ObjRun` for OwnerTreeOf;
  - the lemmas about these functions state the tree's shape at every depth.

Files:
- `kube.dfy`: the API value types and errors.
- `ref_tree.dfy`: the owner tree.
- `tree_promise.dfy`: the promise.
- `owner_spec.dfy`: the tables and lookups as values, the records, and each resolution as a value (`Run`) with its properties.
- `owner_fetcher.dfy`: the resolver class, each method proved against those values.
- `pod_rules.dfy`: `podPhase`, `containerStatus` and `sanitize`.
- `pod_callback.dfy`: the callback, as the function `Callback` and the class `PodTracker`.
- `scenarios.dfy`: a small concrete cluster and the runs of a fresh fetcher and tracker against it.

## Model

| member | source | states |
|---|---|---|
| RefTree.ContainsUIDIffNode | 4-tilt/tilt/owner_fetcher.go:32-42 | ContainsUID holds exactly when some node of the tree, in a pre-order listing, carries the UID |
| RefTree.OwnersContainIffNode | 4-tilt/tilt/owner_fetcher.go:36-40 | some owner subtree contains the UID exactly when a node of the owners' pre-order listing carries it |
| RefTree.LeafContainsOnlyItself | 4-tilt/tilt/owner_fetcher.go:32-42 | a tree with no owners contains exactly its own UID |
| RefTree.StringLines | 4-tilt/tilt/owner_fetcher.go:44-54 | the loop over owners, appending each owner's lines indented, yields the rendering `Lines(t)` |
| RefTree.AppendIndented | 4-tilt/tilt/owner_fetcher.go:49-51 | the inner loop appends every branch line, in order, prefixed with two spaces |
| RefTree.LinesArePreorder | 4-tilt/tilt/owner_fetcher.go:44-54 | the rendering has exactly one line per tree node; line k is the label of the k-th node in pre-order, indented two spaces per level of depth |
| RefTree.OwnerLinesArePreorder | 4-tilt/tilt/owner_fetcher.go:46-52 | the same one-line-per-node correspondence for the owners' block |
| RefTree.FirstLineIsRoot | 4-tilt/tilt/owner_fetcher.go:45 | the first line is `Kind:Name` of the root |
| RefTree.OwnerBlock | 4-tilt/tilt/owner_fetcher.go:46-52 | line j of owner i's rendering appears, prefixed with two spaces, right after the root line and the lines of owners 0..i-1 |
| RefTree.String | 4-tilt/tilt/owner_fetcher.go:56-58 | String joins the rendered lines with a newline |
| RefTree.SplitJoin | 4-tilt/tilt/owner_fetcher.go:57 | splitting a newline-join of lines without newlines gives the lines back |
| RefTree.StringSplitsIntoNodeLines | 4-tilt/tilt/owner_fetcher.go:56-58 | when no label contains a newline, String splits back into exactly the rendering, one line per node |
| TreePromise.ObjectTreePromise.constructor | 4-tilt/tilt/owner_fetcher.go:284-288 | a new promise is pending, with the zero tree and no error |
| TreePromise.ObjectTreePromise.Resolve | 4-tilt/tilt/owner_fetcher.go:290-293 | only a pending promise can be resolved; it then holds the tree, is closed and, with no earlier error, is Resolved |
| TreePromise.ObjectTreePromise.Reject | 4-tilt/tilt/owner_fetcher.go:295-298 | only a pending promise can be rejected; it then holds the error and is Rejected |
| TreePromise.ObjectTreePromise.Wait | 4-tilt/tilt/owner_fetcher.go:300-303 | once closed, wait returns exactly the stored tree and error |
| OwnerSpec.StoreAllKeys | 4-tilt/tilt/owner_fetcher.go:136-138 | after the list loop, the table holds the old UIDs and the UIDs of all listed items, and no others |
| OwnerSpec.StoreAllLastWins | 4-tilt/tilt/owner_fetcher.go:136-138 | a listed item that no later item overrides is stored under its own UID |
| OwnerSpec.StoreAllKeepsOthers | 4-tilt/tilt/owner_fetcher.go:136-138 | an entry whose UID no listed item carries is left as it was |
| OwnerSpec.StoreAllValues | 4-tilt/tilt/owner_fetcher.go:136-138 | every entry afterwards is an old entry or a listed item stored under its own UID |
| OwnerSpec.StoreAllAliased | 4-tilt/tilt/owner_fetcher.go:136-138 | as written (pointer to the loop variable), every entry the list stores shows the last listed item |
| OwnerSpec.AliasedListShowsLastItem | 4-tilt/tilt/owner_fetcher.go:136-138 | for two listed objects with distinct UIDs, the intended table maps the first UID to the first object, while the as-written table maps it to the second object, whose UID and owners differ |
| OwnerSpec.Ensure | 4-tilt/tilt/owner_fetcher.go:119-158 | after the fetch its flag is set, whatever failed; a fetch already done leaves the tables as they were |
| OwnerSpec.EnsureEffect | 4-tilt/tilt/owner_fetcher.go:121-145 | on the first fetch, every listed item is stored if mapping and list succeed; nothing is stored if either fails; the watch starts only when all three succeed; no entry is dropped |
| OwnerSpec.EnsureIdempotent | 4-tilt/tilt/owner_fetcher.go:119-121 | a second fetch of the same (namespace, kind) changes nothing: no retry after a failure |
| OwnerSpec.ApplyEvent | 4-tilt/tilt/owner_fetcher.go:147-156 | a metadata event overwrites exactly the entry of its UID; other events change nothing; flags and watches are untouched |
| OwnerSpec.LookupHitsTable | 4-tilt/tilt/owner_fetcher.go:203-218 | once the kind is fetched and the UID is in the table, the lookup returns that entry and changes no table |
| OwnerSpec.LookupMissFallsBack | 4-tilt/tilt/owner_fetcher.go:212-224 | when the table misses after the fetch, the lookup returns the direct get's answer, NotFound included |
| OwnerSpec.LookupGrows | 4-tilt/tilt/owner_fetcher.go:203-225 | a lookup never removes a table entry, a flag or a watch |
| OwnerSpec.OpenKeepsValid | 4-tilt/tilt/owner_fetcher.go:166-170 | adding a pending record for a new UID keeps every settled record consistent |
| OwnerSpec.SettleKeepsValid | 4-tilt/tilt/owner_fetcher.go:185-191 | settling a pending record with an error and the zero tree, or with a tree rooted at its UID whose owners are settled, keeps every record consistent |
| OwnerSpec.OwnersPrefixStep | 4-tilt/tilt/owner_fetcher.go:269-273 | appending the tree of the next owner, once its record has succeeded, extends the in-order prefix of resolved owners |
| OwnerSpec.OwnersPrefixFails | 4-tilt/tilt/owner_fetcher.go:269-272 | an owner that fails right after a resolved prefix is the first failing owner |
| OwnerSpec.ExtendsTrans | 4-tilt/tilt/owner_fetcher.go:174-201 | keeping every record and adding only settled ones is transitive |
| OwnerSpec.KeepsAssembled | 4-tilt/tilt/owner_fetcher.go:258-276 | an assembled node stays assembled when later steps keep settled records |
| OwnerSpec.StoreAllRanked | 4-tilt/tilt/owner_fetcher.go:136-138 | storing a successful list keeps every entry under its own UID, with its owners ranked below it |
| OwnerSpec.LookupRanked | 4-tilt/tilt/owner_fetcher.go:203-225 | a lookup keeps the table ranked, and metadata it returns for a ranked reference has every owner ranked below that reference |
| OwnerSpec.RefRun | 4-tilt/tilt/owner_fetcher.go:174-201 | the whole of OwnerTreeOfRef as a value: empty UID refused, a recorded UID read back with nothing changed, otherwise a pending record opened and the reference resolved; the tables it leaves are still ranked |
| OwnerSpec.FreshRun | 4-tilt/tilt/owner_fetcher.go:185-200 | the lookup, then a leaf on NotFound, the error on another failure, else the owners; the record is settled last; the tables stay ranked |
| OwnerSpec.MetaRun | 4-tilt/tilt/owner_fetcher.go:185-200 | with the metadata known: the helper over all owners, then the record settled with its pair; the tables stay ranked |
| OwnerSpec.NodeRun | 4-tilt/tilt/owner_fetcher.go:258-276 | ownerTreeOfHelper after its first k owners; the tables stay ranked |
| OwnerSpec.ObjRun | 4-tilt/tilt/owner_fetcher.go:230-255 | the whole of OwnerTreeOf as a value, the object's own reference built from its metadata and type; the tables stay ranked |
| OwnerSpec.RefRunGrows | 4-tilt/tilt/owner_fetcher.go:174-225 | a call to OwnerTreeOfRef never drops a table entry, a fetch flag, a started fetch or a watch |
| OwnerSpec.FreshRunGrows | 4-tilt/tilt/owner_fetcher.go:193-200 | the same for the part after the record is opened |
| OwnerSpec.MetaRunGrows | 4-tilt/tilt/owner_fetcher.go:185-200 | the same once the metadata is known |
| OwnerSpec.NodeRunGrows | 4-tilt/tilt/owner_fetcher.go:258-276 | the same for ownerTreeOfHelper after any number of owners |
| OwnerSpec.ObjRunGrows | 4-tilt/tilt/owner_fetcher.go:227-256 | the same for OwnerTreeOf |
| OwnerSpec.NodeRunShape | 4-tilt/tilt/owner_fetcher.go:258-276 | after k owners: on success the node `ref` with exactly k owner subtrees, the j-th being what resolving owner j returned from the state owners 0..j-1 left; on failure the zero tree and the error of the first owner that failed, every earlier owner having succeeded |
| OwnerSpec.NodeRunSucceeds | 4-tilt/tilt/owner_fetcher.go:259-275 | the success half of NodeRunShape |
| OwnerSpec.NodeRunFails | 4-tilt/tilt/owner_fetcher.go:269-272 | the failure half of NodeRunShape |
| OwnerSpec.NodeRunStopsAtFailure | 4-tilt/tilt/owner_fetcher.go:270-272 | once an owner fails, no later owner is resolved: the helper's outcome, tables and records are those at that failure |
| OwnerSpec.NodeRunStep | 4-tilt/tilt/owner_fetcher.go:261-274 | one loop turn: owner i is resolved from the state owners 0..i-1 left, then its error aborts the node or its tree is appended |
| OwnerSpec.RefRunFreshRoot | 4-tilt/tilt/owner_fetcher.go:193-200 | a reference resolved for the first time that succeeds is the root of the tree it yields |
| OwnerSpec.FreshRunRoot | 4-tilt/tilt/owner_fetcher.go:193-200 | the same after the record is opened |
| OwnerSpec.MetaRunRoot | 4-tilt/tilt/owner_fetcher.go:200 | the same once the metadata is known |
| OwnerSpec.NodeRunOwnerRoots | 4-tilt/tilt/owner_fetcher.go:262-269 | in a successful helper run, every owner subtree the run created itself is rooted at the child's namespace with the owner's kind, name, UID and apiVersion |
| OwnerSpec.ObjRunFresh | 4-tilt/tilt/owner_fetcher.go:235-255 | OwnerTreeOf for a UID with no record: on success the root is the object's name, namespace and UID with its type's kind and apiVersion, with one subtree per declared owner, in order, each what resolving that owner returned; on failure the zero tree; the record ends closed with the pair |
| OwnerSpec.RefRunRemembers | 4-tilt/tilt/owner_fetcher.go:180-183 | a second call for the UID a first call settled returns the same pair and changes no table and no record |
| OwnerSpec.FreshRunSettles | 4-tilt/tilt/owner_fetcher.go:185-191 | a fresh resolution leaves the record of its UID closed with the pair it returns |
| OwnerSpec.SettleAssembled | 4-tilt/tilt/owner_fetcher.go:185-191 | settling the pending record after the helper keeps the records an extension of the start and keeps the node assembled |
| OwnerFetch.OwnerFetcher.constructor | 4-tilt/tilt/owner_fetcher.go:93-102 | a new fetcher has empty tables, no promises and no records |
| OwnerFetch.OwnerFetcher.GetOrCreateResourceFetch | 4-tilt/tilt/owner_fetcher.go:105-115 | an existing flag of (namespace, kind) is returned with the table unchanged; otherwise exactly one unset flag is added |
| OwnerFetch.OwnerFetcher.StoreListed | 4-tilt/tilt/owner_fetcher.go:135-139 | the list loop leaves the table `StoreAll(old table, items)` |
| OwnerFetch.OwnerFetcher.EnsureResourceFetched | 4-tilt/tilt/owner_fetcher.go:119-158 | the new tables are `Ensure` of the old ones; acyclicity and "every watch belongs to a finished fetch" are preserved |
| OwnerFetch.OwnerFetcher.FirstFetch | 4-tilt/tilt/owner_fetcher.go:121-157 | the body of the once, for a fetch not yet done, leaves the tables `Ensure` of the old ones |
| OwnerFetch.OwnerFetcher.ApplyWatchEvent | 4-tilt/tilt/owner_fetcher.go:147-156 | one watch event leaves the tables `ApplyEvent` of the old ones |
| OwnerFetch.OwnerFetcher.GetMetaByReference | 4-tilt/tilt/owner_fetcher.go:203-225 | result and new tables are `LookupMeta` of the old tables: mapping error, else table entry, else direct get; the tables only grow |
| OwnerFetch.OwnerFetcher.GetOrCreatePromise | 4-tilt/tilt/owner_fetcher.go:163-172 | for a known UID: that same promise, true, and no table changed; otherwise a fresh pending promise is inserted under the UID, false, and every other key is untouched |
| OwnerFetch.OwnerFetcher.Settle | 4-tilt/tilt/owner_fetcher.go:185-191 | the deferred step: the UID's pending promise is rejected on an error, else resolved; its record becomes closed with exactly that pair, and nothing else changes |
| OwnerFetch.OwnerFetcher.OwnerTreeOfRef | 4-tilt/tilt/owner_fetcher.go:174-201 | an empty UID is refused with no record created; a known UID returns its stored pair and changes nothing; otherwise the UID's record ends closed with the returned pair, which is a leaf on NotFound, the error on another failure, or the assembled node; the returned pair with the new tables and records is exactly `RefRun` of the old tables and records; the tables only grow |
| OwnerFetch.OwnerFetcher.ResolveRef | 4-tilt/tilt/owner_fetcher.go:193-200 | after the lookup: a leaf `{Ref: ref}` and no error on NotFound, the zero tree and the error on another failure, else the node built from the metadata; the record is settled with that pair; pair, tables and records are exactly `FreshRun` of the old ones |
| OwnerFetch.OwnerFetcher.ResolveMeta | 4-tilt/tilt/owner_fetcher.go:185-200 | the owners of a node with known metadata are resolved and the node's record is settled with the outcome; pair, tables and records are exactly `MetaRun` of the old ones |
| OwnerFetch.OwnerFetcher.OwnerTreeOfHelper | 4-tilt/tilt/owner_fetcher.go:258-276 | on success the node's owners are the stored trees of its owner references, in declared order; on failure the zero tree and the error of the first failing owner, every earlier owner having succeeded; pair, tables and records are exactly `NodeRun` over all the owners, the loop keeping `NodeRun` after i owners |
| OwnerFetch.OwnerFetcher.OwnerTreeOf | 4-tilt/tilt/owner_fetcher.go:227-256 | as OwnerTreeOfRef for an object whose metadata is at hand: empty UID refused, known UID read back, otherwise the record closed with the node assembled from the object's own owner references; pair, tables and records are exactly `ObjRun` of the old ones; the tables only grow |
| OwnerFetch.OwnerFetcher.ResolveOwner | 4-tilt/tilt/owner_fetcher.go:261-273 | one turn of the helper's loop: from the state `NodeRun` after i owners, the new pair, tables and records are `NodeRun` after i + 1; on success the resolved prefix grows by owner i, on failure owner i is the first failing owner |
| PodRules.DeletionOverridesPhase | 4-tilt/main.go:151-156 | every pod being deleted reports "Terminating"; any other pod reports its own phase |
| PodRules.RunningPhaseIsLive | 4-tilt/main.go:151-156 | the phase is "Running" exactly when the pod is not being deleted and its status phase is Running |
| PodRules.ContainerStatusOf | 4-tilt/main.go:158-161 | no container statuses gives ""; a non-empty result needs a container |
| PodRules.ContainerStatusIsFirstSet | 4-tilt/main.go:163-171 | the result is the first of (Waiting reason, "Running", Terminated reason) that is set, else "" |
| PodRules.OnlyFirstContainerCounts | 4-tilt/main.go:163 | pods whose first container status agrees get the same result, whatever the other containers are |
| PodRules.WaitingTakesPriority | 4-tilt/main.go:164-171 | Waiting wins over Running and Terminated; Running wins over Terminated; nothing set gives "" |
| PodRules.KeepLetters | 4-tilt/main.go:37 | removing the matches of `[^a-zA-Z-]` keeps exactly the letters and dashes of the input and makes it no longer |
| PodRules.LowerChar | 4-tilt/main.go:175 | an ASCII letter or dash becomes a lower-case letter or dash; a lower-case letter or dash is kept |
| PodRules.Sanitize | 4-tilt/main.go:174-176 | the label is no longer than the input and holds only `[a-z-]` |
| PodRules.KeepLettersKeepsClean | 4-tilt/main.go:37 | filtering a string of letters and dashes changes nothing |
| PodRules.ToLowerKeepsLower | 4-tilt/main.go:175 | lower-casing a string of lower-case letters and dashes changes nothing |
| PodRules.SanitizeIdempotent | 4-tilt/main.go:174-176 | sanitize(sanitize(s)) == sanitize(s) |
| PodRules.SanitizeEmptyIff | 4-tilt/main.go:174-176 | the label is empty exactly when the input has no ASCII letter and no dash |
| PodCallback.EmptyWatchInv | 4-tilt/main.go:96-98 | the initial state (three empty maps, `done` open) meets the callback invariant |
| PodCallback.CallbackKeepsInv | 4-tilt/main.go:111-146 | every event keeps the invariant: both status maps have the same pods, `ignored` only holds true, and `done` is closed exactly when Success has been printed |
| PodCallback.UnownedLeavesMaps | 4-tilt/main.go:112-120 | an event whose resolution failed, or whose tree lacks the Deployment's UID, leaves the three maps and `done` as they were; only the error is logged |
| PodCallback.ForeignHashIgnoredOnce | 4-tilt/main.go:122-128 | an owned pod with another template hash is marked ignored; the Ignoring line is printed only the first time; the status maps and `done` are unchanged |
| PodCallback.ReportsOnlyChanges | 4-tilt/main.go:130-140 | an accepted pod changes the state exactly when its (phase, container status) pair differs from the stored pair (missing reads as ""); then both maps hold the new pair and a status line is printed |
| PodCallback.CompletionExactly | 4-tilt/main.go:142-145 | `done` is closed by an event exactly when the pod is accepted, its pair changed and both are "Running"; a second such event closes a closed channel; `done` never reopens |
| PodCallback.RepeatedEventIsQuiet | 4-tilt/main.go:122-140 | delivering the same event again changes no map and signals nothing; for a resolved pod it changes nothing at all |
| PodCallback.PodTracker.constructor | 4-tilt/main.go:96-98 | the tracker starts with three empty maps and `done` open, next to a fetcher with nothing in flight |
| PodCallback.PodTracker.HandleResolved | 4-tilt/main.go:113-146 | the new maps, channel and output, and the outcome, are `Callback` of the old state for the resolved tree or error |
| PodCallback.PodTracker.OnPodEvent | 4-tilt/main.go:111-146 | the pod's owner tree is resolved (its record ends closed with that pair), then the state moves by `Callback`; the resolved pair, the fetcher's tables and its records are exactly `ObjRun` of the old tables and records; the fetcher stays consistent with nothing in flight |
| Scenarios.DeployLevel | 4-tilt/tilt/owner_fetcher.go:193-200 | after the ReplicaSet's lookup, the Deployment's lookup flags and watches its kind, its direct get answers, and it is settled as a root without owners |
| Scenarios.RsLevel | 4-tilt/tilt/owner_fetcher.go:174-201 | the ReplicaSet resolves to the node whose only owner is the Deployment; both records are settled |
| Scenarios.DeployedPodRun | 4-tilt/tilt/owner_fetcher.go:227-276 | OwnerTreeOf on the pod from empty tables yields Pod, then ReplicaSet, then Deployment, with no error; all three records are settled and both kinds are flagged and watched |
| Scenarios.GoneLevel | 4-tilt/tilt/owner_fetcher.go:193-196 | a ReplicaSet whose direct get answers NotFound becomes a settled leaf |
| Scenarios.OrphanPodRun | 4-tilt/tilt/owner_fetcher.go:193-196 | the pod whose ReplicaSet is gone resolves, with no error, to itself with that ReplicaSet as a leaf |
| Scenarios.WidgetPodRun | 4-tilt/tilt/owner_fetcher.go:204-208 | an owner whose kind has no REST mapping makes the pod's resolution fail with that mapping error and the zero tree |
| Scenarios.ResolveDeployedPod | 4-tilt/tilt/owner_fetcher.go:227-276 | a new fetcher returns the three-level chain with no error, and the chain contains the Deployment's UID |
| Scenarios.ResolveOrphanPod | 4-tilt/tilt/owner_fetcher.go:193-196 | a new fetcher returns the orphaned pod with its vanished ReplicaSet as a leaf, and no error |
| Scenarios.ResolveWidgetPod | 4-tilt/tilt/owner_fetcher.go:204-208 | a new fetcher fails on the Widget-owned pod with the mapping error and the zero tree |
| Scenarios.PodTreeHasDeployment | 4-tilt/tilt/owner_fetcher.go:32-42 | the chain contains the Deployment's UID two levels down |
| Scenarios.RunningPodCompletes | 4-tilt/main.go:130-145 | the first event of the running pod, owned and stamped with the right hash, records its pair, prints the status line and Success, and closes `done` |
| Scenarios.WatchDeployedPod | 4-tilt/main.go:111-146 | a new tracker over a new fetcher handles the running pod with outcome Completed, having printed the status line and then Success |

## Left out

- Client construction (`NewOwnerFetcher`, owner_fetcher.go:80-103) is left out. It is replaced by a constructor over a `Cluster` value, because discovery and the metadata client are foreign code.
- The `reflect`-based field extraction in `OwnerTreeOf` (227-229) is left out. `OwnerTreeOf` takes the object's TypeMeta and ObjectMeta as parameters instead.
- Mutex, `sync.Once`, channels and goroutines are not modelled. The model is sequential:
  - a wait on a pending promise blocks in the source; here it is precluded by the acyclicity precondition;
  - interleavings of concurrent callers are not modelled.
- Log output in the resolver is left out. The callback's error log line is kept, as `FetchErrorLine`.
- The group/version split of `apiVersion` is left out, because it is library code. A kind is the unparsed (apiVersion, kind) pair.
- Cancellation of the request context is left out.
- `prettyAge` is left out: it reads the wall clock. The status line carries no age.
- The pod template hash is left out. It is JSON marshalling plus SHA-1 (`4-tilt/tilt/pod_template_hash.go`), so it is a constant parameter of the tracker. Only the label name is used.
- The informer (`runPodInformer`) and the rest of `main` (build, push, apply, flags) are left out. They are I/O.
- Only the ASCII part of `strings.ToLower` is modelled. It is all that can reach it after the filter.
- OwnerFetch.OwnerFetcher.Settle looks the promise up by its UID in `cache`. It does not receive the promise pointer the deferred closure captured; the two are the same object by the record invariant.
- PodCallback.PodTracker.OnPodEvent requires that the pod's owners rank below it. This is the acyclicity the resolver assumes of every object it visits.
- The finding below is modelled with the corrected list loop. Every entry the list stores is the listed item itself.

## Findings

| source | as written | input that shows it | evidently intended | confidence | as-written member | corrected member |
|---|---|---|---|---|---|---|
| 4-tilt/tilt/owner_fetcher.go:136-138 | `v.metaCache[uid] = &meta.ObjectMeta` stores the address of the range variable. Under the loop semantics of Go before 1.22 there is one such variable per loop, so every stored entry ends up showing the last listed item. | a list returning two objects a and b with different UIDs: the entry under a's UID shows b's metadata, including b's owners and UID | each UID maps to its own item's metadata | medium; not executed (the module's Go version is not part of this model) | OwnerSpec.StoreAllAliased, OwnerSpec.AliasedListShowsLastItem | OwnerSpec.StoreAll, OwnerSpec.StoreAllLastWins |
