/**
  The owner resolver as values: the API server, the acyclicity ranks, the
  bulk-fetch tables and their transitions, the per-UID records, and a
  reference definition of a whole resolution run.

  The API server is the value `Cluster` (REST mapping, list, watch, get).
  The owner graph must be acyclic (the resolver would block forever on a
  cycle). This is stated with two ghost ranks: `rank` on UIDs and
  `getRank` on the keys answered by a direct get. Every owner reference
  found in metadata has a smaller UID rank than the object that declares
  it, so resolution terminates and never waits on a record that is still
  pending.
*/
module OwnerSpec {
  import opened Kube
  import opened RefTree

  // ---------------------------------------------------------------------
  // The API server.

  datatype EventType = Added | Modified | Deleted

  /** What a metadata watch delivers: object metadata, or a status (error) object. */
  datatype WatchEvent = MetadataEvent(kind: EventType, meta: ObjectMeta) | StatusEvent(reason: string)

  datatype Cluster = Cluster(
    mapping: GVK -> Option<Error>,                    // RESTMapping: None when the kind maps
    list: ResourceNamespace -> Result<seq<ObjectMeta>>,
    watch: ResourceNamespace -> Option<Error>,          // None when the watch starts
    get: ObjectKey -> Result<ObjectMeta>)               // Err(NotFound) for a missing object

  /** The reference built for an owner (source lines 262-268): the child's namespace, the owner's kind, name, UID and apiVersion. */
  function OwnerRefOf(meta: ObjectMeta, o: OwnerReference): (r: ObjectReference)
    ensures r.namespace == meta.namespace && r.uid == o.uid && r.name == o.name
    ensures r.kind == o.kind && r.apiVersion == o.apiVersion
  {
    ObjectReference(o.kind, meta.namespace, o.name, o.uid, o.apiVersion)
  }

  /** The reference OwnerTreeOf builds for an object itself. */
  function SelfRefOf(tm: TypeMeta, meta: ObjectMeta): (r: ObjectReference)
    ensures r.uid == meta.uid && r.namespace == meta.namespace && r.name == meta.name
    ensures r.kind == tm.kind && r.apiVersion == tm.apiVersion
  {
    ObjectReference(tm.kind, meta.namespace, meta.name, meta.uid, tm.apiVersion)
  }

  // ---------------------------------------------------------------------
  // Acyclicity.

  /** A direct get under this reference's name yields metadata whose owners rank below the reference's UID. */
  ghost predicate RefRanked(rank: UID -> nat, getRank: ObjectKey -> nat, r: ObjectReference) {
    getRank(KeyOf(r)) <= rank(r.uid)
  }

  /** Every owner declared in `m` ranks below `b`, and so does whatever a get under its name returns. */
  ghost predicate MetaRanked(rank: UID -> nat, getRank: ObjectKey -> nat, m: ObjectMeta, b: int) {
    forall o :: o in m.ownerReferences ==> rank(o.uid) < b && RefRanked(rank, getRank, OwnerRefOf(m, o))
  }

  ghost predicate ClusterRanked(c: Cluster, rank: UID -> nat, getRank: ObjectKey -> nat) {
    && (forall k :: c.get(k).Ok? ==> MetaRanked(rank, getRank, c.get(k).value, getRank(k)))
    && (forall rns, m :: c.list(rns).Ok? && m in c.list(rns).value ==> MetaRanked(rank, getRank, m, rank(m.uid)))
  }

  /** Every metadata entry is stored under its own UID, and its owners rank below it. */
  ghost predicate TableRanked(rank: UID -> nat, getRank: ObjectKey -> nat, mc: map<UID, ObjectMeta>) {
    forall u :: u in mc ==> mc[u].uid == u && MetaRanked(rank, getRank, mc[u], rank(u))
  }

  // ---------------------------------------------------------------------
  // The bulk-fetch tables as a value, and their transitions.

  datatype FetchTables = FetchTables(
    metaCache: map<UID, ObjectMeta>,
    resourceFetches: map<ResourceNamespace, bool>,
    watches: set<ResourceNamespace>)  // (namespace, kind) pairs whose watch goroutine runs

  predicate Started(s: FetchTables, rns: ResourceNamespace) {
    rns in s.resourceFetches && s.resourceFetches[rns]
  }

  /**
    What the list loop leaves in the metadata table: each listed item
    stored under its own UID, later items overwriting earlier ones.
  */
  function StoreAll(m: map<UID, ObjectMeta>, items: seq<ObjectMeta>): map<UID, ObjectMeta>
    decreases |items|
  {
    if items == [] then m
    else StoreAll(m, items[..|items| - 1])[items[|items| - 1].uid := items[|items| - 1]]
  }

  /** The table afterwards holds the old UIDs and the UIDs of all listed items, and no others. */
  lemma {:induction false} StoreAllKeys(m: map<UID, ObjectMeta>, items: seq<ObjectMeta>)
    ensures forall u :: u in StoreAll(m, items) <==> u in m || exists k :: 0 <= k < |items| && items[k].uid == u
    decreases |items|
  {
    if items != [] {
      var init := items[..|items| - 1];
      StoreAllKeys(m, init);
      assert forall k :: 0 <= k < |init| ==> init[k] == items[k];
    }
  }

  /** A listed item that no later item overrides is what the table holds under its UID. */
  lemma {:induction false} StoreAllLastWins(m: map<UID, ObjectMeta>, items: seq<ObjectMeta>, k: nat)
    requires k < |items|
    requires forall j :: k < j < |items| ==> items[j].uid != items[k].uid
    ensures items[k].uid in StoreAll(m, items) && StoreAll(m, items)[items[k].uid] == items[k]
    decreases |items|
  {
    if k < |items| - 1 {
      var init := items[..|items| - 1];
      StoreAllLastWins(m, init, k);
    }
  }

  /** An entry whose UID no listed item carries is left as it was. */
  lemma {:induction false} StoreAllKeepsOthers(m: map<UID, ObjectMeta>, items: seq<ObjectMeta>, u: UID)
    requires u in m
    requires forall k :: 0 <= k < |items| ==> items[k].uid != u
    ensures u in StoreAll(m, items) && StoreAll(m, items)[u] == m[u]
    decreases |items|
  {
    if items != [] {
      StoreAllKeepsOthers(m, items[..|items| - 1], u);
    }
  }

  /** Every entry afterwards is an old entry or a listed item stored under its own UID. */
  lemma {:induction false} StoreAllValues(m: map<UID, ObjectMeta>, items: seq<ObjectMeta>)
    ensures forall u :: u in StoreAll(m, items) ==>
      (u in m && StoreAll(m, items)[u] == m[u]) || (StoreAll(m, items)[u] in items && StoreAll(m, items)[u].uid == u)
    decreases |items|
  {
    if items != [] {
      var init := items[..|items| - 1];
      StoreAllValues(m, init);
      forall u | u in StoreAll(m, init) && StoreAll(m, init)[u] in init
        ensures StoreAll(m, init)[u] in items
      {
        var k :| 0 <= k < |init| && init[k] == StoreAll(m, init)[u];
        assert items[k] == init[k];
      }
    }
  }

  /** Storing a successful list keeps the table ranked. */
  lemma StoreAllRanked(c: Cluster, rank: UID -> nat, getRank: ObjectKey -> nat, mc: map<UID, ObjectMeta>, rns: ResourceNamespace)
    requires ClusterRanked(c, rank, getRank) && TableRanked(rank, getRank, mc) && c.list(rns).Ok?
    ensures TableRanked(rank, getRank, StoreAll(mc, c.list(rns).value))
  {
    StoreAllValues(mc, c.list(rns).value);
  }

  /**
    As written, the list loop stores the address of its loop variable, so
    under Go's per-loop variable semantics every entry it stores shows the
    last item listed.
  */
  function StoreAllAliased(m: map<UID, ObjectMeta>, items: seq<ObjectMeta>): (r: map<UID, ObjectMeta>)
    ensures items != [] ==> forall k :: 0 <= k < |items| ==> items[k].uid in r && r[items[k].uid] == items[|items| - 1]
    ensures r.Keys == StoreAll(m, items).Keys
  {
    StoreAllKeys(m, items);
    if items == [] then m
    else
      map u | u in StoreAll(m, items).Keys ::
        if exists k :: 0 <= k < |items| && items[k].uid == u then items[|items| - 1] else m[u]
  }

  /** Listing two objects with distinct UIDs: as written, the first one's entry shows the second one's owners. */
  lemma AliasedListShowsLastItem(a: ObjectMeta, b: ObjectMeta)
    requires a.uid != b.uid && a.ownerReferences != b.ownerReferences
    ensures a.uid in StoreAll(map[], [a, b]) && a.uid in StoreAllAliased(map[], [a, b])
    ensures StoreAll(map[], [a, b])[a.uid] == a
    ensures StoreAllAliased(map[], [a, b])[a.uid] == b
    ensures StoreAllAliased(map[], [a, b])[a.uid].ownerReferences != a.ownerReferences
    ensures StoreAllAliased(map[], [a, b])[a.uid].uid != a.uid
  {
    StoreAllLastWins(map[], [a, b], 0);
  }

  /** The once-guarded bulk fetch of one (namespace, kind): mapping, list, store, then watch, each failure ending it. */
  function Ensure(c: Cluster, s: FetchTables, rns: ResourceNamespace): (r: FetchTables)
    ensures Started(r, rns)
    ensures Started(s, rns) ==> r == s
    ensures r.resourceFetches == s.resourceFetches[rns := true]
  {
    if Started(s, rns) then s
    else
      var flagged := s.(resourceFetches := s.resourceFetches[rns := true]);
      if c.mapping(rns.gvk).Some? then flagged
      else match c.list(rns)
        case Err(_) => flagged
        case Ok(items) =>
          var stored := flagged.(metaCache := StoreAll(s.metaCache, items));
          if c.watch(rns).Some? then stored else stored.(watches := s.watches + {rns})
  }

  /**
    The first fetch of a (namespace, kind) stores every listed item when
    mapping and list succeed, stores nothing when either fails, starts the
    watch only when all three succeed, and never drops an entry.
  */
  lemma EnsureEffect(c: Cluster, s: FetchTables, rns: ResourceNamespace)
    ensures var r := Ensure(c, s, rns);
      && s.metaCache.Keys <= r.metaCache.Keys
      && (!Started(s, rns) && c.mapping(rns.gvk).None? && c.list(rns).Ok? ==>
            forall k :: 0 <= k < |c.list(rns).value| ==> c.list(rns).value[k].uid in r.metaCache)
      && (!Started(s, rns) && (c.mapping(rns.gvk).Some? || c.list(rns).Err?) ==> r.metaCache == s.metaCache)
      && r.watches == if !Started(s, rns) && c.mapping(rns.gvk).None? && c.list(rns).Ok? && c.watch(rns).None?
                      then s.watches + {rns} else s.watches
  {
    if !Started(s, rns) && c.mapping(rns.gvk).None? && c.list(rns).Ok? {
      StoreAllKeys(s.metaCache, c.list(rns).value);
    }
  }

  /** Asking again for a (namespace, kind) that was fetched, whatever the outcome, changes nothing: there is no retry. */
  lemma EnsureIdempotent(c: Cluster, s: FetchTables, rns: ResourceNamespace)
    ensures Ensure(c, Ensure(c, s, rns), rns) == Ensure(c, s, rns)
  {
  }

  /** The watch goroutine's step: metadata objects overwrite the entry for their UID (deletions too); other events are skipped. */
  function ApplyEvent(s: FetchTables, ev: WatchEvent): (r: FetchTables)
    ensures s.metaCache.Keys <= r.metaCache.Keys
    ensures r.resourceFetches == s.resourceFetches && r.watches == s.watches
    ensures ev.MetadataEvent? ==> ev.meta.uid in r.metaCache && r.metaCache[ev.meta.uid] == ev.meta
    ensures forall u :: u in s.metaCache && (ev.StatusEvent? || u != ev.meta.uid) ==> r.metaCache[u] == s.metaCache[u]
    ensures ev.StatusEvent? ==> r == s
  {
    match ev
    case MetadataEvent(_, m) => s.(metaCache := s.metaCache[m.uid := m])
    case StatusEvent(_) => s
  }

  /** The tables only grow: no entry, flag or watch is ever dropped, and a started fetch stays started. */
  ghost predicate Grows(s: FetchTables, r: FetchTables) {
    && s.metaCache.Keys <= r.metaCache.Keys
    && s.resourceFetches.Keys <= r.resourceFetches.Keys
    && (forall rns :: Started(s, rns) ==> Started(r, rns))
    && s.watches <= r.watches
  }

  /** getMetaByReference: mapping first; then the bulk fetch; the table entry if present, else a direct get. */
  function LookupMeta(c: Cluster, s: FetchTables, ref: ObjectReference): (Result<ObjectMeta>, FetchTables) {
    var gvk := RefGVK(ref);
    if c.mapping(gvk).Some? then (Err(c.mapping(gvk).value), s)
    else
      var s' := Ensure(c, s, ResourceNamespace(ref.namespace, gvk));
      if ref.uid in s'.metaCache then (Ok(s'.metaCache[ref.uid]), s') else (c.get(KeyOf(ref)), s')
  }

  /** A lookup answers from the table whenever the (namespace, kind) was fetched and the table holds the UID, without touching the tables. */
  lemma LookupHitsTable(c: Cluster, s: FetchTables, ref: ObjectReference)
    requires c.mapping(RefGVK(ref)).None?
    requires Started(s, ResourceNamespace(ref.namespace, RefGVK(ref))) && ref.uid in s.metaCache
    ensures LookupMeta(c, s, ref) == (Ok(s.metaCache[ref.uid]), s)
  {
  }

  /** A lookup only ever adds to the tables. */
  lemma LookupGrows(c: Cluster, s: FetchTables, ref: ObjectReference)
    ensures Grows(s, LookupMeta(c, s, ref).1)
  {
    EnsureEffect(c, s, ResourceNamespace(ref.namespace, RefGVK(ref)));
  }

  /** A lookup whose table misses falls back to a direct get, whose answer (NotFound included) is returned unchanged. */
  lemma LookupMissFallsBack(c: Cluster, s: FetchTables, ref: ObjectReference)
    requires c.mapping(RefGVK(ref)).None?
    requires ref.uid !in Ensure(c, s, ResourceNamespace(ref.namespace, RefGVK(ref))).metaCache
    ensures LookupMeta(c, s, ref).0 == c.get(KeyOf(ref))
  {
  }

  /** A lookup keeps the table ranked, and metadata it returns for a ranked reference has its owners ranked below the reference. */
  lemma LookupRanked(c: Cluster, rank: UID -> nat, getRank: ObjectKey -> nat, s: FetchTables, ref: ObjectReference)
    requires ClusterRanked(c, rank, getRank) && TableRanked(rank, getRank, s.metaCache)
    ensures TableRanked(rank, getRank, LookupMeta(c, s, ref).1.metaCache)
    ensures RefRanked(rank, getRank, ref) && LookupMeta(c, s, ref).0.Ok? ==>
      MetaRanked(rank, getRank, LookupMeta(c, s, ref).0.value, rank(ref.uid))
  {
    var rns := ResourceNamespace(ref.namespace, RefGVK(ref));
    if c.mapping(RefGVK(ref)).None? && !Started(s, rns) && c.list(rns).Ok? {
      StoreAllRanked(c, rank, getRank, s.metaCache, rns);
    }
  }

  // ---------------------------------------------------------------------
  // The records as values.

  /** One record: whether its channel is closed, and the pair it holds. */
  datatype Rec = Rec(done: bool, tree: ObjectRefTree, err: Option<Error>)

  type Records = map<UID, Rec>

  const PendingRec := Rec(false, EmptyTree, None)

  /** A settled record for `u` holds exactly (t, e); the empty UID is answered by an error and has no record. */
  predicate Settled(R: Records, u: UID, t: ObjectRefTree, e: Option<Error>) {
    if u == "" then t == EmptyTree && e == Some(Undeployed)
    else u in R && R[u] == Rec(true, t, e)
  }

  predicate Succeeded(R: Records, u: UID) {
    u in R && R[u].done && R[u].err.None?
  }

  /** Each owner subtree of `t` is exactly the tree stored for that owner's UID. */
  predicate OwnersSettled(R: Records, t: ObjectRefTree) {
    forall i :: 0 <= i < |t.owners| ==> Succeeded(R, t.owners[i].ref.uid) && R[t.owners[i].ref.uid].tree == t.owners[i]
  }

  /** A settled error holds the zero tree; a settled tree is rooted at its own UID, with settled owners. */
  predicate RecordsValid(R: Records) {
    forall u :: u in R && R[u].done ==>
      && (R[u].err.Some? ==> R[u].tree == EmptyTree)
      && (R[u].err.None? ==> R[u].tree.ref.uid == u && OwnersSettled(R, R[u].tree))
  }

  /**
    What ownerTreeOfHelper yields for `ref` with metadata `m`: on success the
    node `ref` whose owners are, in declared order, the trees stored for the
    owners' UIDs; on failure the zero tree and the error of the first owner
    whose resolution failed, every owner before it having succeeded.
  */
  predicate Assembled(R: Records, ref: ObjectReference, m: ObjectMeta, tree: ObjectRefTree, err: Option<Error>) {
    var os := m.ownerReferences;
    if err.None? then
      tree.ref == ref && OwnersPrefix(R, tree, os, |os|)
    else
      && tree == EmptyTree
      && exists i :: 0 <= i < |os| && FailedAt(R, os, i, err)
  }

  /** The owners of `tree` are the settled trees of the first `n` owner references, in order. */
  predicate OwnersPrefix(R: Records, tree: ObjectRefTree, os: seq<OwnerReference>, n: nat) {
    && n <= |os| && |tree.owners| == n && OwnersSettled(R, tree)
    && (forall j :: 0 <= j < n ==> tree.owners[j].ref.uid == os[j].uid)
  }

  /** The loop step of ownerTreeOfHelper: appending the settled tree of the next owner extends the prefix. */
  lemma OwnersPrefixStep(R: Records, tree: ObjectRefTree, os: seq<OwnerReference>, n: nat, t: ObjectRefTree)
    requires OwnersPrefix(R, tree, os, n) && n < |os| && RecordsValid(R) && Settled(R, os[n].uid, t, None)
    ensures OwnersPrefix(R, tree.(owners := tree.owners + [t]), os, n + 1)
  {
    var tree2 := tree.(owners := tree.owners + [t]);
    assert tree2.owners[n] == t;
    forall j | 0 <= j < n + 1
      ensures tree2.owners[j].ref.uid == os[j].uid
      ensures Succeeded(R, tree2.owners[j].ref.uid) && R[tree2.owners[j].ref.uid].tree == tree2.owners[j]
    {
      if j < n {
        assert tree2.owners[j] == tree.owners[j];
      }
    }
  }

  /** The loop exit on a failure: the prefix before the failing owner succeeded. */
  lemma OwnersPrefixFails(R: Records, tree: ObjectRefTree, os: seq<OwnerReference>, n: nat, err: Option<Error>)
    requires OwnersPrefix(R, tree, os, n) && n < |os| && Settled(R, os[n].uid, EmptyTree, err)
    ensures FailedAt(R, os, n, err)
  {
    forall j | 0 <= j < n
      ensures Succeeded(R, os[j].uid)
    {
      assert tree.owners[j].ref.uid == os[j].uid;
    }
  }

  /** Owner `i` settled with `err`, after every owner before it succeeded. */
  predicate FailedAt(R: Records, os: seq<OwnerReference>, i: nat, err: Option<Error>)
    requires i < |os|
  {
    Settled(R, os[i].uid, EmptyTree, err) && forall j :: 0 <= j < i ==> Succeeded(R, os[j].uid)
  }

  /** Every record still pending belongs to a UID ranked above `b`. */
  ghost predicate PendingAbove(R: Records, rank: UID -> nat, b: int) {
    forall u :: u in R && !R[u].done ==> rank(u) > b
  }

  /** `R2` keeps every record of `R` as it was and adds only settled ones. */
  predicate Extends(R: Records, R2: Records) {
    && R.Keys <= R2.Keys
    && (forall u :: u in R ==> R2[u] == R[u])
    && (forall u :: u in R2 && u !in R ==> R2[u].done)
  }

  /** Every settled record of `R` is still there in `R2`, unchanged. */
  predicate KeepsSettled(R: Records, R2: Records) {
    forall u :: u in R && R[u].done ==> u in R2 && R2[u] == R[u]
  }

  lemma ExtendsTrans(R1: Records, R2: Records, R3: Records)
    requires Extends(R1, R2) && Extends(R2, R3)
    ensures Extends(R1, R3)
  {
  }

  /** Extending, then settling the record of `id`, extends the start without `id`. */
  lemma SettleExtends(R1: Records, R2: Records, id: UID, r: Rec)
    requires Extends(R1, R2) && r.done
    ensures Extends(R1 - {id}, R2[id := r])
  {
  }

  /** Opening the record of a new `id` and then settling it is an extension of the start. */
  lemma OpenSettleExtends(R0: Records, R1: Records, R3: Records, id: UID)
    requires id !in R0 && R1 == R0[id := PendingRec] && Extends(R1 - {id}, R3)
    ensures Extends(R0, R3)
  {
    assert R1 - {id} == R0;
  }

  /** Settled and succeeded records, and the owners that refer to them, stay settled while settled records are kept. */
  lemma KeepsOwnersPrefix(R: Records, R2: Records, t: ObjectRefTree, os: seq<OwnerReference>, n: nat)
    requires KeepsSettled(R, R2) && OwnersPrefix(R, t, os, n)
    ensures OwnersPrefix(R2, t, os, n)
  {
    forall i | 0 <= i < |t.owners|
      ensures Succeeded(R2, t.owners[i].ref.uid) && R2[t.owners[i].ref.uid].tree == t.owners[i]
    {
      assert Succeeded(R, t.owners[i].ref.uid);
    }
  }

  lemma KeepsAssembled(R: Records, R2: Records, ref: ObjectReference, m: ObjectMeta, tree: ObjectRefTree, err: Option<Error>)
    requires KeepsSettled(R, R2) && Assembled(R, ref, m, tree, err)
    ensures Assembled(R2, ref, m, tree, err)
  {
    if err.Some? {
      var i :| 0 <= i < |m.ownerReferences| && FailedAt(R, m.ownerReferences, i, err);
      assert FailedAt(R2, m.ownerReferences, i, err);
    }
  }

  /** Settling the record that a helper run left pending keeps the extension and the assembled node. */
  lemma SettleAssembled(R1: Records, R2: Records, ref: ObjectReference, m: ObjectMeta, tree: ObjectRefTree, err: Option<Error>)
    requires Extends(R1, R2) && ref.uid in R1 && R1[ref.uid] == PendingRec && Assembled(R2, ref, m, tree, err)
    ensures Extends(R1 - {ref.uid}, R2[ref.uid := Rec(true, tree, err)])
    ensures Assembled(R2[ref.uid := Rec(true, tree, err)], ref, m, tree, err)
  {
    assert KeepsSettled(R2, R2[ref.uid := Rec(true, tree, err)]);
    KeepsAssembled(R2, R2[ref.uid := Rec(true, tree, err)], ref, m, tree, err);
    SettleExtends(R1, R2, ref.uid, Rec(true, tree, err));
  }

  lemma ExtendsKeepsPending(R: Records, R2: Records, rank: UID -> nat, b: int)
    requires Extends(R, R2) && PendingAbove(R, rank, b)
    ensures PendingAbove(R2, rank, b)
  {
  }

  /** Opening a pending record for a new UID keeps every record valid. */
  lemma OpenKeepsValid(R: Records, id: UID)
    requires RecordsValid(R) && id !in R
    ensures RecordsValid(R[id := PendingRec])
  {
    var R2 := R[id := PendingRec];
    forall u | u in R2 && R2[u].done && R2[u].err.None?
      ensures OwnersSettled(R2, R2[u].tree)
    {
      var tu := R2[u].tree;
      assert OwnersSettled(R, tu);
      forall i | 0 <= i < |tu.owners|
        ensures Succeeded(R2, tu.owners[i].ref.uid) && R2[tu.owners[i].ref.uid].tree == tu.owners[i]
      {
        assert Succeeded(R, tu.owners[i].ref.uid);
      }
    }
  }

  /**
    Settling a pending record with a pair that is valid for it keeps every
    record valid: no settled tree can have a pending owner, so none of them
    refers to the record that changed.
  */
  lemma SettleKeepsValid(R: Records, id: UID, t: ObjectRefTree, e: Option<Error>)
    requires RecordsValid(R) && id in R && !R[id].done
    requires e.Some? ==> t == EmptyTree
    requires e.None? ==> t.ref.uid == id && OwnersSettled(R, t)
    ensures RecordsValid(R[id := Rec(true, t, e)])
  {
    var R2 := R[id := Rec(true, t, e)];
    forall u | u in R2 && R2[u].done && R2[u].err.None?
      ensures OwnersSettled(R2, R2[u].tree)
    {
      var tu := R2[u].tree;
      assert OwnersSettled(R, tu);
      forall i | 0 <= i < |tu.owners|
        ensures Succeeded(R2, tu.owners[i].ref.uid) && R2[tu.owners[i].ref.uid].tree == tu.owners[i]
      {
        assert Succeeded(R, tu.owners[i].ref.uid);
      }
    }
  }

  // ---------------------------------------------------------------------
  // A whole resolution as a value.

  /** What a resolution returns, and the tables and records it leaves behind. */
  datatype Run = Run(tree: ObjectRefTree, err: Option<Error>, s: FetchTables, R: Records)

  /**
    OwnerTreeOfRef on tables `s` and records `R`: the empty UID is refused;
    a UID with a record gets the stored pair and changes nothing; otherwise
    the record is opened and the reference resolved.
  */
  ghost function RefRun(c: Cluster, rank: UID -> nat, getRank: ObjectKey -> nat, s: FetchTables, R: Records, ref: ObjectReference): (run: Run)
    requires ClusterRanked(c, rank, getRank) && TableRanked(rank, getRank, s.metaCache) && RefRanked(rank, getRank, ref)
    ensures TableRanked(rank, getRank, run.s.metaCache)
    decreases rank(ref.uid), 3, 0
  {
    if ref.uid == "" then Run(EmptyTree, Some(Undeployed), s, R)
    else if ref.uid in R then Run(R[ref.uid].tree, R[ref.uid].err, s, R)
    else FreshRun(c, rank, getRank, s, R[ref.uid := PendingRec], ref)
  }

  /** Look the metadata of `ref` up: a leaf on NotFound, the error on any other failure, else its owners; then settle its record. */
  ghost function FreshRun(c: Cluster, rank: UID -> nat, getRank: ObjectKey -> nat, s: FetchTables, R: Records, ref: ObjectReference): (run: Run)
    requires ClusterRanked(c, rank, getRank) && TableRanked(rank, getRank, s.metaCache) && RefRanked(rank, getRank, ref)
    ensures TableRanked(rank, getRank, run.s.metaCache)
    decreases rank(ref.uid), 2, 0
  {
    var (r, s1) := LookupMeta(c, s, ref);
    LookupRanked(c, rank, getRank, s, ref);
    if r.Ok? then MetaRun(c, rank, getRank, s1, R, ref, r.value)
    else if r.error == NotFound then Run(ObjectRefTree(ref, []), None, s1, R[ref.uid := Rec(true, ObjectRefTree(ref, []), None)])
    else Run(EmptyTree, Some(r.error), s1, R[ref.uid := Rec(true, EmptyTree, Some(r.error))])
  }

  /** Resolve the owners of `ref`, whose metadata is `meta`, then settle its record with the outcome. */
  ghost function MetaRun(c: Cluster, rank: UID -> nat, getRank: ObjectKey -> nat, s: FetchTables, R: Records, ref: ObjectReference, meta: ObjectMeta): (run: Run)
    requires ClusterRanked(c, rank, getRank) && TableRanked(rank, getRank, s.metaCache)
    requires MetaRanked(rank, getRank, meta, rank(ref.uid))
    ensures TableRanked(rank, getRank, run.s.metaCache)
    decreases rank(ref.uid), 1, 0
  {
    var node := NodeRun(c, rank, getRank, s, R, ref, meta, |meta.ownerReferences|, rank(ref.uid));
    Run(node.tree, node.err, node.s, node.R[ref.uid := Rec(true, node.tree, node.err)])
  }

  /** ownerTreeOfHelper after its first `k` owners: the node with their trees so far, or the first failure. */
  ghost function NodeRun(c: Cluster, rank: UID -> nat, getRank: ObjectKey -> nat, s: FetchTables, R: Records,
                         ref: ObjectReference, meta: ObjectMeta, k: nat, bound: nat): (run: Run)
    requires ClusterRanked(c, rank, getRank) && TableRanked(rank, getRank, s.metaCache)
    requires MetaRanked(rank, getRank, meta, bound) && k <= |meta.ownerReferences|
    ensures TableRanked(rank, getRank, run.s.metaCache)
    decreases bound, 0, k
  {
    if k == 0 then Run(ObjectRefTree(ref, []), None, s, R)
    else
      var prev := NodeRun(c, rank, getRank, s, R, ref, meta, k - 1, bound);
      if prev.err.Some? then prev
      else
        var o := meta.ownerReferences[k - 1];
        assert o in meta.ownerReferences;
        var sub := RefRun(c, rank, getRank, prev.s, prev.R, OwnerRefOf(meta, o));
        if sub.err.Some? then Run(EmptyTree, sub.err, sub.s, sub.R)
        else Run(prev.tree.(owners := prev.tree.owners + [sub.tree]), None, sub.s, sub.R)
  }

  /** One iteration of ownerTreeOfHelper's loop, after `i` owners succeeded: resolve owner `i`, then abort or append. */
  lemma NodeRunStep(c: Cluster, rank: UID -> nat, getRank: ObjectKey -> nat, s: FetchTables, R: Records, ref: ObjectReference, meta: ObjectMeta, i: nat, bound: nat, prev: Run, sub: Run)
    requires ClusterRanked(c, rank, getRank) && TableRanked(rank, getRank, s.metaCache)
    requires MetaRanked(rank, getRank, meta, bound) && i < |meta.ownerReferences|
    requires prev == NodeRun(c, rank, getRank, s, R, ref, meta, i, bound) && prev.err.None?
    requires TableRanked(rank, getRank, prev.s.metaCache) && RefRanked(rank, getRank, OwnerRefOf(meta, meta.ownerReferences[i]))
    requires sub == RefRun(c, rank, getRank, prev.s, prev.R, OwnerRefOf(meta, meta.ownerReferences[i]))
    ensures NodeRun(c, rank, getRank, s, R, ref, meta, i + 1, bound) ==
      if sub.err.Some? then Run(EmptyTree, sub.err, sub.s, sub.R)
      else Run(prev.tree.(owners := prev.tree.owners + [sub.tree]), None, sub.s, sub.R)
  {
  }

  /** Once an owner failed, the remaining owners are not looked at: the helper's outcome is that failure. */
  lemma {:induction false} NodeRunStopsAtFailure(c: Cluster, rank: UID -> nat, getRank: ObjectKey -> nat, s: FetchTables, R: Records, ref: ObjectReference, meta: ObjectMeta, j: nat, k: nat, bound: nat)
    requires ClusterRanked(c, rank, getRank) && TableRanked(rank, getRank, s.metaCache)
    requires MetaRanked(rank, getRank, meta, bound) && j <= k <= |meta.ownerReferences|
    requires NodeRun(c, rank, getRank, s, R, ref, meta, j, bound).err.Some?
    ensures NodeRun(c, rank, getRank, s, R, ref, meta, k, bound) == NodeRun(c, rank, getRank, s, R, ref, meta, j, bound)
    decreases k - j
  {
    if j < k {
      NodeRunStopsAtFailure(c, rank, getRank, s, R, ref, meta, j, k - 1, bound);
    }
  }

  /** The resolution of owner `j` inside ownerTreeOfHelper, started from the state the first `j` owners left. */
  ghost function OwnerStep(c: Cluster, rank: UID -> nat, getRank: ObjectKey -> nat, s: FetchTables, R: Records,
                           ref: ObjectReference, meta: ObjectMeta, j: nat, bound: nat): Run
    requires ClusterRanked(c, rank, getRank) && TableRanked(rank, getRank, s.metaCache)
    requires MetaRanked(rank, getRank, meta, bound) && j < |meta.ownerReferences|
  {
    var prev := NodeRun(c, rank, getRank, s, R, ref, meta, j, bound);
    assert meta.ownerReferences[j] in meta.ownerReferences;
    RefRun(c, rank, getRank, prev.s, prev.R, OwnerRefOf(meta, meta.ownerReferences[j]))
  }

  /** OwnerTreeOf: like RefRun, for an object whose own metadata is at hand. */
  ghost function ObjRun(c: Cluster, rank: UID -> nat, getRank: ObjectKey -> nat, s: FetchTables, R: Records, tm: TypeMeta, meta: ObjectMeta): (run: Run)
    requires ClusterRanked(c, rank, getRank) && TableRanked(rank, getRank, s.metaCache)
    requires MetaRanked(rank, getRank, meta, rank(meta.uid))
    ensures TableRanked(rank, getRank, run.s.metaCache)
  {
    if meta.uid == "" then Run(EmptyTree, Some(Undeployed), s, R)
    else if meta.uid in R then Run(R[meta.uid].tree, R[meta.uid].err, s, R)
    else MetaRun(c, rank, getRank, s, R[meta.uid := PendingRec], SelfRefOf(tm, meta), meta)
  }

  lemma GrowsTrans(a: FetchTables, b: FetchTables, d: FetchTables)
    requires Grows(a, b) && Grows(b, d)
    ensures Grows(a, d)
  {
  }

  /** A resolution only adds to the tables: no entry, namespace fetch or watch is ever dropped. */
  lemma {:induction false} RefRunGrows(c: Cluster, rank: UID -> nat, getRank: ObjectKey -> nat, s: FetchTables, R: Records, ref: ObjectReference)
    requires ClusterRanked(c, rank, getRank) && TableRanked(rank, getRank, s.metaCache) && RefRanked(rank, getRank, ref)
    ensures Grows(s, RefRun(c, rank, getRank, s, R, ref).s)
    decreases rank(ref.uid), 3, 0
  {
    if ref.uid != "" && ref.uid !in R {
      FreshRunGrows(c, rank, getRank, s, R[ref.uid := PendingRec], ref);
    }
  }

  lemma {:induction false} FreshRunGrows(c: Cluster, rank: UID -> nat, getRank: ObjectKey -> nat, s: FetchTables, R: Records, ref: ObjectReference)
    requires ClusterRanked(c, rank, getRank) && TableRanked(rank, getRank, s.metaCache) && RefRanked(rank, getRank, ref)
    ensures Grows(s, FreshRun(c, rank, getRank, s, R, ref).s)
    decreases rank(ref.uid), 2, 0
  {
    LookupGrows(c, s, ref);
    LookupRanked(c, rank, getRank, s, ref);
    var (r, s1) := LookupMeta(c, s, ref);
    if r.Ok? {
      MetaRunGrows(c, rank, getRank, s1, R, ref, r.value);
    }
  }

  lemma {:induction false} MetaRunGrows(c: Cluster, rank: UID -> nat, getRank: ObjectKey -> nat, s: FetchTables, R: Records, ref: ObjectReference, meta: ObjectMeta)
    requires ClusterRanked(c, rank, getRank) && TableRanked(rank, getRank, s.metaCache)
    requires MetaRanked(rank, getRank, meta, rank(ref.uid))
    ensures Grows(s, MetaRun(c, rank, getRank, s, R, ref, meta).s)
    decreases rank(ref.uid), 1, 0
  {
    NodeRunGrows(c, rank, getRank, s, R, ref, meta, |meta.ownerReferences|, rank(ref.uid));
  }

  lemma {:induction false} NodeRunGrows(c: Cluster, rank: UID -> nat, getRank: ObjectKey -> nat, s: FetchTables, R: Records, ref: ObjectReference, meta: ObjectMeta, k: nat, bound: nat)
    requires ClusterRanked(c, rank, getRank) && TableRanked(rank, getRank, s.metaCache)
    requires MetaRanked(rank, getRank, meta, bound) && k <= |meta.ownerReferences|
    ensures Grows(s, NodeRun(c, rank, getRank, s, R, ref, meta, k, bound).s)
    decreases bound, 0, k
  {
    if k > 0 {
      NodeRunGrows(c, rank, getRank, s, R, ref, meta, k - 1, bound);
      var prev := NodeRun(c, rank, getRank, s, R, ref, meta, k - 1, bound);
      if prev.err.None? {
        var o := meta.ownerReferences[k - 1];
        assert o in meta.ownerReferences;
        var sub := RefRun(c, rank, getRank, prev.s, prev.R, OwnerRefOf(meta, o));
        RefRunGrows(c, rank, getRank, prev.s, prev.R, OwnerRefOf(meta, o));
        GrowsTrans(s, prev.s, sub.s);
        assert NodeRun(c, rank, getRank, s, R, ref, meta, k, bound).s == sub.s;
      }
    }
  }

  /** The same for OwnerTreeOf. */
  lemma ObjRunGrows(c: Cluster, rank: UID -> nat, getRank: ObjectKey -> nat, s: FetchTables, R: Records, tm: TypeMeta, meta: ObjectMeta)
    requires ClusterRanked(c, rank, getRank) && TableRanked(rank, getRank, s.metaCache)
    requires MetaRanked(rank, getRank, meta, rank(meta.uid))
    ensures Grows(s, ObjRun(c, rank, getRank, s, R, tm, meta).s)
  {
    if meta.uid != "" && meta.uid !in R {
      MetaRunGrows(c, rank, getRank, s, R[meta.uid := PendingRec], SelfRefOf(tm, meta), meta);
    }
  }

  /**
    The node ownerTreeOfHelper builds after `k` owners: on success the node
    `ref` whose `j`-th owner subtree is what resolving the `j`-th declared
    owner returned; on failure the empty tree and the error of the first
    owner that failed, every owner before it having succeeded.
  */
  lemma NodeRunShape(c: Cluster, rank: UID -> nat, getRank: ObjectKey -> nat, s: FetchTables, R: Records, ref: ObjectReference, meta: ObjectMeta, k: nat, bound: nat)
    requires ClusterRanked(c, rank, getRank) && TableRanked(rank, getRank, s.metaCache)
    requires MetaRanked(rank, getRank, meta, bound) && k <= |meta.ownerReferences|
    ensures var run := NodeRun(c, rank, getRank, s, R, ref, meta, k, bound);
      && (run.err.None? ==>
            && run.tree.ref == ref && |run.tree.owners| == k
            && forall j :: 0 <= j < k ==>
                 && OwnerStep(c, rank, getRank, s, R, ref, meta, j, bound).err.None?
                 && run.tree.owners[j] == OwnerStep(c, rank, getRank, s, R, ref, meta, j, bound).tree)
      && (run.err.Some? ==>
            && run.tree == EmptyTree
            && exists j :: 0 <= j < k && NodeRun(c, rank, getRank, s, R, ref, meta, j, bound).err.None?
                 && OwnerStep(c, rank, getRank, s, R, ref, meta, j, bound).err == run.err)
  {
    NodeRunSucceeds(c, rank, getRank, s, R, ref, meta, k, bound);
    NodeRunFails(c, rank, getRank, s, R, ref, meta, k, bound);
  }

  lemma {:induction false} NodeRunSucceeds(c: Cluster, rank: UID -> nat, getRank: ObjectKey -> nat, s: FetchTables, R: Records, ref: ObjectReference, meta: ObjectMeta, k: nat, bound: nat)
    requires ClusterRanked(c, rank, getRank) && TableRanked(rank, getRank, s.metaCache)
    requires MetaRanked(rank, getRank, meta, bound) && k <= |meta.ownerReferences|
    ensures var run := NodeRun(c, rank, getRank, s, R, ref, meta, k, bound);
      run.err.None? ==>
        && run.tree.ref == ref && |run.tree.owners| == k
        && forall j :: 0 <= j < k ==>
             && OwnerStep(c, rank, getRank, s, R, ref, meta, j, bound).err.None?
             && run.tree.owners[j] == OwnerStep(c, rank, getRank, s, R, ref, meta, j, bound).tree
  {
    if k > 0 {
      NodeRunSucceeds(c, rank, getRank, s, R, ref, meta, k - 1, bound);
      var prev := NodeRun(c, rank, getRank, s, R, ref, meta, k - 1, bound);
      var run := NodeRun(c, rank, getRank, s, R, ref, meta, k, bound);
      if run.err.None? {
        var sub := OwnerStep(c, rank, getRank, s, R, ref, meta, k - 1, bound);
        assert prev.err.None? && sub.err.None?;
        assert run.tree == prev.tree.(owners := prev.tree.owners + [sub.tree]);
      }
    }
  }

  lemma {:induction false} NodeRunFails(c: Cluster, rank: UID -> nat, getRank: ObjectKey -> nat, s: FetchTables, R: Records, ref: ObjectReference, meta: ObjectMeta, k: nat, bound: nat)
    requires ClusterRanked(c, rank, getRank) && TableRanked(rank, getRank, s.metaCache)
    requires MetaRanked(rank, getRank, meta, bound) && k <= |meta.ownerReferences|
    ensures var run := NodeRun(c, rank, getRank, s, R, ref, meta, k, bound);
      run.err.Some? ==>
        && run.tree == EmptyTree
        && exists j :: 0 <= j < k && NodeRun(c, rank, getRank, s, R, ref, meta, j, bound).err.None?
             && OwnerStep(c, rank, getRank, s, R, ref, meta, j, bound).err == run.err
  {
    if k > 0 {
      NodeRunFails(c, rank, getRank, s, R, ref, meta, k - 1, bound);
      var prev := NodeRun(c, rank, getRank, s, R, ref, meta, k - 1, bound);
      if prev.err.None? {
        assert OwnerStep(c, rank, getRank, s, R, ref, meta, k - 1, bound).err.Some? ==>
          NodeRun(c, rank, getRank, s, R, ref, meta, k, bound).err == OwnerStep(c, rank, getRank, s, R, ref, meta, k - 1, bound).err;
      }
    }
  }

  /** A reference resolved for the first time that succeeds is the root of the tree it yields. */
  lemma RefRunFreshRoot(c: Cluster, rank: UID -> nat, getRank: ObjectKey -> nat, s: FetchTables, R: Records, ref: ObjectReference)
    requires ClusterRanked(c, rank, getRank) && TableRanked(rank, getRank, s.metaCache) && RefRanked(rank, getRank, ref)
    requires ref.uid != "" && ref.uid !in R
    ensures RefRun(c, rank, getRank, s, R, ref).err.None? ==> RefRun(c, rank, getRank, s, R, ref).tree.ref == ref
  {
    FreshRunRoot(c, rank, getRank, s, R[ref.uid := PendingRec], ref);
  }

  lemma FreshRunRoot(c: Cluster, rank: UID -> nat, getRank: ObjectKey -> nat, s: FetchTables, R: Records, ref: ObjectReference)
    requires ClusterRanked(c, rank, getRank) && TableRanked(rank, getRank, s.metaCache) && RefRanked(rank, getRank, ref)
    ensures FreshRun(c, rank, getRank, s, R, ref).err.None? ==> FreshRun(c, rank, getRank, s, R, ref).tree.ref == ref
  {
    LookupRanked(c, rank, getRank, s, ref);
    var (r, s1) := LookupMeta(c, s, ref);
    if r.Ok? {
      MetaRunRoot(c, rank, getRank, s1, R, ref, r.value);
    }
  }

  lemma MetaRunRoot(c: Cluster, rank: UID -> nat, getRank: ObjectKey -> nat, s: FetchTables, R: Records, ref: ObjectReference, meta: ObjectMeta)
    requires ClusterRanked(c, rank, getRank) && TableRanked(rank, getRank, s.metaCache)
    requires MetaRanked(rank, getRank, meta, rank(ref.uid))
    ensures MetaRun(c, rank, getRank, s, R, ref, meta).err.None? ==> MetaRun(c, rank, getRank, s, R, ref, meta).tree.ref == ref
  {
    NodeRunShape(c, rank, getRank, s, R, ref, meta, |meta.ownerReferences|, rank(ref.uid));
  }

  /**
    Each owner subtree that a successful helper run created itself (its UID had
    no record yet) is rooted at the owner reference built from the child's
    metadata: the child's namespace with the owner's kind, name, UID and
    apiVersion.
  */
  lemma NodeRunOwnerRoots(c: Cluster, rank: UID -> nat, getRank: ObjectKey -> nat, s: FetchTables, R: Records, ref: ObjectReference, meta: ObjectMeta, k: nat, bound: nat)
    requires ClusterRanked(c, rank, getRank) && TableRanked(rank, getRank, s.metaCache)
    requires MetaRanked(rank, getRank, meta, bound) && k <= |meta.ownerReferences|
    ensures var run := NodeRun(c, rank, getRank, s, R, ref, meta, k, bound);
      run.err.None? ==> |run.tree.owners| == k && forall j :: 0 <= j < k ==>
        var o := meta.ownerReferences[j];
        o.uid != "" && o.uid !in NodeRun(c, rank, getRank, s, R, ref, meta, j, bound).R ==>
          && run.tree.owners[j].ref == ObjectReference(o.kind, meta.namespace, o.name, o.uid, o.apiVersion)
  {
    NodeRunShape(c, rank, getRank, s, R, ref, meta, k, bound);
    forall j | 0 <= j < k
      ensures var o := meta.ownerReferences[j];
        o.uid != "" && o.uid !in NodeRun(c, rank, getRank, s, R, ref, meta, j, bound).R &&
        OwnerStep(c, rank, getRank, s, R, ref, meta, j, bound).err.None? ==>
          OwnerStep(c, rank, getRank, s, R, ref, meta, j, bound).tree.ref == ObjectReference(o.kind, meta.namespace, o.name, o.uid, o.apiVersion)
    {
      var o := meta.ownerReferences[j];
      assert o in meta.ownerReferences;
      var prev := NodeRun(c, rank, getRank, s, R, ref, meta, j, bound);
      if o.uid != "" && o.uid !in prev.R {
        RefRunFreshRoot(c, rank, getRank, prev.s, prev.R, OwnerRefOf(meta, o));
      }
    }
  }

  /**
    OwnerTreeOf on an object seen for the first time: on success the object's
    own reference is the root and it has one subtree per declared owner, in
    order, each the result of resolving that owner; on failure the empty tree.
  */
  lemma ObjRunFresh(c: Cluster, rank: UID -> nat, getRank: ObjectKey -> nat, s: FetchTables, R: Records, tm: TypeMeta, meta: ObjectMeta)
    requires ClusterRanked(c, rank, getRank) && TableRanked(rank, getRank, s.metaCache)
    requires MetaRanked(rank, getRank, meta, rank(meta.uid))
    requires meta.uid != "" && meta.uid !in R
    ensures var run := ObjRun(c, rank, getRank, s, R, tm, meta);
      var R1 := R[meta.uid := PendingRec];
      var self := ObjectReference(tm.kind, meta.namespace, meta.name, meta.uid, tm.apiVersion);
      && (run.err.None? ==>
            && run.tree.ref == self && |run.tree.owners| == |meta.ownerReferences|
            && forall j :: 0 <= j < |meta.ownerReferences| ==>
                 run.tree.owners[j] == OwnerStep(c, rank, getRank, s, R1, self, meta, j, rank(meta.uid)).tree)
      && (run.err.Some? ==> run.tree == EmptyTree)
      && run.R[meta.uid] == Rec(true, run.tree, run.err)
  {
    NodeRunShape(c, rank, getRank, s, R[meta.uid := PendingRec], SelfRefOf(tm, meta), meta, |meta.ownerReferences|, rank(meta.uid));
  }

  /** A later call for a UID that a call settled returns the same pair and fetches nothing. */
  lemma RefRunRemembers(c: Cluster, rank: UID -> nat, getRank: ObjectKey -> nat, s: FetchTables, R: Records, ref: ObjectReference)
    requires ClusterRanked(c, rank, getRank) && TableRanked(rank, getRank, s.metaCache) && RefRanked(rank, getRank, ref)
    requires ref.uid != "" && ref.uid !in R
    ensures var run := RefRun(c, rank, getRank, s, R, ref);
      RefRun(c, rank, getRank, run.s, run.R, ref) == Run(run.tree, run.err, run.s, run.R)
  {
    FreshRunSettles(c, rank, getRank, s, R[ref.uid := PendingRec], ref);
  }

  /** A fresh resolution leaves its own UID settled with the pair it returns. */
  lemma FreshRunSettles(c: Cluster, rank: UID -> nat, getRank: ObjectKey -> nat, s: FetchTables, R: Records, ref: ObjectReference)
    requires ClusterRanked(c, rank, getRank) && TableRanked(rank, getRank, s.metaCache) && RefRanked(rank, getRank, ref)
    ensures var run := FreshRun(c, rank, getRank, s, R, ref);
      ref.uid in run.R && run.R[ref.uid] == Rec(true, run.tree, run.err)
  {
    LookupRanked(c, rank, getRank, s, ref);
  }
}
