/**
  OwnerFetcher: resolves the owner tree of an object, memoising one promise
  per UID and keeping, per (namespace, kind), a table of object metadata
  filled by one bulk list and kept fresh by a watch.

  Mutex, sync.Once and channels become sequential state: a record is a
  promise object, a once-flag a boolean, and the watch goroutine the
  method ApplyWatchEvent.
*/
module OwnerFetch {
  import opened Kube
  import opened RefTree
  import opened TreePromise
  import opened OwnerSpec

  // ---------------------------------------------------------------------
  // The resolver.

  class OwnerFetcher {
    const cluster: Cluster
    ghost const rank: UID -> nat
    ghost const getRank: ObjectKey -> nat

    var cache: map<UID, ObjectTreePromise>
    /** The records as values, kept equal to the promises' fields by Valid(). */
    ghost var recs: Records
    /** Every promise this fetcher has created. */
    ghost var Repr: set<ObjectTreePromise>
    var metaCache: map<UID, ObjectMeta>
    var resourceFetches: map<ResourceNamespace, bool>
    var watches: set<ResourceNamespace>

    ghost function Tables(): FetchTables
      reads this`metaCache, this`resourceFetches, this`watches
    {
      FetchTables(metaCache, resourceFetches, watches)
    }

    /** The graph is acyclic, and so is everything in the metadata table. */
    ghost predicate Ranked()
      reads this`metaCache
    {
      ClusterRanked(cluster, rank, getRank) && TableRanked(rank, getRank, metaCache)
    }

    /** A watch runs only for a (namespace, kind) whose fetch has happened. */
    ghost predicate WatchesStarted()
      reads this`resourceFetches, this`watches
    {
      forall rns :: rns in watches ==> rns in resourceFetches && resourceFetches[rns]
    }

    /** `recs` mirrors the promises; each promise knows its UID, so no two UIDs share one. */
    ghost predicate RecordsMatch()
      reads this`cache, this`recs, this`Repr, Repr
    {
      && cache.Keys == recs.Keys
      && (forall u :: u in cache ==> cache[u] in Repr && cache[u].key == u && recs[u] == Rec(cache[u].done, cache[u].tree, cache[u].err))
    }

    ghost predicate Valid()
      reads this, Repr
    {
      Ranked() && WatchesStarted() && RecordsMatch() && RecordsValid(recs)
    }

    /** No resolution in flight: every record is settled. */
    ghost predicate Quiescent()
      reads this
    {
      forall u :: u in recs ==> recs[u].done
    }

    /** A fetcher over `cluster` (client construction is not modelled); the ranks witness that its owner graph is acyclic. */
    constructor (cluster: Cluster, ghost rank: UID -> nat, ghost getRank: ObjectKey -> nat)
      requires ClusterRanked(cluster, rank, getRank)
      ensures Valid() && Quiescent()
      ensures this.cluster == cluster && this.rank == rank && this.getRank == getRank
      ensures cache == map[] && recs == map[] && Repr == {} && Tables() == FetchTables(map[], map[], {})
    {
      recs := map[];
      Repr := {};
      this.cluster := cluster;
      this.rank := rank;
      this.getRank := getRank;
      cache := map[];
      metaCache := map[];
      resourceFetches := map[];
      watches := {};
    }

    /** getOrCreateResourceFetch: the flag for (ns, gvk), created unset on first use. */
    method GetOrCreateResourceFetch(gvk: GVK, ns: string) returns (fetched: bool)
      modifies this`resourceFetches
      ensures var rns := ResourceNamespace(ns, gvk);
        && resourceFetches == (if rns in old(resourceFetches) then old(resourceFetches) else old(resourceFetches)[rns := false])
        && fetched == resourceFetches[rns]
    {
      var rns := ResourceNamespace(ns, gvk);
      if rns !in resourceFetches {
        resourceFetches := resourceFetches[rns := false];
      }
      fetched := resourceFetches[rns];
    }

    /** The list loop: every listed item is stored under its UID. */
    method StoreListed(items: seq<ObjectMeta>)
      modifies this`metaCache
      ensures metaCache == StoreAll(old(metaCache), items)
    {
      for i := 0 to |items|
        invariant metaCache == StoreAll(old(metaCache), items[..i])
      {
        assert items[..i + 1][..i] == items[..i];
        metaCache := metaCache[items[i].uid := items[i]];
      }
      assert items[..|items|] == items;
    }

    /** ensureResourceFetched: runs the bulk fetch of (ns, gvk) at most once, failure or not. */
    method EnsureResourceFetched(gvk: GVK, ns: string)
      requires Ranked() && WatchesStarted()
      modifies this`metaCache, this`resourceFetches, this`watches
      ensures Ranked() && WatchesStarted()
      ensures Tables() == Ensure(cluster, old(Tables()), ResourceNamespace(ns, gvk))
    {
      var rns := ResourceNamespace(ns, gvk);
      var fetched := GetOrCreateResourceFetch(gvk, ns);
      if fetched {
        assert Started(old(Tables()), rns);
      } else {
        FirstFetch(rns);
      }
    }

    /** The body of the once: mapping, then list, then watch; the flag is set whatever fails. */
    method FirstFetch(rns: ResourceNamespace)
      requires Ranked() && WatchesStarted() && !Started(Tables(), rns)
      modifies this`metaCache, this`resourceFetches, this`watches
      ensures Ranked() && WatchesStarted()
      ensures Tables() == Ensure(cluster, old(Tables()), rns)
    {
      var mappingErr := cluster.mapping(rns.gvk);
      if mappingErr.None? {
        var listed := cluster.list(rns);
        if listed.Ok? {
          StoreAllRanked(cluster, rank, getRank, metaCache, rns);
          StoreListed(listed.value);
          var watchErr := cluster.watch(rns);
          if watchErr.None? {
            watches := watches + {rns};
          }
        }
      }
      resourceFetches := resourceFetches[rns := true];
    }

    /** One event of a running watch. */
    method ApplyWatchEvent(rns: ResourceNamespace, ev: WatchEvent)
      requires Ranked() && rns in watches
      requires ev.MetadataEvent? ==> MetaRanked(rank, getRank, ev.meta, rank(ev.meta.uid))
      modifies this`metaCache
      ensures Ranked()
      ensures Tables() == ApplyEvent(old(Tables()), ev)
    {
      match ev
      case MetadataEvent(_, m) =>
        metaCache := metaCache[m.uid := m];
      case StatusEvent(_) =>
    }

    /** getMetaByReference. */
    method GetMetaByReference(ref: ObjectReference) returns (r: Result<ObjectMeta>)
      requires Valid()
      modifies this`metaCache, this`resourceFetches, this`watches
      ensures Valid()
      ensures (r, Tables()) == LookupMeta(cluster, old(Tables()), ref)
      ensures Grows(old(Tables()), Tables())
      ensures RefRanked(rank, getRank, ref) && r.Ok? ==> MetaRanked(rank, getRank, r.value, rank(ref.uid))
    {
      LookupGrows(cluster, Tables(), ref);
      var gvk := RefGVK(ref);
      var mappingErr := cluster.mapping(gvk);
      if mappingErr.Some? {
        return Err(mappingErr.value);
      }
      EnsureResourceFetched(gvk, ref.namespace);
      if ref.uid in metaCache {
        return Ok(metaCache[ref.uid]);
      }
      r := cluster.get(KeyOf(ref));
    }

    /** getOrCreatePromise: the existing record and true, or a fresh pending record and false. */
    method GetOrCreatePromise(id: UID) returns (promise: ObjectTreePromise, ok: bool)
      requires Valid()
      modifies this`cache, this`recs, this`Repr
      ensures fresh(Repr - old(Repr))
      ensures Valid()
      ensures ok == (id in old(cache))
      ensures ok ==> cache == old(cache) && recs == old(recs) && Repr == old(Repr) && promise == cache[id]
      ensures !ok ==> fresh(promise) && promise.State() == Pending && promise.tree == EmptyTree && promise.err == None
      ensures !ok ==> cache == old(cache)[id := promise] && recs == old(recs)[id := PendingRec]
    {
      ok := id in cache;
      if ok {
        promise := cache[id];
      } else {
        OpenKeepsValid(recs, id);
        promise := new ObjectTreePromise(id);
        cache := cache[id := promise];
        recs := recs[id := PendingRec];
        Repr := Repr + {promise};
      }
    }

    /** The last step of a resolution: reject the pending record of `id` on an error, resolve it otherwise. */
    method Settle(id: UID, tree: ObjectRefTree, err: Option<Error>)
      requires Valid() && id != "" && id in recs && recs[id] == PendingRec
      requires err.Some? ==> tree == EmptyTree
      requires err.None? ==> tree.ref.uid == id && OwnersSettled(recs, tree)
      modifies Repr, this`recs
      ensures Valid() && cache == old(cache) && Repr == old(Repr)
      ensures recs == old(recs)[id := Rec(true, tree, err)]
    {
      SettleKeepsValid(recs, id, tree, err);
      var promise := cache[id];
      if err.Some? {
        promise.Reject(err.value);
      } else {
        promise.Resolve(tree);
      }
      recs := recs[id := Rec(true, tree, err)];
    }

    /**
      OwnerTreeOfRef. The empty UID is refused; a UID with a record gets the
      stored pair without any lookup; otherwise this call creates the record
      and resolves it (ResolveRef).
    */
    method OwnerTreeOfRef(ref: ObjectReference) returns (tree: ObjectRefTree, err: Option<Error>)
      requires Valid() && RefRanked(rank, getRank, ref) && PendingAbove(recs, rank, rank(ref.uid))
      modifies this, Repr
      ensures Valid()
      ensures fresh(Repr - old(Repr))
      ensures Extends(old(recs), recs)
      ensures Settled(recs, ref.uid, tree, err)
      ensures ref.uid == "" || ref.uid in old(cache) ==> unchanged(this)
      ensures ref.uid != "" && ref.uid !in old(cache) ==> Fetched(old(Tables()), ref, tree, err)
      ensures Run(tree, err, Tables(), recs) == RefRun(cluster, rank, getRank, old(Tables()), old(recs), ref)
      ensures Grows(old(Tables()), Tables())
      decreases rank(ref.uid), 4
    {
      if ref.uid == "" {
        return EmptyTree, Some(Undeployed);
      }
      var promise, ok := GetOrCreatePromise(ref.uid);
      if ok {
        assert recs[ref.uid].done;
        tree, err := promise.Wait();
        return;
      }
      ghost var R1 := recs;
      tree, err := ResolveRef(ref);
      OpenSettleExtends(old(recs), R1, recs, ref.uid);
      FreshRunGrows(cluster, rank, getRank, old(Tables()), R1, ref);
    }

    /**
      What resolving `ref` yields when its metadata is looked up in the
      tables `s`: a leaf when the object is not found, the zero tree and the
      error on any other failure, and the assembled node otherwise.
    */
    ghost predicate Fetched(s: FetchTables, ref: ObjectReference, tree: ObjectRefTree, err: Option<Error>)
      reads this
    {
      var r := LookupMeta(cluster, s, ref).0;
      && (r == Err(NotFound) ==> tree == ObjectRefTree(ref, []) && err == None)
      && (r.Err? && r.error != NotFound ==> tree == EmptyTree && err == Some(r.error))
      && (r.Ok? ==> Assembled(recs, ref, r.value, tree, err))
    }

    /** The body of ownerTreeOfRef after the record is created: look the metadata up, then settle the record. */
    method ResolveRef(ref: ObjectReference) returns (tree: ObjectRefTree, err: Option<Error>)
      requires Valid() && RefRanked(rank, getRank, ref)
      requires ref.uid != "" && ref.uid in recs && recs[ref.uid] == PendingRec
      requires PendingAbove(recs, rank, rank(ref.uid) - 1)
      modifies this, Repr
      ensures Valid() && fresh(Repr - old(Repr)) && Extends(old(recs) - {ref.uid}, recs)
      ensures Settled(recs, ref.uid, tree, err)
      ensures Fetched(old(Tables()), ref, tree, err)
      ensures Run(tree, err, Tables(), recs) == FreshRun(cluster, rank, getRank, old(Tables()), old(recs), ref)
      decreases rank(ref.uid), 3
    {
      var r := GetMetaByReference(ref);
      if r.Ok? {
        tree, err := ResolveMeta(ref, r.value);
        return;
      }
      if r.error == NotFound {
        tree, err := ObjectRefTree(ref, []), None;
      } else {
        tree, err := EmptyTree, Some(r.error);
      }
      SettleExtends(recs, recs, ref.uid, Rec(true, tree, err));
      Settle(ref.uid, tree, err);
    }

    /** Resolve the owners of `ref`, whose metadata is `meta`, and settle its record with the outcome. */
    method ResolveMeta(ref: ObjectReference, meta: ObjectMeta) returns (tree: ObjectRefTree, err: Option<Error>)
      requires Valid() && MetaRanked(rank, getRank, meta, rank(ref.uid))
      requires ref.uid != "" && ref.uid in recs && recs[ref.uid] == PendingRec
      requires PendingAbove(recs, rank, rank(ref.uid) - 1)
      modifies this, Repr
      ensures Valid() && fresh(Repr - old(Repr)) && Extends(old(recs) - {ref.uid}, recs)
      ensures Settled(recs, ref.uid, tree, err) && Assembled(recs, ref, meta, tree, err)
      ensures Run(tree, err, Tables(), recs) == MetaRun(cluster, rank, getRank, old(Tables()), old(recs), ref, meta)
      decreases rank(ref.uid), 2
    {
      ghost var R1 := recs;
      tree, err := OwnerTreeOfHelper(ref, meta, rank(ref.uid));
      SettleAssembled(R1, recs, ref, meta, tree, err);
      Settle(ref.uid, tree, err);
    }

    /** ownerTreeOfHelper: resolve the owners in declared order; the first failure aborts the node. */
    method OwnerTreeOfHelper(ref: ObjectReference, meta: ObjectMeta, ghost bound: nat) returns (tree: ObjectRefTree, err: Option<Error>)
      requires Valid() && MetaRanked(rank, getRank, meta, bound) && PendingAbove(recs, rank, bound - 1)
      modifies this, Repr
      ensures Valid()
      ensures fresh(Repr - old(Repr))
      ensures Extends(old(recs), recs)
      ensures Assembled(recs, ref, meta, tree, err)
      ensures Run(tree, err, Tables(), recs) == NodeRun(cluster, rank, getRank, old(Tables()), old(recs), ref, meta, |meta.ownerReferences|, bound)
      decreases bound, 1
    {
      var owners := meta.ownerReferences;
      tree := ObjectRefTree(ref, []);
      ghost var s0, R0 := Tables(), recs;
      for i := 0 to |owners|
        invariant Valid() && fresh(Repr - old(Repr)) && Extends(old(recs), recs)
        invariant tree.ref == ref && OwnersPrefix(recs, tree, owners, i)
        invariant Run(tree, None, Tables(), recs) == NodeRun(cluster, rank, getRank, s0, R0, ref, meta, i, bound)
      {
        ExtendsKeepsPending(old(recs), recs, rank, bound - 1);
        ghost var R := recs;
        var ownerErr;
        tree, ownerErr := ResolveOwner(ref, meta, bound, i, tree, s0, R0);
        ExtendsTrans(old(recs), R, recs);
        if ownerErr.Some? {
          NodeRunStopsAtFailure(cluster, rank, getRank, s0, R0, ref, meta, i + 1, |owners|, bound);
          return tree, ownerErr;
        }
      }
      err := None;
    }

    /**
      One turn of ownerTreeOfHelper's loop, after owners 0 to i - 1 succeeded:
      resolve owner `i`, then append its tree, or abort with its error.
    */
    method ResolveOwner(ref: ObjectReference, meta: ObjectMeta, ghost bound: nat, i: nat, tree0: ObjectRefTree,
                        ghost s0: FetchTables, ghost R0: Records) returns (tree: ObjectRefTree, err: Option<Error>)
      requires Valid() && MetaRanked(rank, getRank, meta, bound) && PendingAbove(recs, rank, bound - 1)
      requires i < |meta.ownerReferences| && tree0.ref == ref && OwnersPrefix(recs, tree0, meta.ownerReferences, i)
      requires TableRanked(rank, getRank, s0.metaCache)
      requires Run(tree0, None, Tables(), recs) == NodeRun(cluster, rank, getRank, s0, R0, ref, meta, i, bound)
      modifies this, Repr
      ensures Valid() && fresh(Repr - old(Repr)) && Extends(old(recs), recs)
      ensures err.None? ==> tree.ref == ref && OwnersPrefix(recs, tree, meta.ownerReferences, i + 1)
      ensures err.Some? ==> tree == EmptyTree && FailedAt(recs, meta.ownerReferences, i, err)
      ensures Run(tree, err, Tables(), recs) == NodeRun(cluster, rank, getRank, s0, R0, ref, meta, i + 1, bound)
      decreases bound, 0
    {
      var owner := meta.ownerReferences[i];
      assert owner in meta.ownerReferences;
      ghost var R, s := recs, Tables();
      var ownerTree, ownerErr := OwnerTreeOfRef(OwnerRefOf(meta, owner));
      NodeRunStep(cluster, rank, getRank, s0, R0, ref, meta, i, bound, Run(tree0, None, s, R), Run(ownerTree, ownerErr, Tables(), recs));
      assert KeepsSettled(R, recs);
      KeepsOwnersPrefix(R, recs, tree0, meta.ownerReferences, i);
      if ownerErr.Some? {
        OwnersPrefixFails(recs, tree0, meta.ownerReferences, i, ownerErr);
        return EmptyTree, ownerErr;
      }
      OwnersPrefixStep(recs, tree0, meta.ownerReferences, i, ownerTree);
      tree, err := tree0.(owners := tree0.owners + [ownerTree]), None;
    }

    /** OwnerTreeOf: like OwnerTreeOfRef, for an object whose own metadata is at hand (no lookup for the object itself). */
    method OwnerTreeOf(tm: TypeMeta, meta: ObjectMeta) returns (tree: ObjectRefTree, err: Option<Error>)
      requires Valid() && MetaRanked(rank, getRank, meta, rank(meta.uid)) && PendingAbove(recs, rank, rank(meta.uid))
      modifies this, Repr
      ensures Valid()
      ensures fresh(Repr - old(Repr))
      ensures Extends(old(recs), recs)
      ensures Settled(recs, meta.uid, tree, err)
      ensures meta.uid == "" || meta.uid in old(cache) ==> unchanged(this)
      ensures meta.uid != "" && meta.uid !in old(cache) ==> Assembled(recs, SelfRefOf(tm, meta), meta, tree, err)
      ensures Run(tree, err, Tables(), recs) == ObjRun(cluster, rank, getRank, old(Tables()), old(recs), tm, meta)
      ensures Grows(old(Tables()), Tables())
    {
      if meta.uid == "" {
        return EmptyTree, Some(Undeployed);
      }
      var promise, ok := GetOrCreatePromise(meta.uid);
      if ok {
        assert recs[meta.uid].done;
        tree, err := promise.Wait();
        return;
      }
      ghost var R1 := recs;
      tree, err := ResolveMeta(SelfRefOf(tm, meta), meta);
      OpenSettleExtends(old(recs), R1, recs, meta.uid);
      MetaRunGrows(cluster, rank, getRank, old(Tables()), R1, SelfRefOf(tm, meta), meta);
    }
  }
}
