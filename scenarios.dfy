/**
  Concrete runs of the resolver and the pod watcher against one small
  cluster: a Deployment "web" whose ReplicaSet owns a pod, a pod whose
  ReplicaSet is gone, and a pod owned by a kind the API server cannot map.
  Each scenario starts from a freshly built fetcher.
*/
module Scenarios {
  import opened Kube
  import opened RefTree
  import opened OwnerSpec
  import opened OwnerFetch
  import opened PodRules
  import opened PodCallback

  const Ns := "default"
  const RsGVK := GVK("apps/v1", "ReplicaSet")
  const DeployGVK := GVK("apps/v1", "Deployment")
  const WidgetGVK := GVK("example.com/v1", "Widget")

  const DeployMeta := ObjectMeta("web", Ns, "d1", [], map[], false)
  const RsMeta := ObjectMeta("web-5d9", Ns, "rs1", [OwnerReference("apps/v1", "Deployment", "web", "d1")], map[], false)
  const PodType := TypeMeta("v1", "Pod")
  const PodMeta := ObjectMeta("web-5d9-x", Ns, "p1", [OwnerReference("apps/v1", "ReplicaSet", "web-5d9", "rs1")],
                              map[HashLabel := "5d9"], false)
  /** A pod whose ReplicaSet "old" has been deleted. */
  const OrphanMeta := ObjectMeta("old-x", Ns, "p2", [OwnerReference("apps/v1", "ReplicaSet", "old", "rs0")], map[], false)
  /** A pod owned by a Widget, a kind without a REST mapping. */
  const WidgetPodMeta := ObjectMeta("w-x", Ns, "p3", [OwnerReference("example.com/v1", "Widget", "w", "w1")], map[], false)

  const PodRef := ObjectReference("Pod", Ns, "web-5d9-x", "p1", "v1")
  const RsRef := ObjectReference("ReplicaSet", Ns, "web-5d9", "rs1", "apps/v1")
  const DeployRef := ObjectReference("Deployment", Ns, "web", "d1", "apps/v1")
  const OrphanRef := ObjectReference("Pod", Ns, "old-x", "p2", "v1")
  const GoneRef := ObjectReference("ReplicaSet", Ns, "old", "rs0", "apps/v1")

  const PodTree := ObjectRefTree(PodRef, [ObjectRefTree(RsRef, [ObjectRefTree(DeployRef, [])])])

  /** Every kind maps except Widget. */
  function Mapping(g: GVK): Option<Error> {
    if g == WidgetGVK then Some(MappingFailed(g)) else None
  }

  /** Every list comes back empty, so each lookup falls back to a direct get. */
  function ListNothing(rns: ResourceNamespace): Result<seq<ObjectMeta>> {
    Ok([])
  }

  function WatchStarts(rns: ResourceNamespace): Option<Error> {
    None
  }

  function Get(k: ObjectKey): Result<ObjectMeta> {
    if k == ObjectKey(Ns, RsGVK, "web-5d9") then Ok(RsMeta)
    else if k == ObjectKey(Ns, DeployGVK, "web") then Ok(DeployMeta)
    else Err(NotFound)
  }

  const Demo := Cluster(Mapping, ListNothing, WatchStarts, Get)

  /** Pods rank above ReplicaSets, ReplicaSets above Deployments. */
  function Rank(u: UID): nat {
    if u == "rs1" then 1 else if u == "d1" || u == "rs0" || u == "w1" then 0 else 2
  }

  function GetRank(k: ObjectKey): nat {
    if k == ObjectKey(Ns, RsGVK, "web-5d9") then 1 else 0
  }

  lemma DemoRanked()
    ensures ClusterRanked(Demo, Rank, GetRank)
  {
    forall k | Demo.get(k).Ok?
      ensures MetaRanked(Rank, GetRank, Demo.get(k).value, GetRank(k))
    {
      if k == ObjectKey(Ns, RsGVK, "web-5d9") {
        assert Demo.get(k).value == RsMeta;
        assert OwnerRefOf(RsMeta, RsMeta.ownerReferences[0]) == DeployRef;
      }
    }
  }

  const NoTables := FetchTables(map[], map[], {})
  const RnsRs := ResourceNamespace(Ns, RsGVK)
  const RnsD := ResourceNamespace(Ns, DeployGVK)
  /** The tables after the ReplicaSet lookup, and after the Deployment lookup: flagged and watched, nothing stored. */
  const S1 := FetchTables(map[], map[RnsRs := true], {RnsRs})
  const S2 := FetchTables(map[], map[RnsRs := true, RnsD := true], {RnsRs, RnsD})

  const DeployTree := ObjectRefTree(DeployRef, [])
  const RsTree := ObjectRefTree(RsRef, [DeployTree])
  /** The records as each object is opened, and as the Deployment and then the ReplicaSet are settled. */
  const R1: Records := map["p1" := PendingRec]
  const R2: Records := R1["rs1" := PendingRec]
  const R3: Records := R2["d1" := PendingRec]
  const RD: Records := R3["d1" := Rec(true, DeployTree, None)]
  const RRs: Records := RD["rs1" := Rec(true, RsTree, None)]

  /** The Deployment, resolved after the ReplicaSet's lookup: a root without owners. */
  lemma DeployLevel()
    ensures ClusterRanked(Demo, Rank, GetRank)
    ensures RefRun(Demo, Rank, GetRank, S1, R2, DeployRef) == Run(DeployTree, None, S2, RD)
  {
    DemoRanked();
    assert Ensure(Demo, S1, RnsD) == S2;
    assert LookupMeta(Demo, S1, DeployRef) == (Ok(DeployMeta), S2);
    assert NodeRun(Demo, Rank, GetRank, S2, R3, DeployRef, DeployMeta, 0, 0) == Run(DeployTree, None, S2, R3);
    assert MetaRun(Demo, Rank, GetRank, S2, R3, DeployRef, DeployMeta) == Run(DeployTree, None, S2, RD);
    assert FreshRun(Demo, Rank, GetRank, S1, R3, DeployRef) == Run(DeployTree, None, S2, RD);
  }

  /** The ReplicaSet: its one owner is the Deployment. */
  lemma RsLevel()
    ensures ClusterRanked(Demo, Rank, GetRank)
    ensures RefRun(Demo, Rank, GetRank, NoTables, R1, RsRef) == Run(RsTree, None, S2, RRs)
  {
    DeployLevel();
    assert Ensure(Demo, NoTables, RnsRs) == S1;
    assert LookupMeta(Demo, NoTables, RsRef) == (Ok(RsMeta), S1);
    assert OwnerRefOf(RsMeta, RsMeta.ownerReferences[0]) == DeployRef;
    assert NodeRun(Demo, Rank, GetRank, S1, R2, RsRef, RsMeta, 0, 1) == Run(ObjectRefTree(RsRef, []), None, S1, R2);
    assert NodeRun(Demo, Rank, GetRank, S1, R2, RsRef, RsMeta, 1, 1) == Run(RsTree, None, S2, RD);
    assert MetaRun(Demo, Rank, GetRank, S1, R2, RsRef, RsMeta) == Run(RsTree, None, S2, RRs);
    assert FreshRun(Demo, Rank, GetRank, NoTables, R2, RsRef) == Run(RsTree, None, S2, RRs);
  }

  /**
    The resolution of the pod from empty tables: each lookup flags and
    watches the (namespace, kind) it touches, and each object's record is
    settled after those of its owners.
  */
  lemma DeployedPodRun()
    ensures ClusterRanked(Demo, Rank, GetRank)
    ensures ObjRun(Demo, Rank, GetRank, NoTables, map[], PodType, PodMeta)
         == Run(PodTree, None, S2, RRs["p1" := Rec(true, PodTree, None)])
  {
    RsLevel();
    assert OwnerRefOf(PodMeta, PodMeta.ownerReferences[0]) == RsRef;
    assert NodeRun(Demo, Rank, GetRank, NoTables, R1, PodRef, PodMeta, 0, 2) == Run(ObjectRefTree(PodRef, []), None, NoTables, R1);
    assert NodeRun(Demo, Rank, GetRank, NoTables, R1, PodRef, PodMeta, 1, 2) == Run(PodTree, None, S2, RRs);
    assert SelfRefOf(PodType, PodMeta) == PodRef;
    assert MetaRun(Demo, Rank, GetRank, NoTables, R1, PodRef, PodMeta) == Run(PodTree, None, S2, RRs["p1" := Rec(true, PodTree, None)]);
  }

  const OrphanOpen: Records := map["p2" := PendingRec]
  const GoneLeaf := ObjectRefTree(GoneRef, [])

  /** The vanished ReplicaSet: the direct get answers NotFound, so it becomes a settled leaf. */
  lemma GoneLevel()
    ensures ClusterRanked(Demo, Rank, GetRank)
    ensures RefRun(Demo, Rank, GetRank, NoTables, OrphanOpen, GoneRef)
         == Run(GoneLeaf, None, S1, OrphanOpen["rs0" := Rec(true, GoneLeaf, None)])
  {
    DemoRanked();
    assert Ensure(Demo, NoTables, RnsRs) == S1;
    assert LookupMeta(Demo, NoTables, GoneRef) == (Err(NotFound), S1);
    assert FreshRun(Demo, Rank, GetRank, NoTables, OrphanOpen["rs0" := PendingRec], GoneRef)
        == Run(GoneLeaf, None, S1, OrphanOpen["rs0" := Rec(true, GoneLeaf, None)]);
  }

  /** The pod whose ReplicaSet is gone: the ReplicaSet is a leaf, and the resolution succeeds. */
  lemma OrphanPodRun()
    ensures ClusterRanked(Demo, Rank, GetRank)
    ensures var run := ObjRun(Demo, Rank, GetRank, NoTables, map[], PodType, OrphanMeta);
      run.err == None && run.tree == ObjectRefTree(OrphanRef, [GoneLeaf])
  {
    GoneLevel();
    assert OwnerRefOf(OrphanMeta, OrphanMeta.ownerReferences[0]) == GoneRef;
    assert NodeRun(Demo, Rank, GetRank, NoTables, OrphanOpen, OrphanRef, OrphanMeta, 0, 2)
        == Run(ObjectRefTree(OrphanRef, []), None, NoTables, OrphanOpen);
    assert NodeRun(Demo, Rank, GetRank, NoTables, OrphanOpen, OrphanRef, OrphanMeta, 1, 2).tree == ObjectRefTree(OrphanRef, [GoneLeaf]);
    assert SelfRefOf(PodType, OrphanMeta) == OrphanRef;
  }

  /** The pod owned by a Widget: the mapping error of the owner is the pod's error, and the tree is empty. */
  lemma WidgetPodRun()
    ensures ClusterRanked(Demo, Rank, GetRank)
    ensures var run := ObjRun(Demo, Rank, GetRank, NoTables, map[], PodType, WidgetPodMeta);
      run.err == Some(MappingFailed(WidgetGVK)) && run.tree == EmptyTree
  {
    DemoRanked();
    var wRef := OwnerRefOf(WidgetPodMeta, WidgetPodMeta.ownerReferences[0]);
    var open: Records := map["p3" := PendingRec];
    assert RefGVK(wRef) == WidgetGVK;
    assert LookupMeta(Demo, NoTables, wRef) == (Err(MappingFailed(WidgetGVK)), NoTables);
    assert FreshRun(Demo, Rank, GetRank, NoTables, open["w1" := PendingRec], wRef).err == Some(MappingFailed(WidgetGVK));
    assert RefRun(Demo, Rank, GetRank, NoTables, open, wRef).err == Some(MappingFailed(WidgetGVK));
    assert NodeRun(Demo, Rank, GetRank, NoTables, open, SelfRefOf(PodType, WidgetPodMeta), WidgetPodMeta, 1, 2).err
        == Some(MappingFailed(WidgetGVK));
  }

  lemma PodTreeHasDeployment()
    ensures ContainsUID(PodTree, "d1")
  {
    assert ContainsUID(PodTree.owners[0].owners[0], "d1");
    assert ContainsUID(PodTree.owners[0], "d1");
  }

  const RunningPod := Pod(PodType, PodMeta, PodStatus("Running", [ContainerStatus(ContainerState(None, true, None))]))

  /** The first event for the running pod, owned by d1 and stamped "5d9": the status line, then Success. */
  lemma RunningPodCompletes()
    ensures Callback(EmptyWatch, "d1", "5d9", RunningPod, PodTree, None)
         == (Watch(map["web-5d9-x" := "Running"], map["web-5d9-x" := "Running"], map[], true,
                   [StatusLine("web-5d9-x", "Running", "Running"), SuccessLine]), Completed)
  {
    PodTreeHasDeployment();
    assert PodPhase(RunningPod) == "Running";
    assert ContainerStatusOf(RunningPod) == "Running";
    assert GetOr(RunningPod.meta.labels, HashLabel, "") == "5d9";
    assert Accepted("d1", "5d9", RunningPod, PodTree, None);
    var (w, o) := Callback(EmptyWatch, "d1", "5d9", RunningPod, PodTree, None);
    assert o == Completed;
    assert w.out == [StatusLine("web-5d9-x", "Running", "Running"), SuccessLine];
    assert w.phases == map["web-5d9-x" := "Running"];
    assert w.done;
    assert w.ignored == map[];
  }

  /** A new fetcher resolves the pod to the three-level chain, which contains the Deployment. */
  method ResolveDeployedPod() returns (tree: ObjectRefTree, err: Option<Error>)
    ensures err == None && tree == PodTree
    ensures ContainsUID(tree, "d1")
  {
    DeployedPodRun();
    PodTreeHasDeployment();
    var f := new OwnerFetcher(Demo, Rank, GetRank);
    tree, err := f.OwnerTreeOf(PodType, PodMeta);
  }

  /** A new fetcher resolves the orphaned pod with its vanished ReplicaSet as a leaf, and no error. */
  method ResolveOrphanPod() returns (tree: ObjectRefTree, err: Option<Error>)
    ensures err == None && tree == ObjectRefTree(OrphanRef, [ObjectRefTree(GoneRef, [])])
  {
    OrphanPodRun();
    var f := new OwnerFetcher(Demo, Rank, GetRank);
    tree, err := f.OwnerTreeOf(PodType, OrphanMeta);
  }

  /** A new fetcher fails on the Widget-owned pod with the mapping error. */
  method ResolveWidgetPod() returns (tree: ObjectRefTree, err: Option<Error>)
    ensures err == Some(MappingFailed(WidgetGVK)) && tree == EmptyTree
  {
    WidgetPodRun();
    var f := new OwnerFetcher(Demo, Rank, GetRank);
    tree, err := f.OwnerTreeOf(PodType, WidgetPodMeta);
  }

  /**
    The watcher for Deployment d1 and template hash "5d9" sees its pod
    running: it prints the status line and Success, and closes `done`.
  */
  method WatchDeployedPod() returns (outcome: Outcome, out: seq<Line>)
    ensures outcome == Completed
    ensures out == [StatusLine("web-5d9-x", "Running", "Running"), SuccessLine]
  {
    DeployedPodRun();
    RunningPodCompletes();
    var f := new OwnerFetcher(Demo, Rank, GetRank);
    var w := new PodTracker(f, "d1", "5d9");
    ghost var tree, err;
    outcome, tree, err := w.OnPodEvent(RunningPod);
    out := w.out;
  }
}
