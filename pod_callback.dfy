/**
  The pod-event callback of the deploy watcher. For every pod event it
  resolves the pod's owner tree, drops pods that the new deployment does
  not own, notes once each pod whose template hash differs, reports a pod
  whenever its (phase, container status) pair changes, and signals
  completion when a pod is Running with a Running container.

  The callback is a state machine over three maps and the `done` channel;
  `Callback` below states one step of it as a function on a `Watch`
  value, and `PodTracker` holds the same state in fields that its
  methods update in place.
*/
module PodCallback {
  import opened Kube
  import opened RefTree
  import opened OwnerSpec
  import opened OwnerFetch
  import opened PodRules

  /** The label under which a pod carries the hash of the template it was made from. */
  const HashLabel := "tilt.dev/pod-template-hash"

  /** What the callback writes: the log line for a failed resolution, and the lines it prints (the pod age is not modelled). */
  datatype Line =
    | FetchErrorLine(error: Error)
    | IgnoringLine(pod: string)
    | StatusLine(pod: string, phase: string, container: string)
    | SuccessLine

  /** How one event was handled. `ClosedTwice` is a second close of `done`, which panics. */
  datatype Outcome = FetchFailed(error: Error) | NotOwned | Ignored | Unchanged | Reported | Completed | ClosedTwice

  /** The callback's state: the three maps, whether `done` is closed, and the lines written so far. */
  datatype Watch = Watch(
    phases: map<string, string>,
    statuses: map<string, string>,
    ignored: map<string, bool>,
    done: bool,
    out: seq<Line>)

  const EmptyWatch := Watch(map[], map[], map[], false, [])

  /** Go's map index: a missing key reads as the zero value. */
  function GetOr<K, V>(m: map<K, V>, k: K, zero: V): V {
    if k in m then m[k] else zero
  }

  /** The pod belongs to the deployment and carries its template hash. */
  predicate Accepted(deployment: UID, hash: string, pod: Pod, tree: ObjectRefTree, err: Option<Error>) {
    err.None? && ContainsUID(tree, deployment) && GetOr(pod.meta.labels, HashLabel, "") == hash
  }

  /** The pod's (phase, container status) pair differs from the stored one. */
  predicate Changed(w: Watch, pod: Pod) {
    GetOr(w.phases, pod.meta.name, "") != PodPhase(pod) || GetOr(w.statuses, pod.meta.name, "") != ContainerStatusOf(pod)
  }

  predicate Completes(pod: Pod) {
    PodPhase(pod) == "Running" && ContainerStatusOf(pod) == "Running"
  }

  /** One event, given the owner tree (or error) the fetcher returned for the pod. */
  function Callback(w: Watch, deployment: UID, hash: string, pod: Pod, tree: ObjectRefTree, err: Option<Error>): (Watch, Outcome) {
    var name := pod.meta.name;
    if err.Some? then
      (w.(out := w.out + [FetchErrorLine(err.value)]), FetchFailed(err.value))
    else if !ContainsUID(tree, deployment) then
      (w, NotOwned)
    else if GetOr(pod.meta.labels, HashLabel, "") != hash then
      if GetOr(w.ignored, name, false) then (w, Ignored)
      else (w.(ignored := w.ignored[name := true], out := w.out + [IgnoringLine(name)]), Ignored)
    else
      var phase := PodPhase(pod);
      var cStatus := ContainerStatusOf(pod);
      if GetOr(w.phases, name, "") == phase && GetOr(w.statuses, name, "") == cStatus then
        (w, Unchanged)
      else
        var reported := w.(phases := w.phases[name := phase], statuses := w.statuses[name := cStatus],
                           out := w.out + [StatusLine(name, phase, cStatus)]);
        if phase == "Running" && cStatus == "Running" then
          if w.done then (reported.(out := reported.out + [SuccessLine]), ClosedTwice)
          else (reported.(done := true, out := reported.out + [SuccessLine]), Completed)
        else
          (reported, Reported)
  }

  /** The two status maps have the same pods, `ignored` only ever holds true, and `done` is closed exactly once Success was printed. */
  predicate WatchInv(w: Watch) {
    && w.phases.Keys == w.statuses.Keys
    && (forall n :: n in w.ignored ==> w.ignored[n])
    && (w.done <==> SuccessLine in w.out)
  }

  lemma EmptyWatchInv()
    ensures WatchInv(EmptyWatch)
  {
  }

  // ---------------------------------------------------------------------
  // Properties of one step.

  lemma CallbackKeepsInv(w: Watch, deployment: UID, hash: string, pod: Pod, tree: ObjectRefTree, err: Option<Error>)
    requires WatchInv(w)
    ensures WatchInv(Callback(w, deployment, hash, pod, tree, err).0)
  {
  }

  /** A pod whose resolution failed, or that the deployment does not own, leaves the maps and `done` as they were. */
  lemma UnownedLeavesMaps(w: Watch, deployment: UID, hash: string, pod: Pod, tree: ObjectRefTree, err: Option<Error>)
    requires err.Some? || !ContainsUID(tree, deployment)
    ensures var (w2, o) := Callback(w, deployment, hash, pod, tree, err);
      && w2.phases == w.phases && w2.statuses == w.statuses && w2.ignored == w.ignored && w2.done == w.done
      && (err.Some? ==> o == FetchFailed(err.value) && w2.out == w.out + [FetchErrorLine(err.value)])
      && (err.None? ==> o == NotOwned && w2 == w)
  {
  }

  /** An owned pod with another template hash is marked ignored, and a line is printed only the first time. */
  lemma ForeignHashIgnoredOnce(w: Watch, deployment: UID, hash: string, pod: Pod, tree: ObjectRefTree)
    requires ContainsUID(tree, deployment) && GetOr(pod.meta.labels, HashLabel, "") != hash
    ensures var (w2, o) := Callback(w, deployment, hash, pod, tree, None);
      && o == Ignored
      && w2.phases == w.phases && w2.statuses == w.statuses && w2.done == w.done
      && w2.ignored == w.ignored[pod.meta.name := true]
      && w2.out == (if GetOr(w.ignored, pod.meta.name, false) then w.out else w.out + [IgnoringLine(pod.meta.name)])
  {
  }

  /** An accepted pod changes the state exactly when its pair changed, and then the maps hold the new pair and a status line follows. */
  lemma ReportsOnlyChanges(w: Watch, deployment: UID, hash: string, pod: Pod, tree: ObjectRefTree)
    requires Accepted(deployment, hash, pod, tree, None)
    ensures var (w2, o) := Callback(w, deployment, hash, pod, tree, None);
      && (w2 == w <==> !Changed(w, pod))
      && (!Changed(w, pod) ==> o == Unchanged)
      && (Changed(w, pod) ==>
            && w2.phases == w.phases[pod.meta.name := PodPhase(pod)]
            && w2.statuses == w.statuses[pod.meta.name := ContainerStatusOf(pod)]
            && w2.ignored == w.ignored
            && w2.out[..|w.out| + 1] == w.out + [StatusLine(pod.meta.name, PodPhase(pod), ContainerStatusOf(pod))])
  {
    var (w2, o) := Callback(w, deployment, hash, pod, tree, None);
    if Changed(w, pod) {
      assert |w2.out| > |w.out|;
    }
  }

  /** Completion is signalled exactly for an accepted pod whose changed pair is Running/Running; `done` never reopens. */
  lemma CompletionExactly(w: Watch, deployment: UID, hash: string, pod: Pod, tree: ObjectRefTree, err: Option<Error>)
    ensures var (w2, o) := Callback(w, deployment, hash, pod, tree, err);
      var fires := Accepted(deployment, hash, pod, tree, err) && Changed(w, pod) && Completes(pod);
      && (o == Completed || o == ClosedTwice <==> fires)
      && (o == ClosedTwice <==> fires && w.done)
      && w2.done == (w.done || fires)
  {
  }

  /** Delivering the same event twice: the second delivery changes no map and never signals again. */
  lemma RepeatedEventIsQuiet(w: Watch, deployment: UID, hash: string, pod: Pod, tree: ObjectRefTree, err: Option<Error>)
    ensures var w1 := Callback(w, deployment, hash, pod, tree, err).0;
      var (w2, o2) := Callback(w1, deployment, hash, pod, tree, err);
      && w2.phases == w1.phases && w2.statuses == w1.statuses && w2.ignored == w1.ignored && w2.done == w1.done
      && (err.None? ==> w2 == w1)
      && o2 != Reported && o2 != Completed && o2 != ClosedTwice
  {
    var w1 := Callback(w, deployment, hash, pod, tree, err).0;
    if Accepted(deployment, hash, pod, tree, err) {
      assert GetOr(w1.phases, pod.meta.name, "") == PodPhase(pod);
      assert GetOr(w1.statuses, pod.meta.name, "") == ContainerStatusOf(pod);
    }
  }

  // ---------------------------------------------------------------------
  // The callback as the program runs it.

  class PodTracker {
    const fetcher: OwnerFetcher
    /** The deployment's UID, and the template hash it stamped on its pods. */
    const deployment: UID
    const hash: string
    var phases: map<string, string>
    var statuses: map<string, string>
    var ignored: map<string, bool>
    var done: bool
    var out: seq<Line>

    function State(): Watch
      reads this`phases, this`statuses, this`ignored, this`done, this`out
    {
      Watch(phases, statuses, ignored, done, out)
    }

    ghost predicate Valid()
      reads this, fetcher, fetcher.Repr
    {
      fetcher.Valid() && fetcher.Quiescent() && WatchInv(State())
    }

    /** The three empty maps and the open channel, next to a fetcher with nothing in flight. */
    constructor (fetcher: OwnerFetcher, deployment: UID, hash: string)
      requires fetcher.Valid() && fetcher.Quiescent()
      ensures Valid()
      ensures this.fetcher == fetcher && this.deployment == deployment && this.hash == hash
      ensures State() == EmptyWatch
    {
      this.fetcher := fetcher;
      this.deployment := deployment;
      this.hash := hash;
      phases := map[];
      statuses := map[];
      ignored := map[];
      done := false;
      out := [];
    }

    /** The callback body after the owner tree of the pod has been resolved. */
    method HandleResolved(pod: Pod, tree: ObjectRefTree, err: Option<Error>) returns (outcome: Outcome)
      modifies this`phases, this`statuses, this`ignored, this`done, this`out
      ensures (State(), outcome) == Callback(old(State()), deployment, hash, pod, tree, err)
    {
      if err.Some? {
        out := out + [FetchErrorLine(err.value)];
        return FetchFailed(err.value);
      }
      if !ContainsUID(tree, deployment) {
        return NotOwned;
      }
      var name := pod.meta.name;
      if GetOr(pod.meta.labels, HashLabel, "") != hash {
        if !GetOr(ignored, name, false) {
          out := out + [IgnoringLine(name)];
          ignored := ignored[name := true];
        }
        return Ignored;
      }
      var phase := PodPhase(pod);
      var cStatus := ContainerStatusOf(pod);
      if GetOr(phases, name, "") == phase && GetOr(statuses, name, "") == cStatus {
        return Unchanged;
      }
      phases := phases[name := phase];
      statuses := statuses[name := cStatus];
      out := out + [StatusLine(name, phase, cStatus)];
      if phase == "Running" && cStatus == "Running" {
        out := out + [SuccessLine];
        if done {
          return ClosedTwice;
        }
        done := true;
        return Completed;
      }
      return Reported;
    }

    /**
      The whole callback: resolve the pod's owner tree, then handle it.
      The pod's owners must rank below it in the fetcher's acyclic graph.
    */
    method OnPodEvent(pod: Pod) returns (outcome: Outcome, ghost tree: ObjectRefTree, ghost err: Option<Error>)
      requires Valid()
      requires MetaRanked(fetcher.rank, fetcher.getRank, pod.meta, fetcher.rank(pod.meta.uid))
      modifies this`phases, this`statuses, this`ignored, this`done, this`out, fetcher, fetcher.Repr
      ensures Valid()
      ensures Extends(old(fetcher.recs), fetcher.recs)
      ensures Settled(fetcher.recs, pod.meta.uid, tree, err)
      ensures (State(), outcome) == Callback(old(State()), deployment, hash, pod, tree, err)
      ensures Run(tree, err, fetcher.Tables(), fetcher.recs) ==
        ObjRun(fetcher.cluster, fetcher.rank, fetcher.getRank, old(fetcher.Tables()), old(fetcher.recs), pod.typeMeta, pod.meta)
    {
      var t, e := fetcher.OwnerTreeOf(pod.typeMeta, pod.meta);
      tree, err := t, e;
      assert fetcher.Valid() && fetcher.Quiescent();
      CallbackKeepsInv(State(), deployment, hash, pod, t, e);
      outcome := HandleResolved(pod, t, e);
    }
  }
}
