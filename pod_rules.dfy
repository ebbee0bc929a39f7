/**
  The pod-status rules of the deploy watcher: the phase it reports for a
  pod, the status it reports for the pod's first container, and the
  sanitizer that turns a random phrase into a label.
*/
module PodRules {
  import opened Kube

  /** A container's state: at most one of the three is set in practice, but all three are read in order. */
  datatype ContainerState = ContainerState(
    waiting: Option<string>,     // Waiting.Reason, when Waiting != nil
    running: bool,               // Running != nil
    terminated: Option<string>)  // Terminated.Reason, when Terminated != nil

  datatype ContainerStatus = ContainerStatus(state: ContainerState)

  datatype PodStatus = PodStatus(phase: string, containerStatuses: seq<ContainerStatus>)

  datatype Pod = Pod(typeMeta: TypeMeta, meta: ObjectMeta, status: PodStatus)

  // ---------------------------------------------------------------------
  // podPhase

  /** podPhase: "Terminating" once a deletion timestamp is set, else the reported phase. */
  function PodPhase(pod: Pod): string {
    if pod.meta.deleting then "Terminating" else pod.status.phase
  }

  /** Deletion hides the phase: every pod being deleted reports the same, and any other pod reports its own phase. */
  lemma DeletionOverridesPhase(p: Pod, q: Pod)
    ensures p.meta.deleting && q.meta.deleting ==> PodPhase(p) == PodPhase(q) == "Terminating"
    ensures !p.meta.deleting ==> PodPhase(p) == p.status.phase
  {
  }

  /** A pod reported "Running" is not being deleted and its status says Running. */
  lemma RunningPhaseIsLive(pod: Pod)
    ensures PodPhase(pod) == "Running" <==> !pod.meta.deleting && pod.status.phase == "Running"
  {
  }

  // ---------------------------------------------------------------------
  // containerStatus

  /** containerStatus: the first container's Waiting reason, else "Running", else its Terminated reason, else "". */
  function ContainerStatusOf(pod: Pod): (r: string)
    ensures |pod.status.containerStatuses| == 0 ==> r == ""
    ensures r != "" ==> |pod.status.containerStatuses| > 0
  {
    if |pod.status.containerStatuses| == 0 then ""
    else
      var state := pod.status.containerStatuses[0].state;
      if state.waiting.Some? then state.waiting.value
      else if state.running then "Running"
      else if state.terminated.Some? then state.terminated.value
      else ""
  }

  /**
    An independent statement of the priority: the first of
    Waiting, Running, Terminated that is set decides.
  */
  function StateSummary(s: ContainerState): string {
    FirstSet([s.waiting, if s.running then Some("Running") else None, s.terminated])
  }

  function FirstSet(cands: seq<Option<string>>): (r: string)
    ensures r != "" ==> exists i :: 0 <= i < |cands| && cands[i] == Some(r)
  {
    if |cands| == 0 then ""
    else if cands[0].Some? then cands[0].value
    else FirstSet(cands[1..])
  }

  /** containerStatus follows that priority. */
  lemma ContainerStatusIsFirstSet(pod: Pod)
    requires |pod.status.containerStatuses| > 0
    ensures ContainerStatusOf(pod) == StateSummary(pod.status.containerStatuses[0].state)
  {
    var s := pod.status.containerStatuses[0].state;
    var cands := [s.waiting, if s.running then Some("Running") else None, s.terminated];
    var c1 := cands[1..];
    var c2 := c1[1..];
    assert c2 == [s.terminated] && c2[1..] == [];
    assert FirstSet(c2) == if s.terminated.Some? then s.terminated.value else "";
    assert FirstSet(c1) == if s.running then "Running" else FirstSet(c2);
  }

  /** Only the first container is read: the others can be anything. */
  lemma OnlyFirstContainerCounts(p: Pod, q: Pod)
    requires |p.status.containerStatuses| > 0 && |q.status.containerStatuses| > 0
    requires p.status.containerStatuses[0] == q.status.containerStatuses[0]
    ensures ContainerStatusOf(p) == ContainerStatusOf(q)
  {
  }

  /** A Waiting state wins over Running and Terminated; Running wins over Terminated. */
  lemma WaitingTakesPriority(pod: Pod)
    requires |pod.status.containerStatuses| > 0
    ensures var s := pod.status.containerStatuses[0].state;
      && (s.waiting.Some? ==> ContainerStatusOf(pod) == s.waiting.value)
      && (s.waiting.None? && s.running ==> ContainerStatusOf(pod) == "Running")
      && (s.waiting.None? && !s.running && s.terminated.None? ==> ContainerStatusOf(pod) == "")
  {
  }

  // ---------------------------------------------------------------------
  // sanitize

  /** The characters the regular expression `[^a-zA-Z-]` does not match. */
  predicate IsLetterOrDash(c: char) {
    ('a' <= c <= 'z') || ('A' <= c <= 'Z') || c == '-'
  }

  predicate IsLowerOrDash(c: char) {
    ('a' <= c <= 'z') || c == '-'
  }

  /** ASCII lower-casing, which is all `strings.ToLower` does to a string of ASCII letters and dashes. */
  function LowerChar(c: char): (r: char)
    ensures IsLetterOrDash(c) ==> IsLowerOrDash(r)
    ensures IsLowerOrDash(c) ==> r == c
  {
    if 'A' <= c <= 'Z' then (c as int - 'A' as int + 'a' as int) as char else c
  }

  /** `ReplaceAllString(s, "")` for `[^a-zA-Z-]`: drop every other character, keeping the order. */
  function KeepLetters(s: string): (r: string)
    ensures |r| <= |s|
    ensures forall c :: c in r <==> c in s && IsLetterOrDash(c)
  {
    if |s| == 0 then ""
    else if IsLetterOrDash(s[0]) then [s[0]] + KeepLetters(s[1..])
    else KeepLetters(s[1..])
  }

  function ToLower(s: string): (r: string)
    ensures |r| == |s|
    ensures forall i :: 0 <= i < |s| ==> r[i] == LowerChar(s[i])
  {
    seq(|s|, i requires 0 <= i < |s| => LowerChar(s[i]))
  }

  /** sanitize: letters and dashes only, lower-cased. */
  function Sanitize(s: string): (r: string)
    ensures |r| <= |s|
    ensures forall c :: c in r ==> IsLowerOrDash(c)
  {
    ToLower(KeepLetters(s))
  }

  /** Filtering a string that has nothing to drop changes nothing. */
  lemma {:induction false} KeepLettersKeepsClean(s: string)
    requires forall c :: c in s ==> IsLetterOrDash(c)
    ensures KeepLetters(s) == s
  {
    if |s| > 0 {
      assert s[0] in s;
      assert forall c :: c in s[1..] ==> c in s;
      KeepLettersKeepsClean(s[1..]);
      assert s == [s[0]] + s[1..];
    }
  }

  lemma ToLowerKeepsLower(s: string)
    requires forall c :: c in s ==> IsLowerOrDash(c)
    ensures ToLower(s) == s
  {
    assert forall i :: 0 <= i < |s| ==> s[i] in s;
  }

  /** sanitize is idempotent. */
  lemma SanitizeIdempotent(s: string)
    ensures Sanitize(Sanitize(s)) == Sanitize(s)
  {
    var r := Sanitize(s);
    assert forall c :: c in r ==> IsLetterOrDash(c);
    KeepLettersKeepsClean(r);
    ToLowerKeepsLower(r);
  }

  /** The label is empty exactly when the phrase has no letter and no dash. */
  lemma SanitizeEmptyIff(s: string)
    ensures Sanitize(s) == "" <==> forall c :: c in s ==> !IsLetterOrDash(c)
  {
    var k := KeepLetters(s);
    if k != "" {
      assert k[0] in k;
    }
  }
}
