/**
  The owner tree: an object reference together with the trees of its
  direct owners, in the order the owner references were declared; a UID
  membership test and an indented text rendering.
*/
module RefTree {
  import opened Kube

  datatype ObjectRefTree = ObjectRefTree(ref: ObjectReference, owners: seq<ObjectRefTree>)

  /** The zero value ObjectRefTree{}. */
  const EmptyTree := ObjectRefTree(EmptyRef, [])

  /** ContainsUID: the root has `uid`, or some owner subtree contains it (the loop returns on the first hit). */
  predicate ContainsUID(t: ObjectRefTree, uid: UID)
    decreases t
  {
    t.ref.uid == uid || exists i :: 0 <= i < |t.owners| && ContainsUID(t.owners[i], uid)
  }

  // ---------------------------------------------------------------------
  // Reference view: the nodes of a tree in depth-first order, with depth.

  datatype Entry = Entry(depth: nat, ref: ObjectReference)

  /** The nodes of `t` in pre-order; the root sits at depth `d`. */
  function Preorder(t: ObjectRefTree, d: nat): seq<Entry>
    decreases t
  {
    [Entry(d, t.ref)] + PreorderAll(t.owners, d)
  }

  /** The pre-order listing of each tree of `ts` in turn, each root at depth `d + 1`. */
  function PreorderAll(ts: seq<ObjectRefTree>, d: nat): seq<Entry>
    decreases ts
  {
    if ts == [] then [] else PreorderAll(ts[..|ts| - 1], d) + Preorder(ts[|ts| - 1], d + 1)
  }

  predicate HasUID(es: seq<Entry>, uid: UID) {
    exists k :: 0 <= k < |es| && es[k].ref.uid == uid
  }

  lemma HasUIDAppend(a: seq<Entry>, b: seq<Entry>, uid: UID)
    ensures HasUID(a + b, uid) <==> HasUID(a, uid) || HasUID(b, uid)
  {
    if HasUID(a + b, uid) {
      var k :| 0 <= k < |a + b| && (a + b)[k].ref.uid == uid;
      if k >= |a| {
        assert b[k - |a|].ref.uid == uid;
      } else {
        assert a[k].ref.uid == uid;
      }
    }
    if HasUID(a, uid) {
      var k :| 0 <= k < |a| && a[k].ref.uid == uid;
      assert (a + b)[k] == a[k];
    }
    if HasUID(b, uid) {
      var k :| 0 <= k < |b| && b[k].ref.uid == uid;
      assert (a + b)[|a| + k] == b[k];
    }
  }

  /** ContainsUID is true exactly when some node of the tree carries the UID. */
  lemma {:induction false} ContainsUIDIffNode(t: ObjectRefTree, d: nat, uid: UID)
    ensures ContainsUID(t, uid) <==> HasUID(Preorder(t, d), uid)
    decreases t
  {
    HasUIDAppend([Entry(d, t.ref)], PreorderAll(t.owners, d), uid);
    assert [Entry(d, t.ref)][0].ref == t.ref;
    assert HasUID([Entry(d, t.ref)], uid) <==> t.ref.uid == uid;
    OwnersContainIffNode(t.owners, d, uid);
  }

  lemma {:induction false} OwnersContainIffNode(ts: seq<ObjectRefTree>, d: nat, uid: UID)
    ensures (exists i :: 0 <= i < |ts| && ContainsUID(ts[i], uid)) <==> HasUID(PreorderAll(ts, d), uid)
    decreases ts
  {
    if ts != [] {
      var init, last := ts[..|ts| - 1], ts[|ts| - 1];
      OwnersContainIffNode(init, d, uid);
      ContainsUIDIffNode(last, d + 1, uid);
      HasUIDAppend(PreorderAll(init, d), Preorder(last, d + 1), uid);
      if exists i :: 0 <= i < |ts| && ContainsUID(ts[i], uid) {
        var i :| 0 <= i < |ts| && ContainsUID(ts[i], uid);
        if i < |ts| - 1 {
          assert init[i] == ts[i];
        }
      }
      if exists i :: 0 <= i < |init| && ContainsUID(init[i], uid) {
        var i :| 0 <= i < |init| && ContainsUID(init[i], uid);
        assert ts[i] == init[i];
      }
    }
  }

  /** A tree without owners contains exactly its own UID. */
  lemma LeafContainsOnlyItself(ref: ObjectReference, uid: UID)
    ensures ContainsUID(ObjectRefTree(ref, []), uid) <==> uid == ref.uid
  {
  }

  // ---------------------------------------------------------------------
  // Rendering.

  /** The line of one node: "Kind:Name". */
  function Label(r: ObjectReference): string {
    r.kind + ":" + r.name
  }

  /** Two spaces per level of depth. */
  function Spaces(depth: nat): string {
    if depth == 0 then "" else Spaces(depth - 1) + "  "
  }

  function Indent(lines: seq<string>): (r: seq<string>)
    ensures |r| == |lines|
    ensures forall k :: 0 <= k < |lines| ==> r[k] == "  " + lines[k]
  {
    seq(|lines|, k requires 0 <= k < |lines| => "  " + lines[k])
  }

  /** What stringLines yields: the root's line, then every line of each owner's rendering, indented. */
  function Lines(t: ObjectRefTree): seq<string>
    decreases t
  {
    [Label(t.ref)] + Indent(OwnerLines(t.owners))
  }

  function OwnerLines(ts: seq<ObjectRefTree>): seq<string>
    decreases ts
  {
    if ts == [] then [] else OwnerLines(ts[..|ts| - 1]) + Lines(ts[|ts| - 1])
  }

  lemma IndentAppend(a: seq<string>, b: seq<string>)
    ensures Indent(a + b) == Indent(a) + Indent(b)
  {
  }

  lemma OwnerLinesStep(ts: seq<ObjectRefTree>, i: nat)
    requires i < |ts|
    ensures OwnerLines(ts[..i + 1]) == OwnerLines(ts[..i]) + Lines(ts[i])
  {
    assert ts[..i + 1][..i] == ts[..i];
    assert ts[..i + 1][i] == ts[i];
  }

  /** stringLines: implemented, like the source, by appending indented branch lines owner by owner. */
  method StringLines(t: ObjectRefTree) returns (result: seq<string>)
    ensures result == Lines(t)
    decreases t
  {
    result := [Label(t.ref)];
    for i := 0 to |t.owners|
      invariant result == [Label(t.ref)] + Indent(OwnerLines(t.owners[..i]))
    {
      ghost var prev := OwnerLines(t.owners[..i]);
      var branchLines := StringLines(t.owners[i]);
      result := AppendIndented(result, branchLines);
      OwnerLinesStep(t.owners, i);
      IndentAppend(prev, branchLines);
      assert result == [Label(t.ref)] + (Indent(prev) + Indent(branchLines));
    }
    assert t.owners[..|t.owners|] == t.owners;
  }

  /** The inner loop of stringLines: append each line with two spaces in front. */
  method AppendIndented(acc: seq<string>, lines: seq<string>) returns (result: seq<string>)
    ensures result == acc + Indent(lines)
  {
    result := acc;
    for j := 0 to |lines|
      invariant result == acc + Indent(lines[..j])
    {
      assert lines[..j + 1] == lines[..j] + [lines[j]];
      IndentAppend(lines[..j], [lines[j]]);
      result := result + ["  " + lines[j]];
    }
    assert lines[..|lines|] == lines;
  }

  /** The rendering has one line per node, in pre-order; each line is its node's label indented two spaces per level. */
  lemma {:induction false} LinesArePreorder(t: ObjectRefTree, d: nat)
    ensures |Lines(t)| == |Preorder(t, d)|
    ensures forall k :: 0 <= k < |Lines(t)| ==>
      Spaces(d) + Lines(t)[k] == Spaces(Preorder(t, d)[k].depth) + Label(Preorder(t, d)[k].ref)
    decreases t
  {
    var lines, es := OwnerLines(t.owners), PreorderAll(t.owners, d);
    OwnerLinesArePreorder(t.owners, d);
    forall k | 1 <= k < |Lines(t)|
      ensures Spaces(d) + Lines(t)[k] == Spaces(Preorder(t, d)[k].depth) + Label(Preorder(t, d)[k].ref)
    {
      assert Lines(t)[k] == "  " + lines[k - 1];
      assert Preorder(t, d)[k] == es[k - 1];
      assert Spaces(d) + ("  " + lines[k - 1]) == Spaces(d + 1) + lines[k - 1];
    }
  }

  lemma {:induction false} OwnerLinesArePreorder(ts: seq<ObjectRefTree>, d: nat)
    ensures |OwnerLines(ts)| == |PreorderAll(ts, d)|
    ensures forall k :: 0 <= k < |OwnerLines(ts)| ==>
      Spaces(d + 1) + OwnerLines(ts)[k] == Spaces(PreorderAll(ts, d)[k].depth) + Label(PreorderAll(ts, d)[k].ref)
    decreases ts
  {
    if ts != [] {
      var init, last := ts[..|ts| - 1], ts[|ts| - 1];
      OwnerLinesArePreorder(init, d);
      LinesArePreorder(last, d + 1);
      var a, b := OwnerLines(init), Lines(last);
      var ea, eb := PreorderAll(init, d), Preorder(last, d + 1);
      forall k | 0 <= k < |OwnerLines(ts)|
        ensures Spaces(d + 1) + OwnerLines(ts)[k] == Spaces(PreorderAll(ts, d)[k].depth) + Label(PreorderAll(ts, d)[k].ref)
      {
        if k < |a| {
          assert OwnerLines(ts)[k] == a[k] && PreorderAll(ts, d)[k] == ea[k];
        } else {
          assert OwnerLines(ts)[k] == b[k - |a|] && PreorderAll(ts, d)[k] == eb[k - |a|];
        }
      }
    }
  }

  /** The first line is the root's "Kind:Name". */
  lemma FirstLineIsRoot(t: ObjectRefTree)
    ensures |Lines(t)| >= 1 && Lines(t)[0] == Label(t.ref)
  {
  }

  lemma {:induction false} OwnerLinesAppend(a: seq<ObjectRefTree>, b: seq<ObjectRefTree>)
    ensures OwnerLines(a + b) == OwnerLines(a) + OwnerLines(b)
    decreases |b|
  {
    if b == [] {
      assert a + b == a;
    } else {
      var b' := b[..|b| - 1];
      assert (a + b)[..|a + b| - 1] == a + b';
      assert (a + b)[|a + b| - 1] == b[|b| - 1];
      OwnerLinesAppend(a, b');
    }
  }

  /** The lines of owner `i` appear, each prefixed with two spaces, right after the lines of the owners before it. */
  lemma OwnerBlock(t: ObjectRefTree, i: nat, j: nat)
    requires i < |t.owners| && j < |Lines(t.owners[i])|
    ensures 1 + |OwnerLines(t.owners[..i])| + j < |Lines(t)|
    ensures Lines(t)[1 + |OwnerLines(t.owners[..i])| + j] == "  " + Lines(t.owners[i])[j]
  {
    var os := t.owners;
    var before := OwnerLines(os[..i]);
    OwnerLinesStep(os, i);
    OwnerLinesAppend(os[..i + 1], os[i + 1..]);
    assert os[..i + 1] + os[i + 1..] == os;
    var all := OwnerLines(os);
    assert all == before + Lines(os[i]) + OwnerLines(os[i + 1..]);
    var k := |before| + j;
    assert all[k] == Lines(os[i])[j];
    assert Lines(t)[1 + k] == Indent(all)[k];
  }

  // ---------------------------------------------------------------------
  // String: the lines joined with "\n", and the split that undoes it.

  /** strings.Join. */
  function Join(lines: seq<string>, sep: string): string {
    if |lines| == 0 then ""
    else if |lines| == 1 then lines[0]
    else lines[0] + sep + Join(lines[1..], sep)
  }

  /** Splitting a text at every newline (the inverse of joining with "\n"). */
  function SplitLines(s: string): (r: seq<string>)
    ensures |r| > 0
    decreases |s|
  {
    if |s| == 0 then [""]
    else
      var rest := SplitLines(s[1..]);
      if s[0] == '\n' then [""] + rest else [[s[0]] + rest[0]] + rest[1..]
  }

  /** String(): the rendering joined with newlines. */
  method String(t: ObjectRefTree) returns (s: string)
    ensures s == Join(Lines(t), "\n")
  {
    var lines := StringLines(t);
    s := Join(lines, "\n");
  }

  lemma {:induction false} SplitAfter(a: string, b: string)
    requires '\n' !in a
    ensures SplitLines(a + "\n" + b) == [a] + SplitLines(b)
    decreases |a|
  {
    if |a| == 0 {
      assert a + "\n" + b == "\n" + b;
      assert ("\n" + b)[1..] == b;
    } else {
      assert (a + "\n" + b)[1..] == a[1..] + "\n" + b;
      SplitAfter(a[1..], b);
      assert [a[0]] + a[1..] == a;
    }
  }

  lemma {:induction false} SplitSingle(a: string)
    requires '\n' !in a
    ensures SplitLines(a) == [a]
    decreases |a|
  {
    if |a| > 0 {
      SplitSingle(a[1..]);
      assert [a[0]] + a[1..] == a;
    }
  }

  /** Splitting the joined lines gives the lines back, as long as no line holds a newline. */
  lemma {:induction false} SplitJoin(lines: seq<string>)
    requires |lines| > 0
    requires forall k :: 0 <= k < |lines| ==> '\n' !in lines[k]
    ensures SplitLines(Join(lines, "\n")) == lines
    decreases |lines|
  {
    if |lines| == 1 {
      SplitSingle(lines[0]);
    } else {
      SplitJoin(lines[1..]);
      SplitAfter(lines[0], Join(lines[1..], "\n"));
      assert [lines[0]] + lines[1..] == lines;
    }
  }

  lemma {:induction false} SpacesHaveNoNewline(depth: nat)
    ensures '\n' !in Spaces(depth)
  {
    if depth > 0 {
      SpacesHaveNoNewline(depth - 1);
    }
  }

  /** When no kind or name holds a newline, String() splits back into exactly the rendered lines, one per node. */
  lemma StringSplitsIntoNodeLines(t: ObjectRefTree)
    requires forall k :: 0 <= k < |Preorder(t, 0)| ==> '\n' !in Label(Preorder(t, 0)[k].ref)
    ensures |SplitLines(Join(Lines(t), "\n"))| == |Preorder(t, 0)|
    ensures SplitLines(Join(Lines(t), "\n")) == Lines(t)
  {
    LinesArePreorder(t, 0);
    var es := Preorder(t, 0);
    forall k | 0 <= k < |Lines(t)|
      ensures '\n' !in Lines(t)[k]
    {
      assert Spaces(0) + Lines(t)[k] == Lines(t)[k];
      SpacesHaveNoNewline(es[k].depth);
      assert Lines(t)[k] == Spaces(es[k].depth) + Label(es[k].ref);
    }
    SplitJoin(Lines(t));
  }
}
