/**
 * Scene-graph values: the object trees the IFC parser produces, the objects a
 * Three.js scene holds, the subtree count behind the `nodeCount` metadata and
 * Three.js's `Object3D.remove` on the scene's child list.
 */
module SceneGraph {
  import opened Framing

  datatype Option<T> = None | Some(value: T)

  /**
   * A node of a parsed model. `id` stands for the object's identity: Three.js
   * compares scene objects by reference, so every node the parser creates is
   * a distinct object.
   */
  datatype Node = Node(id: nat, children: seq<Node>)

  /** A direct child of the scene: one of the fixed pieces of furniture, or a loaded model. */
  datatype SceneObject =
    | AmbientLight(color: nat, intensity: real)
    | DirectionalLight(color: nat, intensity: real, position: Vec3)
    | GridHelper(size: nat, divisions: nat, centerLineColor: nat, gridColor: nat)
    | Model(root: Node)

  // ---------------------------------------------------------------------------
  // Subtree size

  /** Number of nodes in the subtree rooted at `n`, the root included. */
  function NodeCount(n: Node): nat
  {
    1 + SumCounts(n.children)
  }

  /** Total size of the subtrees in `cs`, accumulated from the left as a for-of loop does. */
  function SumCounts(cs: seq<Node>): nat
  {
    if cs == [] then 0 else SumCounts(cs[..|cs| - 1]) + NodeCount(cs[|cs| - 1])
  }

  /** Parent-before-children listing of every node of the subtree rooted at `n`. */
  function Preorder(n: Node): seq<Node>
  {
    [n] + PreorderAll(n.children)
  }

  function PreorderAll(cs: seq<Node>): seq<Node>
  {
    if cs == [] then [] else Preorder(cs[0]) + PreorderAll(cs[1..])
  }

  lemma {:induction false} SumCountsAppend(a: seq<Node>, b: seq<Node>)
    ensures SumCounts(a + b) == SumCounts(a) + SumCounts(b)
    decreases |b|
  {
    if b == [] {
      assert a + b == a;
    } else {
      var ab := a + b;
      assert ab[..|ab| - 1] == a + b[..|b| - 1];
      assert ab[|ab| - 1] == b[|b| - 1];
      SumCountsAppend(a, b[..|b| - 1]);
    }
  }

  lemma SumCountsSingle(n: Node)
    ensures SumCounts([n]) == NodeCount(n)
  {
    assert [n][..0] == [];
  }

  /** Counting the children from the front gives the same total as counting them from the back. */
  lemma SumCountsFront(cs: seq<Node>)
    requires cs != []
    ensures SumCounts(cs) == NodeCount(cs[0]) + SumCounts(cs[1..])
  {
    assert cs == [cs[0]] + cs[1..];
    SumCountsAppend([cs[0]], cs[1..]);
    SumCountsSingle(cs[0]);
  }

  /**
   * The count is the number of nodes a depth-first traversal visits: it equals
   * the length of the preorder listing of the subtree.
   */
  lemma {:induction false} NodeCountIsPreorderLength(n: Node)
    ensures NodeCount(n) == |Preorder(n)|
    decreases n, 1
  {
    SumCountsIsPreorderAllLength(n.children);
  }

  lemma {:induction false} SumCountsIsPreorderAllLength(cs: seq<Node>)
    ensures SumCounts(cs) == |PreorderAll(cs)|
    decreases cs, 0
  {
    if cs != [] {
      SumCountsFront(cs);
      NodeCountIsPreorderLength(cs[0]);
      SumCountsIsPreorderAllLength(cs[1..]);
    }
  }

  /** Every child contributes at least one node. */
  lemma {:induction false} SumCountsAtLeastLength(cs: seq<Node>)
    ensures SumCounts(cs) >= |cs|
  {
    if cs != [] {
      SumCountsAtLeastLength(cs[..|cs| - 1]);
    }
  }

  /** A node counts itself and at least each of its direct children. */
  lemma NodeCountLowerBound(n: Node)
    ensures NodeCount(n) >= 1
    ensures NodeCount(n) >= |n.children| + 1
  {
    SumCountsAtLeastLength(n.children);
  }

  /** Leaves count one each. */
  lemma {:induction false} SumCountsOfLeaves(cs: seq<Node>)
    requires forall i :: 0 <= i < |cs| ==> cs[i].children == []
    ensures SumCounts(cs) == |cs|
  {
    if cs != [] {
      var last := cs[|cs| - 1];
      assert last.children == [];
      assert NodeCount(last) == 1;
      SumCountsOfLeaves(cs[..|cs| - 1]);
    }
  }

  /** A leaf counts 1; a root whose k children are all leaves counts k + 1. */
  lemma NodeCountFlat(n: Node)
    requires forall i :: 0 <= i < |n.children| ==> n.children[i].children == []
    ensures NodeCount(n) == |n.children| + 1
  {
    SumCountsOfLeaves(n.children);
  }

  /** The order of siblings does not matter for counting. */
  lemma {:induction false} SumCountsPermutation(a: seq<Node>, b: seq<Node>)
    requires multiset(a) == multiset(b)
    ensures SumCounts(a) == SumCounts(b)
    decreases |a|
  {
    if a != [] {
      var x := a[0];
      assert x in multiset(b);
      var i :| 0 <= i < |b| && b[i] == x;
      var rest := b[..i] + b[i + 1..];
      assert b == b[..i] + [x] + b[i + 1..];
      assert a == [x] + a[1..];
      assert multiset(a) == multiset{x} + multiset(a[1..]);
      assert multiset(b) == multiset(b[..i]) + multiset{x} + multiset(b[i + 1..]);
      assert multiset(rest) == multiset(b[..i]) + multiset(b[i + 1..]);
      assert multiset(a[1..]) == multiset(a) - multiset{x};
      assert multiset(rest) == multiset(b) - multiset{x};
      SumCountsPermutation(a[1..], rest);
      SumCountsFront(a);
      SumCountsAppend(b[..i] + [x], b[i + 1..]);
      SumCountsAppend(b[..i], [x]);
      SumCountsAppend(b[..i], b[i + 1..]);
      SumCountsSingle(x);
    } else {
      assert b == [];
    }
  }

  // ---------------------------------------------------------------------------
  // The scene's child list

  /** Object3D.remove: drops the first occurrence of `x`; a list without `x` is left as it is. */
  function Detach<T(==)>(s: seq<T>, x: T): (r: seq<T>)
    ensures x !in s ==> r == s
    ensures x in s ==> |r| == |s| - 1
  {
    if s == [] then []
    else if s[0] == x then s[1..]
    else [s[0]] + Detach(s[1..], x)
  }

  /** Exactly one copy of `x` goes, and nothing else does. */
  lemma {:induction false} DetachMultiset<T>(s: seq<T>, x: T)
    ensures multiset(Detach(s, x)) == multiset(s) - multiset{x}
  {
    if s != [] {
      assert s == [s[0]] + s[1..];
      if s[0] != x {
        DetachMultiset(s[1..], x);
      }
    }
  }

  /** Removing past a prefix that does not hold `x` leaves the prefix in place. */
  lemma {:induction false} DetachAfterPrefix<T>(p: seq<T>, t: seq<T>, x: T)
    requires x !in p
    ensures Detach(p + t, x) == p + Detach(t, x)
    decreases |p|
  {
    if p != [] {
      var pt := p + t;
      assert pt[0] == p[0] && p[0] != x;
      assert pt[1..] == p[1..] + t;
      assert Detach(pt, x) == [p[0]] + Detach(p[1..] + t, x);
      DetachAfterPrefix(p[1..], t, x);
      assert [p[0]] + (p[1..] + Detach(t, x)) == p + Detach(t, x);
    } else {
      assert p + t == t;
    }
  }

  /** Removing an object right after adding it (Object3D.add appends) restores the list. */
  lemma {:induction false} DetachUndoesAttach<T>(s: seq<T>, x: T)
    requires x !in s
    ensures Detach(s + [x], x) == s
  {
    DetachAfterPrefix(s, [x], x);
  }

  /** Everything left after a removal was there before. */
  lemma DetachSubset<T>(s: seq<T>, x: T, y: T)
    requires y in Detach(s, x)
    ensures y in s
  {
    DetachMultiset(s, x);
    assert y in multiset(Detach(s, x));
  }
}
