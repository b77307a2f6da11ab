/**
 * One decision tree of the forest, stored as parallel arrays indexed by node id
 * (node 0 is the root), and its traversal from the root to a leaf.
 *
 * A node is a leaf exactly when its left child is the sentinel -1. At an internal
 * node the traversal compares one feature against the node's threshold, with a
 * fixed tolerance, and moves to the left or the right child.
 */
module DecisionTree {

  /** The `(no, yes)` class weights stored at a node. */
  datatype Vote = Vote(no: real, yes: real)

  /** The child id that marks a leaf. */
  const Leaf: int := -1

  /** The comparison tolerance, written 1e-5 in the source. */
  const Epsilon: real := 0.00001

  /** The serialised tree: every sequence has one entry per node. */
  datatype Tree = Tree(
    feature: seq<int>,
    threshold: seq<real>,
    childrenLeft: seq<int>,
    childrenRight: seq<int>,
    value: seq<Vote>,
    nNodeSamples: seq<int>)

  function Size(t: Tree): nat {
    |t.childrenLeft|
  }

  /**
   * The shape prediction relies on: a root exists, the arrays that prediction reads
   * have one entry per node, and every internal node has two in-range children whose
   * ids are greater than its own (which rules out cycles).
   */
  predicate WellFormed(t: Tree) {
    var n := Size(t);
    && n > 0
    && |t.feature| == n
    && |t.threshold| == n
    && |t.childrenRight| == n
    && |t.value| == n
    && forall i :: 0 <= i < n && t.childrenLeft[i] != Leaf ==>
         i < t.childrenLeft[i] < n && i < t.childrenRight[i] < n
  }

  /** A well-formed tree whose internal nodes only inspect features below `width`. */
  predicate Routable(t: Tree, width: nat) {
    && WellFormed(t)
    && forall i :: 0 <= i < Size(t) && t.childrenLeft[i] != Leaf ==> 0 <= t.feature[i] < width
  }

  predicate IsLeaf(t: Tree, node: nat)
    requires node < Size(t)
  {
    t.childrenLeft[node] == Leaf
  }

  function Abs(x: real): real {
    if x < 0.0 then -x else x
  }

  /**
   * The branch rule: go left when the sample is at most the threshold or within
   * the tolerance of it. Equivalently, left exactly below threshold + Epsilon.
   */
  predicate GoesLeft(sample: real, threshold: real): (left: bool)
    ensures left <==> sample < threshold + Epsilon
  {
    sample <= threshold || Abs(sample - threshold) < Epsilon
  }

  /** The node the traversal moves to from the internal node `node`. */
  function Next(t: Tree, x: seq<real>, node: nat): (child: nat)
    requires Routable(t, |x|) && node < Size(t) && !IsLeaf(t, node)
    ensures node < child < Size(t)
    ensures child == t.childrenLeft[node] || child == t.childrenRight[node]
  {
    if GoesLeft(x[t.feature[node]], t.threshold[node]) then t.childrenLeft[node]
    else t.childrenRight[node]
  }

  /** The leaf reached when the traversal starts at `node`. */
  function LeafOf(t: Tree, x: seq<real>, node: nat): (leaf: nat)
    requires Routable(t, |x|) && node < Size(t)
    ensures node <= leaf < Size(t) && IsLeaf(t, leaf)
    decreases Size(t) - node
  {
    if IsLeaf(t, node) then node else LeafOf(t, x, Next(t, x, node))
  }

  /** The vote of the tree for `x`: the value stored at the leaf reached from the root. */
  function Route(t: Tree, x: seq<real>): Vote
    requires Routable(t, |x|)
  {
    t.value[LeafOf(t, x, 0)]
  }

  /**
   * `Tree::predict`: walk from the root until a leaf, then return its value.
   * The feature arrays are read only while the current node is internal.
   */
  method Predict(t: Tree, features: seq<real>) returns (vote: Vote)
    requires Routable(t, |features|)
    ensures vote == Route(t, features)
  {
    var node: nat := 0;
    while t.childrenLeft[node] != Leaf
      invariant node < Size(t)
      invariant LeafOf(t, features, node) == LeafOf(t, features, 0)
      decreases Size(t) - node
    {
      var feature := t.feature[node];
      var sample := features[feature];
      var threshold := t.threshold[node];
      if sample <= threshold || Abs(sample - threshold) < Epsilon {
        node := t.childrenLeft[node];
      } else {
        node := t.childrenRight[node];
      }
    }
    vote := t.value[node];
  }

  // ---------------------------------------------------------------------------
  // Paths: an independent description of a traversal

  /**
   * `p` is a traversal starting at `start`: every step leaves an internal node by
   * the branch rule, and the last node is a leaf.
   */
  predicate IsPathFrom(t: Tree, x: seq<real>, start: nat, p: seq<nat>)
    requires Routable(t, |x|)
  {
    && |p| > 0
    && p[0] == start
    && (forall k :: 0 <= k < |p| ==> p[k] < Size(t))
    && (forall k :: 0 <= k < |p| - 1 ==> !IsLeaf(t, p[k]) && p[k + 1] == Next(t, x, p[k]))
    && IsLeaf(t, p[|p| - 1])
  }

  /** The traversal from `start`, node by node. */
  function PathFrom(t: Tree, x: seq<real>, start: nat): (p: seq<nat>)
    requires Routable(t, |x|) && start < Size(t)
    ensures IsPathFrom(t, x, start, p)
    decreases Size(t) - start
  {
    if IsLeaf(t, start) then [start] else [start] + PathFrom(t, x, Next(t, x, start))
  }

  /** Every traversal from `start` ends at the leaf `LeafOf` names. */
  lemma {:induction false} PathEndsAtLeafOf(t: Tree, x: seq<real>, start: nat, p: seq<nat>)
    requires Routable(t, |x|) && start < Size(t)
    requires IsPathFrom(t, x, start, p)
    ensures p[|p| - 1] == LeafOf(t, x, start)
    decreases |p|
  {
    if |p| > 1 {
      var q := p[1..];
      assert IsPathFrom(t, x, p[1], q) by {
        forall k | 0 <= k < |q| - 1
          ensures !IsLeaf(t, q[k]) && q[k + 1] == Next(t, x, q[k])
        {
          assert q[k] == p[k + 1] && q[k + 1] == p[k + 2];
        }
      }
      PathEndsAtLeafOf(t, x, p[1], q);
    }
  }

  /**
   * On a well-formed tree the traversal from the root ends, and it ends at exactly
   * one leaf: there is a path to a leaf, and any two paths end at the same leaf,
   * whose value is the tree's vote.
   */
  lemma ExactlyOneLeaf(t: Tree, x: seq<real>, p: seq<nat>, q: seq<nat>)
    requires Routable(t, |x|)
    requires IsPathFrom(t, x, 0, p) && IsPathFrom(t, x, 0, q)
    ensures p[|p| - 1] == q[|q| - 1]
    ensures IsLeaf(t, p[|p| - 1]) && Route(t, x) == t.value[p[|p| - 1]]
  {
    PathEndsAtLeafOf(t, x, 0, p);
    PathEndsAtLeafOf(t, x, 0, q);
  }

  /**
   * The feature index and threshold of a leaf (the sentinel -2 in the fixtures) are
   * never read: trees that differ only there route every input alike.
   */
  lemma {:induction false} LeafFieldsUnread(t: Tree, u: Tree, x: seq<real>, node: nat)
    requires Routable(t, |x|) && Routable(u, |x|) && node < Size(t)
    requires t.childrenLeft == u.childrenLeft && t.childrenRight == u.childrenRight
    requires forall i :: 0 <= i < Size(t) && t.childrenLeft[i] != Leaf ==>
               t.feature[i] == u.feature[i] && t.threshold[i] == u.threshold[i]
    ensures LeafOf(t, x, node) == LeafOf(u, x, node)
    decreases Size(t) - node
  {
    if !IsLeaf(t, node) {
      assert Next(t, x, node) == Next(u, x, node);
      LeafFieldsUnread(t, u, x, Next(t, x, node));
    }
  }

  // ---------------------------------------------------------------------------
  // The `value` field in the model file: each pair is written as [[no, yes]]

  /** The nested form `to_json` writes: one `[[no, yes]]` per node, in node order. */
  function Encoded(value: seq<Vote>): (json: seq<seq<seq<real>>>)
    ensures |json| == |value|
    ensures forall i :: 0 <= i < |value| ==> json[i] == [[value[i].no, value[i].yes]]
  {
    if value == [] then []
    else Encoded(value[..|value| - 1]) + [[[value[|value| - 1].no, value[|value| - 1].yes]]]
  }

  /** Every node entry holds at least one row of at least two numbers. */
  predicate WellShaped(json: seq<seq<seq<real>>>) {
    forall i :: 0 <= i < |json| ==> |json[i]| >= 1 && |json[i][0]| >= 2
  }

  /** The pairs `from_json` reads: `[0][0]` and `[0][1]` of every node entry, in order. */
  function Decoded(json: seq<seq<seq<real>>>): (value: seq<Vote>)
    requires WellShaped(json)
    ensures |value| == |json|
    ensures forall i :: 0 <= i < |json| ==> value[i] == Vote(json[i][0][0], json[i][0][1])
  {
    if json == [] then []
    else
      var last := json[|json| - 1];
      Decoded(json[..|json| - 1]) + [Vote(last[0][0], last[0][1])]
  }

  /** `to_json`'s loop over the pairs. */
  method EncodeValue(value: seq<Vote>) returns (json: seq<seq<seq<real>>>)
    ensures json == Encoded(value)
  {
    json := [];
    for i := 0 to |value|
      invariant json == Encoded(value[..i])
    {
      assert value[..i + 1][..i] == value[..i];
      json := json + [[[value[i].no, value[i].yes]]];
    }
    assert value[..|value|] == value;
  }

  /** `from_json`'s loop over the node entries, appending to an initially empty list. */
  method DecodeValue(json: seq<seq<seq<real>>>) returns (value: seq<Vote>)
    requires WellShaped(json)
    ensures value == Decoded(json)
  {
    value := [];
    for i := 0 to |json|
      invariant WellShaped(json[..i])
      invariant value == Decoded(json[..i])
    {
      assert json[..i + 1][..i] == json[..i];
      value := value + [Vote(json[i][0][0], json[i][0][1])];
    }
    assert json[..|json|] == json;
  }

  /** Decoding what was encoded gives back the pairs, with node count and order kept. */
  lemma EncodeDecodeRoundTrip(value: seq<Vote>)
    ensures WellShaped(Encoded(value))
    ensures Decoded(Encoded(value)) == value
  {
  }

  /** A file whose entries are exactly `[[a, b]]` is reproduced by decoding then encoding. */
  lemma DecodeEncodeRoundTrip(json: seq<seq<seq<real>>>)
    requires forall i :: 0 <= i < |json| ==> |json[i]| == 1 && |json[i][0]| == 2
    ensures WellShaped(json)
    ensures Encoded(Decoded(json)) == json
  {
    var back := Encoded(Decoded(json));
    forall i | 0 <= i < |json| ensures back[i] == json[i] {
      assert json[i][0] == [json[i][0][0], json[i][0][1]];
    }
  }

  // ---------------------------------------------------------------------------
  // Fixture trees of the test suite

  /** Root splits on feature 0 at 5.0; leaves (10, 5) on the left, (2, 15) on the right. */
  function SimpleTree(): Tree {
    Tree([0, -2, -2], [5.0, 0.0, 0.0], [1, -1, -1], [2, -1, -1],
         [Vote(0.0, 0.0), Vote(10.0, 5.0), Vote(2.0, 15.0)], [100, 60, 40])
  }

  /**
   * Root splits on feature 2 at 10.0; its left child splits on feature 0 at 50.0
   * into leaves (25, 5) and (15, 20); its right child is the leaf (5, 30).
   */
  function MultilevelTree(): Tree {
    Tree([2, 0, -2, -2, -2], [10.0, 50.0, 0.0, 0.0, 0.0], [1, 3, -1, -1, -1], [2, 4, -1, -1, -1],
         [Vote(0.0, 0.0), Vote(0.0, 0.0), Vote(5.0, 30.0), Vote(25.0, 5.0), Vote(15.0, 20.0)],
         [100, 60, 40, 30, 30])
  }

  /** Thirteen features: the first three given, the rest 0. */
  function Features3(a: real, b: real, c: real): (x: seq<real>)
    ensures |x| == 13 && x[0] == a && x[1] == b && x[2] == c
  {
    [a, b, c] + seq(10, _ => 0.0)
  }

  /** A value at the threshold or 5e-6 above it goes left; 2e-5 above goes right. */
  lemma ToleranceFixture()
    ensures Route(SimpleTree(), Features3(5.0, 0.0, 0.0)) == Vote(10.0, 5.0)
    ensures Route(SimpleTree(), Features3(5.0 + 0.000005, 0.0, 0.0)) == Vote(10.0, 5.0)
    ensures Route(SimpleTree(), Features3(5.0 + 0.00002, 0.0, 0.0)) == Vote(2.0, 15.0)
  {
  }

  /** The three paths through the multilevel fixture. */
  lemma MultilevelFixture()
    ensures Route(MultilevelTree(), Features3(100.0, 200.0, 15.0)) == Vote(5.0, 30.0)
    ensures Route(MultilevelTree(), Features3(100.0, 200.0, 5.0)) == Vote(15.0, 20.0)
    ensures Route(MultilevelTree(), Features3(30.0, 200.0, 5.0)) == Vote(25.0, 5.0)
  {
  }
}
