/**
 * The forest: an ordered list of trees and the two-entry `classes` mapping from the
 * winning internal index (0 or 1) to the label returned. Prediction sums the trees'
 * votes element-wise and lets class 1 win unless it has strictly fewer votes.
 */
module RandomForest {
  import opened DecisionTree

  /** `n_estimators`, `n_classes` and `n_features` are carried but not read by `Predict`. */
  datatype Forest = Forest(
    nEstimators: int,
    nClasses: int,
    nFeatures: int,
    classes: seq<int>,
    trees: seq<Tree>)

  /** Every tree can route an input of `width` features. */
  predicate AllRoutable(trees: seq<Tree>, width: nat) {
    forall t :: t in trees ==> Routable(t, width)
  }

  /** What `Predict` needs: both labels exist and every tree can route `x`. */
  predicate CanPredict(f: Forest, x: seq<real>) {
    |f.classes| >= 2 && AllRoutable(f.trees, |x|)
  }

  function Add(a: Vote, b: Vote): Vote {
    Vote(a.no + b.no, a.yes + b.yes)
  }

  /** The vote each tree returns for `x`, in tree order. */
  function Votes(trees: seq<Tree>, x: seq<real>): (votes: seq<Vote>)
    requires AllRoutable(trees, |x|)
    ensures |votes| == |trees|
  {
    seq(|trees|, i requires 0 <= i < |trees| => Route(trees[i], x))
  }

  /** The element-wise sum of a list of votes, accumulated from the first one on. */
  function Sum(votes: seq<Vote>): Vote {
    if votes == [] then Vote(0.0, 0.0)
    else Add(Sum(votes[..|votes| - 1]), votes[|votes| - 1])
  }

  /** The forest's vote total for `x`. */
  function Total(trees: seq<Tree>, x: seq<real>): Vote
    requires AllRoutable(trees, |x|)
  {
    Sum(Votes(trees, x))
  }

  /** The weight a total gives to internal class `w`. */
  function Weight(total: Vote, w: nat): real
    requires w < 2
  {
    if w == 0 then total.no else total.yes
  }

  /**
   * The internal winner: a class with at least the other's weight, class 1 on a tie.
   * These two properties determine the winner.
   */
  function Winner(total: Vote): (w: nat)
    ensures w < 2
    ensures Weight(total, w) >= Weight(total, 1 - w)
    ensures Weight(total, 0) == Weight(total, 1) ==> w == 1
  {
    if total.yes >= total.no then 1 else 0
  }

  /** The label the forest gives `x`: the winner looked up through `classes`. */
  function Label(f: Forest, x: seq<real>): int
    requires CanPredict(f, x)
  {
    f.classes[Winner(Total(f.trees, x))]
  }

  /**
   * `Forest::predict`: accumulate the trees' votes from (0, 0), then pick the label.
   * There is no check of the input's length; the trees only need to route it.
   */
  method Predict(f: Forest, features: seq<real>) returns (prediction: int)
    requires CanPredict(f, features)
    ensures prediction == Label(f, features)
  {
    var classVotes := Vote(0.0, 0.0);
    for k := 0 to |f.trees|
      invariant AllRoutable(f.trees[..k], |features|)
      invariant classVotes == Total(f.trees[..k], features)
    {
      assert f.trees[k] in f.trees;
      var vote := DecisionTree.Predict(f.trees[k], features);
      classVotes := Vote(classVotes.no + vote.no, classVotes.yes + vote.yes);
      assert forall t :: t in f.trees[..k + 1] ==> t in f.trees;
      assert Votes(f.trees[..k + 1], features)[..k] == Votes(f.trees[..k], features);
    }
    assert f.trees[..|f.trees|] == f.trees;
    var noVotes := classVotes.no;
    var yesVotes := classVotes.yes;
    if yesVotes >= noVotes {
      prediction := f.classes[1];
    } else {
      prediction := f.classes[0];
    }
  }

  // ---------------------------------------------------------------------------
  // Properties of the decision

  /** The label is one of the two configured labels, chosen by the vote comparison. */
  lemma LabelIsMapped(f: Forest, x: seq<real>)
    requires CanPredict(f, x)
    ensures Label(f, x) == f.classes[0] || Label(f, x) == f.classes[1]
    ensures Total(f.trees, x).yes >= Total(f.trees, x).no ==> Label(f, x) == f.classes[1]
    ensures Total(f.trees, x).yes < Total(f.trees, x).no ==> Label(f, x) == f.classes[0]
  {
  }

  /** Changing only `classes` keeps the winner and returns the new mapping's label for it. */
  lemma RelabelKeepsDecision(f: Forest, x: seq<real>, classes: seq<int>)
    requires CanPredict(f, x) && |classes| >= 2
    ensures CanPredict(f.(classes := classes), x)
    ensures exists w :: 0 <= w < 2 && Label(f, x) == f.classes[w] && Label(f.(classes := classes), x) == classes[w]
  {
    var w := Winner(Total(f.trees, x));
    assert Label(f, x) == f.classes[w] && Label(f.(classes := classes), x) == classes[w];
  }

  /** A forest without trees totals (0, 0), a tie, so it returns `classes[1]`. */
  lemma EmptyForestPicksClassOne(f: Forest, x: seq<real>)
    requires |f.classes| >= 2 && f.trees == []
    ensures CanPredict(f, x) && Label(f, x) == f.classes[1]
  {
  }

  // ---------------------------------------------------------------------------
  // Order of the trees does not matter

  lemma {:induction false} SumAppend(a: seq<Vote>, b: seq<Vote>)
    ensures Sum(a + b) == Add(Sum(a), Sum(b))
    decreases |b|
  {
    if b == [] {
      assert a + b == a;
    } else {
      assert (a + b)[..|a + b| - 1] == a + b[..|b| - 1];
      SumAppend(a, b[..|b| - 1]);
    }
  }

  /** Removing vote `j` from a list takes exactly that vote off its sum. */
  lemma SumRemove(votes: seq<Vote>, j: nat)
    requires j < |votes|
    ensures Sum(votes) == Add(Sum(votes[..j] + votes[j + 1..]), votes[j])
  {
    var p, v, q := votes[..j], votes[j], votes[j + 1..];
    assert votes == p + ([v] + q);
    assert [v][..0] == [];
    SumAppend([v], q);
    SumAppend(p, [v] + q);
    SumAppend(p, q);
  }

  /** Taking the last element off `a` and a matching element off `b` keeps them permutations. */
  lemma MultisetRemoveMatching<T>(a: seq<T>, b: seq<T>, j: nat)
    requires multiset(a) == multiset(b) && a != [] && j < |b| && b[j] == a[|a| - 1]
    ensures multiset(a[..|a| - 1]) == multiset(b[..j] + b[j + 1..])
  {
    var a', last := a[..|a| - 1], a[|a| - 1];
    assert a == a' + [last];
    assert b == b[..j] + [b[j]] + b[j + 1..];
    assert multiset(a') == multiset(a) - multiset{last};
    assert multiset(b[..j] + b[j + 1..]) == multiset(b) - multiset{last};
  }

  /** Over exact reals the total depends only on the multiset of trees. */
  lemma {:induction false} TotalPermutation(a: seq<Tree>, b: seq<Tree>, x: seq<real>)
    requires multiset(a) == multiset(b)
    requires AllRoutable(a, |x|)
    ensures AllRoutable(b, |x|)
    ensures Total(a, x) == Total(b, x)
    decreases |a|
  {
    assert forall t :: t in b ==> t in multiset(b);
    if a == [] {
      assert b == [];
    } else {
      var a' := a[..|a| - 1];
      assert a[|a| - 1] in multiset(b);
      var j :| 0 <= j < |b| && b[j] == a[|a| - 1];
      var b' := b[..j] + b[j + 1..];
      MultisetRemoveMatching(a, b, j);
      assert forall t :: t in a' ==> t in a;
      TotalPermutation(a', b', x);
      var va, vb := Votes(a, x), Votes(b, x);
      assert va[..|a| - 1] == Votes(a', x);
      assert vb[..j] + vb[j + 1..] == Votes(b', x);
      SumRemove(vb, j);
    }
  }

  /** Reordering the trees changes neither the total nor the label. */
  lemma ReorderKeepsLabel(f: Forest, trees: seq<Tree>, x: seq<real>)
    requires CanPredict(f, x) && multiset(trees) == multiset(f.trees)
    ensures CanPredict(f.(trees := trees), x)
    ensures Total(trees, x) == Total(f.trees, x)
    ensures Label(f.(trees := trees), x) == Label(f, x)
  {
    TotalPermutation(f.trees, trees, x);
  }

  // ---------------------------------------------------------------------------
  // Fixture forests of the test suite

  /** A single split on `feature` at `threshold` with the given leaf votes. */
  function Stump(feature: int, threshold: real, left: Vote, right: Vote): Tree {
    Tree([feature, -2, -2], [threshold, 0.0, 0.0], [1, -1, -1], [2, -1, -1],
         [Vote(0.0, 0.0), left, right], [100, 50, 50])
  }

  lemma StumpRoute(feature: nat, threshold: real, left: Vote, right: Vote, x: seq<real>)
    requires feature < |x|
    ensures Routable(Stump(feature, threshold, left, right), |x|)
    ensures GoesLeft(x[feature], threshold) ==> Route(Stump(feature, threshold, left, right), x) == left
    ensures !GoesLeft(x[feature], threshold) ==> Route(Stump(feature, threshold, left, right), x) == right
  {
    var t := Stump(feature, threshold, left, right);
    assert Routable(t, |x|);
    assert LeafOf(t, x, 0) == LeafOf(t, x, Next(t, x, 0));
  }

  /** The tie test's forest: two stumps, on features 0 and 1, voting (100, 100) on both sides. */
  function TieForest(): Forest {
    Forest(2, 2, 13, [0, 1], [Stump(0, 5.0, Vote(100.0, 100.0), Vote(100.0, 100.0)),
                              Stump(1, 10.0, Vote(100.0, 100.0), Vote(100.0, 100.0))])
  }

  /** Two trees voting (100, 100) each tie at (200, 200), and the tie returns 1. */
  lemma TieFixture(x: seq<real>)
    requires |x| == 13
    ensures CanPredict(TieForest(), x)
    ensures Label(TieForest(), x) == 1
  {
    var t1 := Stump(0, 5.0, Vote(100.0, 100.0), Vote(100.0, 100.0));
    var t2 := Stump(1, 10.0, Vote(100.0, 100.0), Vote(100.0, 100.0));
    StumpRoute(0, 5.0, Vote(100.0, 100.0), Vote(100.0, 100.0), x);
    StumpRoute(1, 10.0, Vote(100.0, 100.0), Vote(100.0, 100.0), x);
    var v := Vote(100.0, 100.0);
    assert Votes([t1, t2], x) == [v, v];
    assert [v, v][..1] == [v] && [v][..0] == [];
    assert Sum([v]) == v;
    assert Sum([v, v]) == Add(Sum([v]), v);
  }

  /** The integration test's forest: three stumps on feature 0 at 5.0, voting (100, 0) on the left. */
  function MajorityForest(): Forest {
    Forest(3, 2, 13, [0, 1], seq(3, _ => Stump(0, 5.0, Vote(100.0, 0.0), Vote(0.0, 100.0))))
  }

  /** Three trees voting (100, 0) on the left: an all-3.0 input totals (300, 0) and returns 0. */
  lemma MajorityFixture()
    ensures CanPredict(MajorityForest(), seq(13, _ => 3.0))
    ensures Total(MajorityForest().trees, seq(13, _ => 3.0)) == Vote(300.0, 0.0)
    ensures Label(MajorityForest(), seq(13, _ => 3.0)) == 0
  {
    var t := Stump(0, 5.0, Vote(100.0, 0.0), Vote(0.0, 100.0));
    var x := seq(13, _ => 3.0);
    StumpRoute(0, 5.0, Vote(100.0, 0.0), Vote(0.0, 100.0), x);
    var ts := seq(3, _ => t);
    assert ts == [t, t, t];
    var v := Vote(100.0, 0.0);
    assert Votes(ts, x) == [v, v, v];
    assert [v, v, v][..2] == [v, v] && [v, v][..1] == [v] && [v][..0] == [];
    assert Sum([v]) == v;
    assert Sum([v, v]) == Add(Sum([v]), v);
    assert Sum([v, v, v]) == Add(Sum([v, v]), v);
  }
}
