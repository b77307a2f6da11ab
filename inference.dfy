/**
 * The predictor: a scaler and a forest loaded together from one model file.
 * Prediction standardises the caller's buffer in place using the forest's
 * feature count, then asks the forest for a label.
 */
module Inference {
  import opened DecisionTree
  import opened RandomForest
  import opened StandardScaler
  import opened SampleRecord

  /** A label, or the scaler's rejection of a buffer of the wrong length. */
  datatype Outcome = Predicted(classLabel: int) | LengthMismatch

  /**
   * What a matching-length prediction needs: the scaler covers the forest's feature
   * count with nonzero scales, both labels exist, and every tree reads only features
   * below that count. Nothing checks this when the model is loaded.
   */
  predicate Compatible(mean: seq<real>, scale: seq<real>, f: Forest) {
    && f.nFeatures >= 0
    && Standardizable(mean, scale, f.nFeatures)
    && |f.classes| >= 2
    && AllRoutable(f.trees, f.nFeatures)
  }

  /** The whole pipeline on values: scale with `mean`/`scale`, then let the forest decide. */
  function Pipeline(mean: seq<real>, scale: seq<real>, f: Forest, x: seq<real>): Outcome
    requires |x| == f.nFeatures ==> Compatible(mean, scale, f)
  {
    if |x| != f.nFeatures then LengthMismatch
    else Predicted(Label(f, Standardized(x, mean, scale)))
  }

  /**
   * A wrong-length buffer is rejected and the forest is not consulted; otherwise the
   * label is one of the forest's two labels, computed from the standardised input.
   */
  lemma PipelineOutcome(mean: seq<real>, scale: seq<real>, f: Forest, x: seq<real>)
    requires |x| == f.nFeatures ==> Compatible(mean, scale, f)
    ensures Pipeline(mean, scale, f, x) == LengthMismatch <==> |x| != f.nFeatures
    ensures |x| == f.nFeatures ==>
              var z := Standardized(x, mean, scale);
              CanPredict(f, z) &&
              Pipeline(mean, scale, f, x) == Predicted(Label(f, z)) &&
              (Label(f, z) == f.classes[0] || Label(f, z) == f.classes[1])
  {
  }

  class Predictor {
    const scaler: Scaler
    const forest: Forest

    /** The predictor as read from the model file's `scaler` and `model` sections. */
    constructor (scaler: Scaler, forest: Forest)
      ensures this.scaler == scaler && this.forest == forest
    {
      this.scaler := scaler;
      this.forest := forest;
    }

    /**
     * `Predictor::predict`. The scaler's expected length is the forest's feature
     * count. On a mismatch the buffer is untouched and no tree is evaluated; otherwise
     * the buffer holds the standardised values afterwards and the label is the
     * forest's for them. Neither the scaler nor the forest changes.
     */
    method Predict(features: array<real>) returns (outcome: Outcome)
      requires features.Length == forest.nFeatures ==> Compatible(scaler.mean, scaler.scale, forest)
      modifies features
      ensures outcome == Pipeline(scaler.mean, scaler.scale, forest, old(features[..]))
      ensures features.Length != forest.nFeatures ==> features[..] == old(features[..])
      ensures features.Length == forest.nFeatures ==>
                features[..] == Standardized(old(features[..]), scaler.mean, scaler.scale)
    {
      var ok := scaler.Transform(features, forest.nFeatures);
      if !ok {
        return LengthMismatch;
      }
      var prediction := RandomForest.Predict(forest, features[..]);
      return Predicted(prediction);
    }
  }

  // ---------------------------------------------------------------------------
  // End-to-end fixtures

  /** The one-tree forest of the pipeline test: split on feature 0 at 5.0. */
  function OneTreeForest(left: Vote, right: Vote): Forest {
    Forest(1, 2, 13, [0, 1], [Stump(0, 5.0, left, right)])
  }

  lemma OneTreeLabel(left: Vote, right: Vote, z: seq<real>)
    requires |z| == 13
    ensures CanPredict(OneTreeForest(left, right), z)
    ensures Label(OneTreeForest(left, right), z) ==
              Winner(if GoesLeft(z[0], 5.0) then left else right)
  {
    var t := Stump(0, 5.0, left, right);
    StumpRoute(0, 5.0, left, right, z);
    var v := Route(t, z);
    assert Votes([t], z) == [v];
    assert [v][..0] == [];
    assert Sum([v]) == Add(Vote(0.0, 0.0), v) == v;
    assert Total([t], z) == v;
  }

  /**
   * Identity scaler, leaves (10, 5) and (2, 15), and a record whose first model
   * field is 3.0 and the rest 0: the record's features go left and yield label 0,
   * and the caller's buffer keeps its values.
   */
  lemma PipelineFixture(s: Sample)
    requires s.nepTb == 3.0
    requires forall k :: 3 <= k < NFields ==> Field(s, k) == 0.0
    ensures Compatible(seq(13, _ => 0.0), seq(13, _ => 1.0), OneTreeForest(Vote(10.0, 5.0), Vote(2.0, 15.0)))
    ensures Standardized(ToVec(s), seq(13, _ => 0.0), seq(13, _ => 1.0)) == ToVec(s)
    ensures Pipeline(seq(13, _ => 0.0), seq(13, _ => 1.0), OneTreeForest(Vote(10.0, 5.0), Vote(2.0, 15.0)), ToVec(s))
              == Predicted(0)
  {
    var mean, scale := seq(13, _ => 0.0), seq(13, _ => 1.0);
    var f := OneTreeForest(Vote(10.0, 5.0), Vote(2.0, 15.0));
    StumpRoute(0, 5.0, Vote(10.0, 5.0), Vote(2.0, 15.0), seq(13, _ => 0.0));
    assert Compatible(mean, scale, f);
    IdentityScaler(ToVec(s), mean, scale);
    OneTreeLabel(Vote(10.0, 5.0), Vote(2.0, 15.0), ToVec(s));
  }

  /**
   * Identity scaler, leaves (50, 10) and (10, 50): all zeros give label 0 and
   * all 10.0 give label 1.
   */
  lemma ZeroAndTenFixture()
    ensures Compatible(seq(13, _ => 0.0), seq(13, _ => 1.0), OneTreeForest(Vote(50.0, 10.0), Vote(10.0, 50.0)))
    ensures Pipeline(seq(13, _ => 0.0), seq(13, _ => 1.0), OneTreeForest(Vote(50.0, 10.0), Vote(10.0, 50.0)),
                     seq(13, _ => 0.0)) == Predicted(0)
    ensures Pipeline(seq(13, _ => 0.0), seq(13, _ => 1.0), OneTreeForest(Vote(50.0, 10.0), Vote(10.0, 50.0)),
                     seq(13, _ => 10.0)) == Predicted(1)
  {
    var mean, scale := seq(13, _ => 0.0), seq(13, _ => 1.0);
    var f := OneTreeForest(Vote(50.0, 10.0), Vote(10.0, 50.0));
    StumpRoute(0, 5.0, Vote(50.0, 10.0), Vote(10.0, 50.0), seq(13, _ => 0.0));
    assert Compatible(mean, scale, f);
    IdentityScaler(seq(13, _ => 0.0), mean, scale);
    IdentityScaler(seq(13, _ => 10.0), mean, scale);
    OneTreeLabel(Vote(50.0, 10.0), Vote(10.0, 50.0), seq(13, _ => 0.0));
    OneTreeLabel(Vote(50.0, 10.0), Vote(10.0, 50.0), seq(13, _ => 10.0));
  }
}
