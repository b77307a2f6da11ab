/**
 * The scaler: per-feature `mean` and `scale` vectors that standardise a feature
 * buffer in place, position by position, after checking the buffer's length.
 */
module StandardScaler {

  /** `mean` and `scale` cover the first `n` features and no scale among them is zero. */
  predicate Standardizable(mean: seq<real>, scale: seq<real>, n: int) {
    0 <= n <= |mean| && n <= |scale| && forall i :: 0 <= i < n ==> scale[i] != 0.0
  }

  /** The standardised vector: position i becomes (data[i] - mean[i]) / scale[i]. */
  function Standardized(data: seq<real>, mean: seq<real>, scale: seq<real>): (z: seq<real>)
    requires Standardizable(mean, scale, |data|)
    ensures |z| == |data|
  {
    seq(|data|, i requires 0 <= i < |data| => (data[i] - mean[i]) / scale[i])
  }

  /** The inverse map: position i becomes z[i] * scale[i] + mean[i]. */
  function Restored(z: seq<real>, mean: seq<real>, scale: seq<real>): (data: seq<real>)
    requires Standardizable(mean, scale, |z|)
    ensures |data| == |z|
  {
    seq(|z|, i requires 0 <= i < |z| => z[i] * scale[i] + mean[i])
  }

  /** Standardising loses nothing: restoring gives back the original values. */
  lemma RestoreStandardized(data: seq<real>, mean: seq<real>, scale: seq<real>)
    requires Standardizable(mean, scale, |data|)
    ensures Restored(Standardized(data, mean, scale), mean, scale) == data
  {
    var z := Standardized(data, mean, scale);
    forall i | 0 <= i < |data| ensures Restored(z, mean, scale)[i] == data[i] {
      assert z[i] * scale[i] == data[i] - mean[i];
    }
  }

  /** Every vector is the standardisation of exactly its restoration. */
  lemma StandardizeRestored(z: seq<real>, mean: seq<real>, scale: seq<real>)
    requires Standardizable(mean, scale, |z|)
    ensures Standardized(Restored(z, mean, scale), mean, scale) == z
  {
    var data := Restored(z, mean, scale);
    forall i | 0 <= i < |z| ensures Standardized(data, mean, scale)[i] == z[i] {
      assert data[i] - mean[i] == z[i] * scale[i];
    }
  }

  /**
   * Position i of the result depends only on data[i], mean[i] and scale[i]:
   * inputs that agree there give the same value there.
   */
  lemma PositionwiseLocal(d: seq<real>, e: seq<real>, mean: seq<real>, scale: seq<real>,
                          mean': seq<real>, scale': seq<real>, i: nat)
    requires Standardizable(mean, scale, |d|) && Standardizable(mean', scale', |e|)
    requires i < |d| && i < |e| && d[i] == e[i] && mean[i] == mean'[i] && scale[i] == scale'[i]
    ensures Standardized(d, mean, scale)[i] == Standardized(e, mean', scale')[i]
  {
  }

  /** Mean 0 and scale 1 leave the data unchanged. */
  lemma IdentityScaler(data: seq<real>, mean: seq<real>, scale: seq<real>)
    requires |mean| >= |data| && |scale| >= |data|
    requires forall i :: 0 <= i < |data| ==> mean[i] == 0.0 && scale[i] == 1.0
    ensures Standardizable(mean, scale, |data|)
    ensures Standardized(data, mean, scale) == data
  {
  }

  lemma DivSelf(y: real)
    requires y != 0.0
    ensures y / y == 1.0
  {
  }

  /** Mean 10k, scale 2k and data 12k (k = 1..13) standardise to 1.0 everywhere. */
  lemma UnitFixture()
    ensures Standardizable(seq(13, k => 10.0 * (k + 1) as real), seq(13, k => 2.0 * (k + 1) as real), 13)
    ensures Standardized(seq(13, k => 12.0 * (k + 1) as real),
                         seq(13, k => 10.0 * (k + 1) as real),
                         seq(13, k => 2.0 * (k + 1) as real)) == seq(13, _ => 1.0)
  {
    var data, mean, scale := seq(13, k => 12.0 * (k + 1) as real), seq(13, k => 10.0 * (k + 1) as real),
                             seq(13, k => 2.0 * (k + 1) as real);
    forall i | 0 <= i < 13 ensures Standardized(data, mean, scale)[i] == 1.0 {
      var c := (i + 1) as real;
      assert c >= 1.0 && scale[i] == 2.0 * c > 0.0;
      assert data[i] - mean[i] == scale[i];
      assert Standardized(data, mean, scale)[i] == scale[i] / scale[i];
      DivSelf(scale[i]);
    }
  }

  /** Mean 50 and scale 10 take 30, 40, 50, 60 to -2, -1, 0, 1. */
  lemma MixedSignFixture()
    ensures Standardizable(seq(13, _ => 50.0), seq(13, _ => 10.0), 13)
    ensures var z := Standardized(seq(13, k => 30.0 + 10.0 * k as real), seq(13, _ => 50.0), seq(13, _ => 10.0));
            z[0] == -2.0 && z[1] == -1.0 && z[2] == 0.0 && z[3] == 1.0
  {
  }

  class Scaler {
    const scale: seq<real>
    const mean: seq<real>

    /** The scaler as read from the model file. */
    constructor (scale: seq<real>, mean: seq<real>)
      ensures this.scale == scale && this.mean == mean
    {
      this.scale := scale;
      this.mean := mean;
    }

    /**
     * `Scaler::transform`. A buffer whose length differs from `numFeatures` is
     * rejected before any element is written (the source aborts there); otherwise
     * every position is standardised in place. Only `data` is written.
     */
    method Transform(data: array<real>, numFeatures: int) returns (ok: bool)
      requires data.Length == numFeatures ==> Standardizable(mean, scale, numFeatures)
      modifies data
      ensures ok <==> data.Length == numFeatures
      ensures !ok ==> data[..] == old(data[..])
      ensures ok ==> data[..] == Standardized(old(data[..]), mean, scale)
    {
      if data.Length != numFeatures {
        return false;
      }
      for i := 0 to numFeatures
        invariant forall k :: 0 <= k < i ==> data[k] == (old(data[k]) - mean[k]) / scale[k]
        invariant forall k :: i <= k < numFeatures ==> data[k] == old(data[k])
      {
        data[i] := (data[i] - mean[i]) / scale[i];
      }
      return true;
    }
  }
}
