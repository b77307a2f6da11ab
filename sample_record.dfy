/**
 * One input record with fifteen measurements, and its projection onto the
 * thirteen model features. The first two fields identify the event and are not
 * model inputs.
 */
module SampleRecord {

  /** The number of model features. */
  const NFeatures: nat := 13

  /** The number of fields in a record. */
  const NFields: nat := 15

  datatype Sample = Sample(
    nepIndex: real,
    ye: real,
    nepTb: real,
    nepTof: real,
    nepSumArray: real,
    nepPeakArray: real,
    nepDArray: real,
    yeTof: real,
    yeSize: real,
    yeMean: real,
    yeMedian: real,
    yeV: real,
    yeTe: real,
    yeTc: real,
    af: real)

  /** The field at position `k` in declaration order. */
  function Field(s: Sample, k: nat): real
    requires k < NFields
  {
    match k
    case 0 => s.nepIndex
    case 1 => s.ye
    case 2 => s.nepTb
    case 3 => s.nepTof
    case 4 => s.nepSumArray
    case 5 => s.nepPeakArray
    case 6 => s.nepDArray
    case 7 => s.yeTof
    case 8 => s.yeSize
    case 9 => s.yeMean
    case 10 => s.yeMedian
    case 11 => s.yeV
    case 12 => s.yeTe
    case 13 => s.yeTc
    case _ => s.af
  }

  /**
   * `Sample::to_vec`: exactly the model features, element i being the field
   * two places further on in declaration order.
   */
  function ToVec(s: Sample): (v: seq<real>)
    ensures |v| == NFeatures
    ensures forall i :: 0 <= i < NFeatures ==> v[i] == Field(s, i + 2)
  {
    [s.nepTb, s.nepTof, s.nepSumArray, s.nepPeakArray, s.nepDArray, s.yeTof, s.yeSize,
     s.yeMean, s.yeMedian, s.yeV, s.yeTe, s.yeTc, s.af]
  }

  /** The two identifying fields never reach the feature vector. */
  lemma ToVecIgnoresIdentifiers(s: Sample, nepIndex: real, ye: real)
    ensures ToVec(s.(nepIndex := nepIndex, ye := ye)) == ToVec(s)
  {
  }

  /** Records that agree on the thirteen model fields project to the same vector, and only those. */
  lemma ToVecDeterminedByModelFields(s: Sample, u: Sample)
    ensures ToVec(s) == ToVec(u) <==> forall k :: 2 <= k < NFields ==> Field(s, k) == Field(u, k)
  {
  }
}
