/** The conflict-risk score: a fixed affine combination of six geopolitical
    indicators, risk = b0 + b1*GTI + b2*TWSI + b3*MBR + b4*AFS + b5*EDS + b6*EVI.
    Reals are exact, so the decimal coefficients carry no rounding. */
module RiskModel {

  /** The six indicators a score is computed from; the field names are the
      keyword arguments of the scoring function. */
  datatype Indicators = Indicators(gti: real, twsi: real, mbr: real, afs: real, eds: real, evi: real)

  /** The six indicator fields, in argument order. */
  datatype Field = GTI | TWSI | MBR | AFS | EDS | EVI

  const Beta0: real := 1.0
  const Beta1: real := 0.05
  const Beta2: real := 0.10
  const Beta3: real := 0.07
  const Beta4: real := 0.04
  const Beta5: real := 0.06
  const Beta6: real := 0.08

  /** The slope coefficients b1..b6, in argument order. */
  const Slopes: seq<real> := [Beta1, Beta2, Beta3, Beta4, Beta5, Beta6]

  /** The all-zero indicator set. */
  const Zero: Indicators := Indicators(0.0, 0.0, 0.0, 0.0, 0.0, 0.0)

  /** The score. Total: no validation or clamping of any input. Its
      reference form is the intercept plus the weighted sum of the indicator
      vector with the slopes. */
  function Risk(x: Indicators): (r: real)
    ensures r == Beta0 + WeightedSum(Slopes, Vector(x))
  {
    WeightedSumOfSix(Slopes, Vector(x));
    Beta0 +
    Beta1 * x.gti +
    Beta2 * x.twsi +
    Beta3 * x.mbr +
    Beta4 * x.afs +
    Beta5 * x.eds +
    Beta6 * x.evi
  }

  /** The indicators as a vector, in argument order. */
  function Vector(x: Indicators): (v: seq<real>)
    ensures |v| == 6
  {
    [x.gti, x.twsi, x.mbr, x.afs, x.eds, x.evi]
  }

  /** The value of one field. */
  function Get(x: Indicators, f: Field): real
  {
    match f
    case GTI => x.gti
    case TWSI => x.twsi
    case MBR => x.mbr
    case AFS => x.afs
    case EDS => x.eds
    case EVI => x.evi
  }

  /** The slope coefficient that multiplies a field. */
  function Coefficient(f: Field): (c: real)
    ensures c > 0.0
  {
    match f
    case GTI => Beta1
    case TWSI => Beta2
    case MBR => Beta3
    case AFS => Beta4
    case EDS => Beta5
    case EVI => Beta6
  }

  /** The indicator set with one field replaced and the other five kept. */
  function With(x: Indicators, f: Field, v: real): (y: Indicators)
    ensures Get(y, f) == v
    ensures forall g :: g != f ==> Get(y, g) == Get(x, g)
  {
    match f
    case GTI => x.(gti := v)
    case TWSI => x.(twsi := v)
    case MBR => x.(mbr := v)
    case AFS => x.(afs := v)
    case EDS => x.(eds := v)
    case EVI => x.(evi := v)
  }

  /** Field-wise sum of two indicator sets. */
  function Add(x: Indicators, y: Indicators): Indicators
  {
    Indicators(x.gti + y.gti, x.twsi + y.twsi, x.mbr + y.mbr, x.afs + y.afs, x.eds + y.eds, x.evi + y.evi)
  }

  /** Every field multiplied by the same factor. */
  function Scale(c: real, x: Indicators): Indicators
  {
    Indicators(c * x.gti, c * x.twsi, c * x.mbr, c * x.afs, c * x.eds, c * x.evi)
  }

  /** Field-wise order: every field of x is at most the same field of y. */
  predicate Below(x: Indicators, y: Indicators)
  {
    x.gti <= y.gti && x.twsi <= y.twsi && x.mbr <= y.mbr &&
    x.afs <= y.afs && x.eds <= y.eds && x.evi <= y.evi
  }

  // ---------------------------------------------------------------------
  // Reference definition: a weighted sum over vectors, the form
  // b0 + sum of bk * xk in which the score is usually written.
  // ---------------------------------------------------------------------

  /** Sum of ws[k] * xs[k] over all positions k. */
  function WeightedSum(ws: seq<real>, xs: seq<real>): real
    requires |ws| == |xs|
  {
    if ws == [] then 0.0 else ws[0] * xs[0] + WeightedSum(ws[1..], xs[1..])
  }

  /** The weighted sum of two six-element vectors, written out. */
  lemma WeightedSumOfSix(ws: seq<real>, xs: seq<real>)
    requires |ws| == |xs| == 6
    ensures WeightedSum(ws, xs)
         == ws[0] * xs[0] + ws[1] * xs[1] + ws[2] * xs[2] + ws[3] * xs[3] + ws[4] * xs[4] + ws[5] * xs[5]
  {
    assert WeightedSum(ws[5..], xs[5..]) == ws[5] * xs[5];
    assert WeightedSum(ws[4..], xs[4..]) == ws[4] * xs[4] + ws[5] * xs[5];
    assert WeightedSum(ws[3..], xs[3..]) == ws[3] * xs[3] + ws[4] * xs[4] + ws[5] * xs[5];
    assert WeightedSum(ws[2..], xs[2..]) == ws[2] * xs[2] + ws[3] * xs[3] + ws[4] * xs[4] + ws[5] * xs[5];
    assert WeightedSum(ws[1..], xs[1..])
        == ws[1] * xs[1] + ws[2] * xs[2] + ws[3] * xs[3] + ws[4] * xs[4] + ws[5] * xs[5];
  }

  // ---------------------------------------------------------------------
  // Properties of the score.
  // ---------------------------------------------------------------------

  /** The score is 1 plus the weighted sum of the indicators with weights
      0.05, 0.10, 0.07, 0.04, 0.06 and 0.08, for every real input. */
  lemma RiskIsWeightedSum(x: Indicators)
    ensures Risk(x) == 1.0 + WeightedSum([0.05, 0.10, 0.07, 0.04, 0.06, 0.08], Vector(x))
  {
    assert Slopes == [0.05, 0.10, 0.07, 0.04, 0.06, 0.08];
  }

  /** With every indicator at zero the score is exactly the intercept 1. */
  lemma RiskBaseline()
    ensures Risk(Zero) == 1.0
  {
  }

  /** Changing one indicator by d, the others held fixed, changes the score
      by exactly that indicator's coefficient times d. */
  lemma RiskFieldDelta(x: Indicators, f: Field, d: real)
    ensures Risk(With(x, f, Get(x, f) + d)) == Risk(x) + Coefficient(f) * d
  {
  }

  /** Raising one indicator strictly raises the score. */
  lemma RiskStrictlyIncreasing(x: Indicators, f: Field, d: real)
    requires d > 0.0
    ensures Risk(With(x, f, Get(x, f) + d)) > Risk(x)
  {
    RiskFieldDelta(x, f, d);
  }

  /** The score is affine: the slope part of a sum is the sum of the slope parts. */
  lemma RiskAdditive(x: Indicators, y: Indicators)
    ensures Risk(Add(x, y)) - 1.0 == (Risk(x) - 1.0) + (Risk(y) - 1.0)
  {
  }

  /** Scaling every indicator by c scales the slope part of the score by c. */
  lemma RiskScaling(c: real, x: Indicators)
    ensures Risk(Scale(c, x)) - 1.0 == c * (Risk(x) - 1.0)
  {
  }

  /** The score is monotone in the field-wise order. */
  lemma RiskMonotone(x: Indicators, y: Indicators)
    requires Below(x, y)
    ensures Risk(x) <= Risk(y)
  {
  }
}
