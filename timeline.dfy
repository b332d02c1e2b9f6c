/** The risk timeline 2025..2035: every year the base indicators are
    multiplied field by field by that year's six noise factors and the
    product is scored. The noise factors, drawn at random in the system, are
    a parameter here: one six-tuple per year. */
module Timeline {
  import opened RiskModel

  /** One year's multiplicative noise factors, in argument order. */
  type Fluctuation = (real, real, real, real, real, real)

  /** The noise-free draw. */
  const NoNoise: Fluctuation := (1.0, 1.0, 1.0, 1.0, 1.0, 1.0)

  const FirstYear: int := 2025
  /** Exclusive end of the year range. */
  const EndYear: int := 2036

  /** The integers lo, lo + 1, ..., hi - 1, and nothing when hi <= lo. */
  function Range(lo: int, hi: int): (r: seq<int>)
    decreases hi - lo
    ensures |r| == if lo <= hi then hi - lo else 0
    ensures forall i :: 0 <= i < |r| ==> r[i] == lo + i
  {
    if lo >= hi then [] else [lo] + Range(lo + 1, hi)
  }

  /** The simulated years. */
  function Years(): (ys: seq<int>)
    ensures |ys| == EndYear - FirstYear
    ensures forall i :: 0 <= i < |ys| ==> ys[i] == FirstYear + i
  {
    Range(FirstYear, EndYear)
  }

  /** The base indicators, each multiplied by its own factor of the draw.
      The noise-free draw leaves the base unchanged, and a draw whose six
      factors are equal scales the whole base by that factor. */
  function Perturb(base: Indicators, f: Fluctuation): (x: Indicators)
    ensures f == NoNoise ==> x == base
    ensures f == (f.0, f.0, f.0, f.0, f.0, f.0) ==> x == Scale(f.0, base)
  {
    Indicators(base.gti * f.0, base.twsi * f.1, base.mbr * f.2,
               base.afs * f.3, base.eds * f.4, base.evi * f.5)
  }

  /** The yearly risks: one score per draw, each draw applied to the same base. */
  function RiskPath(base: Indicators, draws: seq<Fluctuation>): (r: seq<real>)
    ensures |r| == |draws|
  {
    if draws == [] then [] else [Risk(Perturb(base, draws[0]))] + RiskPath(base, draws[1..])
  }

  /** Runs the yearly simulation, appending one risk per year. */
  method SimulateTimeline(base: Indicators, draws: seq<Fluctuation>) returns (timelineData: seq<real>)
    requires |draws| == |Years()|
    ensures |timelineData| == |Years()|
    ensures forall i :: 0 <= i < |timelineData| ==> timelineData[i] == Risk(Perturb(base, draws[i]))
    ensures timelineData == RiskPath(base, draws)
  {
    var years := Years();
    timelineData := [];
    for i := 0 to |years|
      invariant |timelineData| == i
      invariant forall k :: 0 <= k < i ==> timelineData[k] == Risk(Perturb(base, draws[k]))
    {
      var fluctuation := draws[i];
      var yearlyRisk := Risk(Perturb(base, fluctuation));
      timelineData := timelineData + [yearlyRisk];
    }
    RiskPathAt(base, draws);
  }

  // ---------------------------------------------------------------------
  // Properties.
  // ---------------------------------------------------------------------

  /** The timeline covers exactly 2025..2035, in strictly ascending order. */
  lemma YearsShape()
    ensures |Years()| == 11
    ensures Years()[0] == 2025 && Years()[|Years()| - 1] == 2035
    ensures forall i, j :: 0 <= i < j < |Years()| ==> Years()[i] < Years()[j]
  {
  }

  /** One risk per draw, and the risk of year i is the score of the base
      perturbed by draw i alone. */
  lemma {:induction false} RiskPathAt(base: Indicators, draws: seq<Fluctuation>)
    ensures |RiskPath(base, draws)| == |draws|
    ensures forall i :: 0 <= i < |draws| ==> RiskPath(base, draws)[i] == Risk(Perturb(base, draws[i]))
  {
    if draws != [] {
      RiskPathAt(base, draws[1..]);
    }
  }

  /** No drift is carried from one year to the next: year i depends only on
      the base and on draw i, whatever the other draws are. */
  lemma NoCompounding(base: Indicators, draws: seq<Fluctuation>, other: seq<Fluctuation>, i: nat)
    requires |draws| == |other|
    requires i < |draws|
    requires draws[i] == other[i]
    ensures RiskPath(base, draws)[i] == RiskPath(base, other)[i]
  {
    RiskPathAt(base, draws);
    RiskPathAt(base, other);
  }

  /** With every factor 1 every year scores exactly the base indicators. */
  lemma FlatWithoutNoise(base: Indicators, draws: seq<Fluctuation>)
    requires forall i :: 0 <= i < |draws| ==> draws[i] == NoNoise
    ensures forall i :: 0 <= i < |draws| ==> RiskPath(base, draws)[i] == Risk(base)
  {
    RiskPathAt(base, draws);
  }

  /** A year whose six factors all equal c scales the slope part of the base
      score by c. */
  lemma UniformNoise(base: Indicators, draws: seq<Fluctuation>, i: nat, c: real)
    requires i < |draws|
    requires draws[i] == (c, c, c, c, c, c)
    ensures RiskPath(base, draws)[i] - 1.0 == c * (Risk(base) - 1.0)
  {
    RiskPathAt(base, draws);
    RiskScaling(c, base);
  }
}
