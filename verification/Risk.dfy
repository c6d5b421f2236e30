/** The risk score: five weighted factors, a product with an average, a rounding and a tier. */
module Risk {
  import opened Basics
  import opened Rounding

  datatype Factor = Algorithm | Data | Exposure | Lifespan | Criticality

  const FACTORS: seq<Factor> := [Algorithm, Data, Exposure, Lifespan, Criticality]

  /** One number per factor. */
  datatype Five = Five(a: real, d: real, e: real, l: real, c: real) {
    function At(f: Factor): real {
      match f case Algorithm => a case Data => d case Exposure => e case Lifespan => l case Criticality => c
    }
  }

  datatype Tier = Low | Medium | High | Critical

  datatype Risk = Risk(score: int, tier: Tier, weighted: Five, raw: real, weightedRaw: real)

  function ApplyWeight(value: real, weight: real): (r: real)
    ensures 0.0 <= r <= 1.0
  {
    if value <= 0.0 then 0.0
    else if value >= 1.0 then 1.0
    else Clamp(Tilt(value, weight), 0.0, 1.0)
  }

  /** The distance from one half, scaled. */
  function Tilt(value: real, weight: real): real {
    0.5 + (value - 0.5) * weight
  }

  function Weighted(f: Five, w: Five): Five {
    Five(ApplyWeight(f.a, w.a), ApplyWeight(f.d, w.d), ApplyWeight(f.e, w.e), ApplyWeight(f.l, w.l),
        ApplyWeight(f.c, w.c))
  }

  function AverageContext(f: Five): real {
    (f.d + f.e + f.l + f.c) / 4.0
  }

  function Raw(f: Five): real {
    f.a * AverageContext(f)
  }

  function ScoreOf(raw: real): int {
    var rounded := Nearest(raw * 100.0);
    var least := if rounded < 100 then rounded else 100;
    if least > 0 then least else 0
  }

  function TierOf(score: int): Tier {
    if score >= 80 then Critical else if score >= 60 then High else if score >= 30 then Medium else Low
  }

  function Compute(f: Five, w: Five): Risk {
    var weighted := Weighted(f, w);
    var score := ScoreOf(Raw(weighted));
    Risk(score, TierOf(score), weighted, Raw(f), Raw(weighted))
  }

  function Rank(t: Tier): nat {
    match t case Low => 0 case Medium => 1 case High => 2 case Critical => 3
  }

  // ----- Order -----

  ghost predicate AtMost(f: Five, g: Five) {
    forall x: Factor :: f.At(x) <= g.At(x)
  }

  ghost predicate Within(f: Five, low: real, high: real) {
    forall x: Factor :: low <= f.At(x) <= high
  }

  /** Neither the score nor the tier is lower. */
  predicate NoLower(r: Risk, s: Risk) {
    r.score <= s.score && Rank(r.tier) <= Rank(s.tier)
  }

  lemma AtEach(f: Five, g: Five)
    requires AtMost(f, g)
    ensures f.a <= g.a && f.d <= g.d && f.e <= g.e && f.l <= g.l && f.c <= g.c
  {
    assert f.At(Algorithm) <= g.At(Algorithm) && f.At(Data) <= g.At(Data) && f.At(Exposure) <= g.At(Exposure);
    assert f.At(Lifespan) <= g.At(Lifespan) && f.At(Criticality) <= g.At(Criticality);
  }

  lemma ProductMonotone(a: real, b: real, x: real, y: real)
    requires 0.0 <= a <= b && 0.0 <= x <= y
    ensures 0.0 <= a * x <= b * y
  {
    assert a * x <= b * x <= b * y;
  }

  lemma RawMonotone(f: Five, g: Five)
    requires AtMost(f, g) && 0.0 <= f.a && 0.0 <= AverageContext(f)
    ensures 0.0 <= Raw(f) <= Raw(g)
  {
    AtEach(f, g);
    ProductMonotone(f.a, g.a, AverageContext(f), AverageContext(g));
  }

  lemma ScoreMonotone(x: real, y: real)
    requires x <= y
    ensures ScoreOf(x) <= ScoreOf(y) && Rank(TierOf(ScoreOf(x))) <= Rank(TierOf(ScoreOf(y)))
  {
    NearestMonotone(x * 100.0, y * 100.0);
  }

  lemma WeightedNoLower(f: Five, w: Five, g: Five, u: Five)
    requires AtMost(Weighted(f, w), Weighted(g, u))
    ensures NoLower(Compute(f, w), Compute(g, u))
  {
    RawMonotone(Weighted(f, w), Weighted(g, u));
    ScoreMonotone(Raw(Weighted(f, w)), Raw(Weighted(g, u)));
  }

  lemma ApplyWeightMonotone(v: real, x: real, w: real)
    requires v <= x && w >= 0.0
    ensures ApplyWeight(v, w) <= ApplyWeight(x, w)
  {
    TiltMonotone(v, x, w);
  }

  lemma NonNegative(x: real, y: real)
    requires 0.0 <= x && 0.0 <= y
    ensures 0.0 <= x * y
  {
  }

  lemma TiltMonotone(v: real, x: real, w: real)
    requires v <= x && w >= 0.0
    ensures Tilt(v, w) <= Tilt(x, w)
  {
    NonNegative(x - v, w);
  }

  lemma TiltFavours(v: real, w: real, u: real)
    requires Favours(v, w, u)
    ensures Tilt(v, w) <= Tilt(v, u)
  {
    if v > 0.5 {
      NonNegative(v - 0.5, u - w);
    } else if v < 0.5 {
      NonNegative(0.5 - v, w - u);
    }
  }

  lemma RawBounded(f: Five)
    requires Within(f, 0.0, 1.0)
    ensures 0.0 <= Raw(f) <= 1.0
  {
    var zero, one := Five(0.0, 0.0, 0.0, 0.0, 0.0), Five(1.0, 1.0, 1.0, 1.0, 1.0);
    forall x: Factor
      ensures zero.At(x) <= f.At(x) <= one.At(x)
    {
    }
    AtEach(zero, f);
    RawMonotone(f, one);
  }

  lemma ScorePercent(x: real)
    requires 0.0 <= x <= 1.0
    ensures 0 <= ScoreOf(x) <= 100 && ScoreOf(x) == Nearest(x * 100.0)
  {
    NearestMonotone(0.0, x * 100.0);
    NearestMonotone(x * 100.0, 100.0);
    NearestInteger(0, 0.0);
    NearestInteger(100, 100.0);
  }

  /** Whatever the factors, the score is a percentage. */
  lemma ScoreInRange(f: Five, w: Five)
    ensures 0 <= Compute(f, w).score <= 100
    ensures 0.0 <= Compute(f, w).weightedRaw <= 1.0 && Compute(f, w).score == Nearest(Compute(f, w).weightedRaw * 100.0)
  {
    RawBounded(Weighted(f, w));
    ScorePercent(Raw(Weighted(f, w)));
  }

  /** Raising factors, any number of them, never lowers score or tier. */
  lemma RiskMonotone(f: Five, g: Five, w: Five)
    requires AtMost(f, g) && Within(w, 0.5, 2.0)
    ensures NoLower(Compute(f, w), Compute(g, w))
  {
    forall x: Factor
      ensures Weighted(f, w).At(x) <= Weighted(g, w).At(x)
    {
      assert w.At(x) >= 0.0;
      ApplyWeightMonotone(f.At(x), g.At(x), w.At(x));
    }
    WeightedNoLower(f, w, g, w);
  }

  /** A factor above one half gains from a larger weight, one below gains from a smaller weight. */
  predicate Favours(v: real, w: real, u: real) {
    (v > 0.5 ==> w <= u) && (v < 0.5 ==> u <= w)
  }

  lemma ApplyWeightFavours(v: real, w: real, u: real)
    requires Favours(v, w, u)
    ensures ApplyWeight(v, w) <= ApplyWeight(v, u)
  {
    TiltFavours(v, w, u);
  }

  lemma WeightsMonotone(f: Five, w: Five, u: Five)
    requires forall x: Factor :: Favours(f.At(x), w.At(x), u.At(x))
    ensures NoLower(Compute(f, w), Compute(f, u))
  {
    forall x: Factor
      ensures Weighted(f, w).At(x) <= Weighted(f, u).At(x)
    {
      ApplyWeightFavours(f.At(x), w.At(x), u.At(x));
    }
    WeightedNoLower(f, w, f, u);
  }

  /** One weight raised: score and tier move to the side of one half on which the factor lies. */
  lemma OneWeightRaised(f: Five, w: Five, u: Five, x: Factor)
    requires w.At(x) <= u.At(x) && forall y: Factor :: y != x ==> w.At(y) == u.At(y)
    ensures f.At(x) >= 0.5 ==> NoLower(Compute(f, w), Compute(f, u))
    ensures f.At(x) <= 0.5 ==> NoLower(Compute(f, u), Compute(f, w))
  {
    if f.At(x) >= 0.5 {
      WeightsMonotone(f, w, u);
    }
    if f.At(x) <= 0.5 {
      WeightsMonotone(f, u, w);
    }
  }

  // ----- What the score is -----

  /** Each factor is weighted by its own weight. */
  lemma WeightedEach(f: Five, w: Five, x: Factor)
    ensures Compute(f, w).weighted.At(x) == ApplyWeight(f.At(x), w.At(x))
  {
  }

  /** The algorithm's factor times the average of the other four. */
  lemma RawValue(f: Five, w: Five)
    ensures 4.0 * Compute(f, w).raw == f.a * (f.d + f.e + f.l + f.c)
  {
    Quarter(f);
  }

  /** The same of the weighted factors. */
  lemma WeightedRawValue(f: Five, w: Five, v: Five)
    requires v == Compute(f, w).weighted
    ensures 4.0 * Compute(f, w).weightedRaw == v.a * (v.d + v.e + v.l + v.c)
  {
    assert Compute(f, w).weightedRaw == Raw(v);
    Quarter(v);
  }

  /** The score is the nearest percentage. */
  lemma ScoreValue(f: Five, w: Five)
    ensures -0.5 <= Compute(f, w).score as real - 100.0 * Compute(f, w).weightedRaw <= 0.5
  {
    RawBounded(Weighted(f, w));
    ScoreNearest(Raw(Weighted(f, w)));
  }

  lemma ScoreNearest(x: real)
    requires 0.0 <= x <= 1.0
    ensures -0.5 <= ScoreOf(x) as real - 100.0 * x <= 0.5
  {
    ScorePercent(x);
    NearestIsNearest(x * 100.0);
  }

  lemma Quarter(f: Five)
    ensures 4.0 * Raw(f) == f.a * (f.d + f.e + f.l + f.c)
  {
    var sum := f.d + f.e + f.l + f.c;
    assert 4.0 * (f.a * (sum / 4.0)) == f.a * sum;
  }

  /** A weight scales a factor's distance from one half, up to the ends; factors at the ends stay there. */
  lemma WeightScales(v: real, w: real)
    ensures
      var r, x := ApplyWeight(v, w), 0.5 + w * (v - 0.5);
      && (v <= 0.0 ==> r == 0.0) && (v >= 1.0 ==> r == 1.0)
      && (0.0 < v < 1.0 ==> if x < 0.0 then r == 0.0 else if x > 1.0 then r == 1.0 else r - 0.5 == w * (v - 0.5))
  {
    assert (v - 0.5) * w == w * (v - 0.5);
  }

  /** The tiers are the bands from 80, 60 and 30 up. */
  lemma TierBands(f: Five, w: Five)
    ensures
      var r := Compute(f, w);
      && (r.tier == Critical <==> 80 <= r.score <= 100) && (r.tier == High <==> 60 <= r.score < 80)
      && (r.tier == Medium <==> 30 <= r.score < 60) && (r.tier == Low <==> 0 <= r.score < 30)
  {
    ScoreInRange(f, w);
  }

  /** With unit weights nothing is weighted: the score is the nearest integer to a hundred times the product. */
  lemma UnitWeights(f: Five)
    requires Within(f, 0.0, 1.0)
    ensures
      var r := Compute(f, Five(1.0, 1.0, 1.0, 1.0, 1.0));
      && r.weighted == f && r.weightedRaw == r.raw && 4.0 * r.raw == f.a * (f.d + f.e + f.l + f.c)
      && r.score == Nearest(25.0 * (f.a * (f.d + f.e + f.l + f.c)))
  {
    var unit := Five(1.0, 1.0, 1.0, 1.0, 1.0);
    forall x: Factor
      ensures ApplyWeight(f.At(x), 1.0) == f.At(x)
    {
      assert 0.0 <= f.At(x) <= 1.0;
    }
    assert ApplyWeight(f.At(Algorithm), 1.0) == f.a && ApplyWeight(f.At(Data), 1.0) == f.d;
    assert ApplyWeight(f.At(Exposure), 1.0) == f.e;
    assert ApplyWeight(f.At(Lifespan), 1.0) == f.l && ApplyWeight(f.At(Criticality), 1.0) == f.c;
    ScoreInRange(f, unit);
    Quarter(f);
  }

  // ----- Lifespan -----

  function LifespanFactor(years: Option<real>): (r: real)
    ensures 0.0 <= r <= 1.0
  {
    match years
    case None => 0.5
    case Some(y) =>
      if y >= 25.0 then 1.0 else if y >= 15.0 then 0.85 else if y >= 10.0 then 0.7
      else if y >= 5.0 then 0.5 else if y >= 1.0 then 0.3 else 0.1
  }

  /** The bands of years, and one half when nothing is known. */
  lemma LifespanBands(y: real)
    ensures LifespanFactor(None) == 0.5
    ensures
      var r := LifespanFactor(Some(y));
      && (y >= 25.0 <==> r == 1.0) && (15.0 <= y < 25.0 <==> r == 0.85) && (10.0 <= y < 15.0 <==> r == 0.7)
      && (5.0 <= y < 10.0 <==> r == 0.5) && (1.0 <= y < 5.0 <==> r == 0.3) && (y < 1.0 <==> r == 0.1)
  {
  }

  /** Data that must stay secret for longer is never less at risk. */
  lemma LongerLifespan(f: Five, w: Five, y: real, z: real)
    requires y <= z && Within(w, 0.5, 2.0)
    ensures NoLower(Compute(f.(l := LifespanFactor(Some(y))), w), Compute(f.(l := LifespanFactor(Some(z))), w))
  {
    RiskMonotone(f.(l := LifespanFactor(Some(y))), f.(l := LifespanFactor(Some(z))), w);
  }

  // ----- Weights -----

  /** The given weights over the default of 1. */
  function Source(given: map<Factor, real>, f: Factor): real {
    if f in given then given[f] else 1.0
  }

  predicate Allowed(w: real) {
    0.5 <= w <= 2.0
  }

  datatype Normalized = Weights(weights: map<Factor, real>) | OutOfRange(factor: Factor)

  /** Every weight is given or 1; the first one out of range, in the fixed order, is refused. */
  method NormalizeWeights(given: map<Factor, real>) returns (r: Normalized)
    ensures r.Weights? <==> forall f :: f in given ==> Allowed(given[f])
    ensures r.Weights? ==>
      forall f: Factor :: f in r.weights && r.weights[f] == Source(given, f) && Allowed(r.weights[f])
    ensures r.OutOfRange? ==> 
      && !Allowed(Source(given, r.factor))
      && forall f: Factor :: Position(f) < Position(r.factor) ==> Allowed(Source(given, f))
  {
    var weights: map<Factor, real> := map[];
    var i := 0;
    while i < |FACTORS|
      invariant i <= |FACTORS|
      invariant forall j :: 0 <= j < i ==>
        Allowed(Source(given, FACTORS[j])) && FACTORS[j] in weights && weights[FACTORS[j]] == Source(given, FACTORS[j])
    {
      var value := Source(given, FACTORS[i]);
      if value < 0.5 || value > 2.0 {
        forall f: Factor | Position(f) < i
          ensures Allowed(Source(given, f))
        {
          assert FACTORS[Position(f)] == f;
        }
        return OutOfRange(FACTORS[i]);
      }
      weights := weights[FACTORS[i] := value];
      i := i + 1;
    }
    forall f: Factor
      ensures Allowed(Source(given, f)) && f in weights && weights[f] == Source(given, f)
    {
      assert FACTORS[Position(f)] == f;
    }
    assert forall f :: f in given ==> Allowed(Source(given, f));
    r := Weights(weights);
  }

  function Position(f: Factor): nat {
    match f case Algorithm => 0 case Data => 1 case Exposure => 2 case Lifespan => 3 case Criticality => 4
  }
}
