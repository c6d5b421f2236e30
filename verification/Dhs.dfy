/** The DHS risk score: six weighted criteria through three roundings. */
module Dhs {
  import opened Basics
  import opened Rounding

  datatype Criterion = AssetValue | ProtectedInformation | CommunicationScope | SharingLevel | CriticalInfrastructure
      | ProtectionDuration

  const CRITERIA: seq<Criterion> := [
    AssetValue, ProtectedInformation, CommunicationScope, SharingLevel, CriticalInfrastructure, ProtectionDuration]

  function Weight(c: Criterion): real {
    match c
    case AssetValue => 1.0 case ProtectedInformation => 1.1 case CommunicationScope => 1.0
    case SharingLevel => 0.8 case CriticalInfrastructure => 1.2 case ProtectionDuration => 1.6
  }

  datatype Rating = Low | Medium | High | Critical | Unknown

  /** `score` is the explicit score, when there is one that parses as a number. */
  datatype Assessment = Assessment(score: Option<real>, rating: Rating)

  /** A criterion that is absent, or is not a mapping, has no entry. */
  type Assessments = map<Criterion, Assessment>

  datatype Priority = P3 | P2 | P1

  datatype Scored = Scored(score: real, weighted: real)

  datatype Dhs = Dhs(score10: real, priority: Priority, weightedRaw: real, criteria: map<Criterion, Scored>,
      missing: seq<Criterion>)

  function CriterionScore(a: Assessment): real {
    match a.score
    case Some(s) => Round(Clamp(if 1.0 < s <= 100.0 then s / 100.0 else s, 0.0, 1.0), Four)
    case None =>
      match a.rating case Low => 0.2 case Medium => 0.5 case High => 0.75 case Critical => 1.0 case Unknown => 0.0
  }

  /** A missing criterion scores nothing. */
  function ScoreIn(source: Assessments, c: Criterion): real {
    if c in source then CriterionScore(source[c]) else 0.0
  }

  function WeightedScore(source: Assessments, c: Criterion): real {
    if c in source then Weigh(CriterionScore(source[c]), c) else 0.0
  }

  function Weigh(score: real, c: Criterion): real {
    Round(score * Weight(c), Four)
  }

  function Denominator(cs: seq<Criterion>): real {
    if cs == [] then 0.0 else Denominator(cs[..|cs| - 1]) + Weight(cs[|cs| - 1])
  }

  function WeightedTotal(source: Assessments, cs: seq<Criterion>): real {
    if cs == [] then 0.0 else WeightedTotal(source, cs[..|cs| - 1]) + WeightedScore(source, cs[|cs| - 1])
  }

  function MissingFrom(source: Assessments, cs: seq<Criterion>): seq<Criterion> {
    if cs == [] then []
    else MissingFrom(source, cs[..|cs| - 1]) + if cs[|cs| - 1] in source then [] else [cs[|cs| - 1]]
  }

  function WeightedRaw(source: Assessments): real {
    if Denominator(CRITERIA) != 0.0 then Round(WeightedTotal(source, CRITERIA) / Denominator(CRITERIA), Four) else 0.0
  }

  function Score10(source: Assessments): real {
    Round(WeightedRaw(source) * 10.0, One)
  }

  function PriorityFor(score: real): Priority {
    if score >= 8.0 then P1 else if score >= 5.0 then P2 else P3
  }

  function Urgency(p: Priority): nat {
    match p case P3 => 0 case P2 => 1 case P1 => 2
  }

  // ----- Bounds -----

  lemma CriterionScoreBounded(a: Assessment)
    ensures 0.0 <= CriterionScore(a) <= 1.0
  {
    match a.score
    case Some(s) => RoundBetween(Clamp(if 1.0 < s <= 100.0 then s / 100.0 else s, 0.0, 1.0), 0, 1, Four);
    case None =>
  }

  /** The weights are on the grid of the first rounding. */
  lemma WeightRounds(c: Criterion)
    ensures Round(Weight(c), Four) == Weight(c)
  {
    match c
    case AssetValue => RoundInteger(1, Four);
    case ProtectedInformation => NearestInteger(11000, 1.1 * 10000.0);
    case CommunicationScope => RoundInteger(1, Four);
    case SharingLevel => NearestInteger(8000, 0.8 * 10000.0);
    case CriticalInfrastructure => NearestInteger(12000, 1.2 * 10000.0);
    case ProtectionDuration => NearestInteger(16000, 1.6 * 10000.0);
  }

  lemma WeighMonotone(x: real, y: real, c: Criterion)
    requires x <= y
    ensures Weigh(x, c) <= Weigh(y, c)
  {
    match c
    case AssetValue => RoundMonotone(x * 1.0, y * 1.0, Four);
    case ProtectedInformation => RoundMonotone(x * 1.1, y * 1.1, Four);
    case CommunicationScope => RoundMonotone(x * 1.0, y * 1.0, Four);
    case SharingLevel => RoundMonotone(x * 0.8, y * 0.8, Four);
    case CriticalInfrastructure => RoundMonotone(x * 1.2, y * 1.2, Four);
    case ProtectionDuration => RoundMonotone(x * 1.6, y * 1.6, Four);
  }

  lemma WeighBounded(x: real, c: Criterion)
    requires 0.0 <= x <= 1.0
    ensures 0.0 <= Weigh(x, c) <= Weight(c)
  {
    WeighMonotone(0.0, x, c);
    WeighMonotone(x, 1.0, c);
    WeighEnds(c);
  }

  lemma WeighEnds(c: Criterion)
    ensures Weigh(0.0, c) == 0.0 && Weigh(1.0, c) == Weight(c)
  {
    assert 0.0 * Weight(c) == 0.0 && 1.0 * Weight(c) == Weight(c);
    RoundInteger(0, Four);
    WeightRounds(c);
  }

  lemma WeightedScoreBounded(source: Assessments, c: Criterion)
    ensures 0.0 <= WeightedScore(source, c) <= Weight(c)
  {
    if c in source {
      CriterionScoreBounded(source[c]);
      WeighBounded(CriterionScore(source[c]), c);
    }
  }

  lemma {:induction false} TotalBounded(source: Assessments, cs: seq<Criterion>)
    ensures 0.0 <= WeightedTotal(source, cs) <= Denominator(cs)
  {
    if cs != [] {
      TotalBounded(source, cs[..|cs| - 1]);
      WeightedScoreBounded(source, cs[|cs| - 1]);
    }
  }

  lemma {:induction false} DenominatorPositive(cs: seq<Criterion>)
    ensures Denominator(cs) >= 0.0 && (cs != [] ==> Denominator(cs) > 0.0)
  {
    if cs != [] {
      DenominatorPositive(cs[..|cs| - 1]);
    }
  }

  lemma RatioBounded(x: real, d: real)
    requires 0.0 <= x <= d && d > 0.0
    ensures 0.0 <= x / d <= 1.0
  {
  }

  lemma RatioMonotone(x: real, y: real, d: real)
    requires x <= y && d > 0.0
    ensures x / d <= y / d
  {
  }

  /** The score stays between 0 and 10 through all the roundings. */
  lemma ScoreBounded(source: Assessments)
    ensures 0.0 <= WeightedRaw(source) <= 1.0 && 0.0 <= Score10(source) <= 10.0
  {
    DenominatorPositive(CRITERIA);
    TotalBounded(source, CRITERIA);
    RatioBounded(WeightedTotal(source, CRITERIA), Denominator(CRITERIA));
    RoundBetween(WeightedTotal(source, CRITERIA) / Denominator(CRITERIA), 0, 1, Four);
    RoundBetween(WeightedRaw(source) * 10.0, 0, 10, One);
  }

  // ----- Monotonicity -----

  lemma WeightedScoreMonotone(s: Assessments, t: Assessments, c: Criterion)
    requires ScoreIn(s, c) <= ScoreIn(t, c)
    ensures WeightedScore(s, c) <= WeightedScore(t, c)
  {
    WeighMonotone(ScoreIn(s, c), ScoreIn(t, c), c);
    WeighEnds(c);
  }

  lemma {:induction false} TotalMonotone(s: Assessments, t: Assessments, cs: seq<Criterion>)
    requires forall c: Criterion :: ScoreIn(s, c) <= ScoreIn(t, c)
    ensures WeightedTotal(s, cs) <= WeightedTotal(t, cs)
  {
    if cs != [] {
      TotalMonotone(s, t, cs[..|cs| - 1]);
      WeightedScoreMonotone(s, t, cs[|cs| - 1]);
    }
  }

  /** Raising criteria never lowers the score and never makes the priority less urgent. */
  lemma ScoreMonotone(s: Assessments, t: Assessments)
    requires forall c: Criterion :: ScoreIn(s, c) <= ScoreIn(t, c)
    ensures Score10(s) <= Score10(t)
    ensures Urgency(PriorityFor(Score10(s))) <= Urgency(PriorityFor(Score10(t)))
  {
    var d := Denominator(CRITERIA);
    DenominatorPositive(CRITERIA);
    TotalMonotone(s, t, CRITERIA);
    RatioMonotone(WeightedTotal(s, CRITERIA), WeightedTotal(t, CRITERIA), d);
    RoundMonotone(WeightedTotal(s, CRITERIA) / d, WeightedTotal(t, CRITERIA) / d, Four);
    RoundMonotone(WeightedRaw(s) * 10.0, WeightedRaw(t) * 10.0, One);
  }

  /** Supplying a missing criterion, whatever it says, never lowers the score. */
  lemma SuppliedNeverLowers(s: Assessments, c: Criterion, a: Assessment)
    requires c !in s
    ensures Score10(s) <= Score10(s[c := a])
    ensures Urgency(PriorityFor(Score10(s))) <= Urgency(PriorityFor(Score10(s[c := a])))
  {
    CriterionScoreBounded(a);
    ScoreMonotone(s, s[c := a]);
  }

  // ----- What the score is -----

  /** An explicit score counts as a share up to 1 and as a percentage up to 100, to four places; without one the
      rating decides. */
  lemma CriterionScoreValue(a: Assessment)
    ensures
      match a.score
      case Some(s) =>
        && (s < 0.0 ==> CriterionScore(a) == 0.0) && (0.0 <= s <= 1.0 ==> Near(CriterionScore(a), s, 0.00005))
        && (1.0 < s <= 100.0 ==> Near(CriterionScore(a), s / 100.0, 0.00005))
        && (s > 100.0 ==> CriterionScore(a) == 1.0)
      case None =>
        && (a.rating == Low ==> CriterionScore(a) == 0.2) && (a.rating == Medium ==> CriterionScore(a) == 0.5)
        && (a.rating == High ==> CriterionScore(a) == 0.75) && (a.rating == Critical ==> CriterionScore(a) == 1.0)
        && (a.rating == Unknown ==> CriterionScore(a) == 0.0)
  {
    match a.score
    case Some(s) =>
      RoundIsNear(Clamp(if 1.0 < s <= 100.0 then s / 100.0 else s, 0.0, 1.0), Four);
      RoundInteger(0, Four);
      RoundInteger(1, Four);
    case None =>
  }

  /** The weighted sum of the six criteria before any rounding. */
  function Exact(source: Assessments): real {
    ScoreIn(source, AssetValue) + 1.1 * ScoreIn(source, ProtectedInformation) + ScoreIn(source, CommunicationScope)
    + 0.8 * ScoreIn(source, SharingLevel) + 1.2 * ScoreIn(source, CriticalInfrastructure)
    + 1.6 * ScoreIn(source, ProtectionDuration)
  }

  lemma WeightedScoreNear(source: Assessments, c: Criterion, x: real)
    requires x == ScoreIn(source, c) * Weight(c)
    ensures Near(WeightedScore(source, c), x, 0.00005)
  {
    if c in source {
      RoundIsNear(x, Four);
    }
  }

  lemma TotalUnrolled(source: Assessments)
    ensures WeightedTotal(source, CRITERIA) ==
      WeightedScore(source, AssetValue) + WeightedScore(source, ProtectedInformation)
      + WeightedScore(source, CommunicationScope) + WeightedScore(source, SharingLevel)
      + WeightedScore(source, CriticalInfrastructure) + WeightedScore(source, ProtectionDuration)
    ensures Denominator(CRITERIA) == 6.7
  {
    var one, two, three := [AssetValue], [AssetValue, ProtectedInformation],
      [AssetValue, ProtectedInformation, CommunicationScope];
    var four, five := three + [SharingLevel], three + [SharingLevel, CriticalInfrastructure];
    assert CRITERIA[..5] == five && five[..4] == four && four[..3] == three && three[..2] == two && two[..1] == one;
    assert one[..0] == [];
    assert WeightedTotal(source, one) == WeightedScore(source, AssetValue) && Denominator(one) == 1.0;
    assert WeightedTotal(source, two) == WeightedTotal(source, one) + WeightedScore(source, ProtectedInformation);
    assert Denominator(two) == 2.1 && Denominator(three) == 3.1 && Denominator(four) == 3.9 && Denominator(five) == 5.1;
    assert WeightedTotal(source, three) == WeightedTotal(source, two) + WeightedScore(source, CommunicationScope);
    assert WeightedTotal(source, four) == WeightedTotal(source, three) + WeightedScore(source, SharingLevel);
    assert WeightedTotal(source, five) == WeightedTotal(source, four) + WeightedScore(source, CriticalInfrastructure);
  }

  lemma TotalNear(source: Assessments)
    ensures Near(WeightedTotal(source, CRITERIA), Exact(source), 0.0003)
  {
    TotalUnrolled(source);
    WeightedScoreNear(source, AssetValue, ScoreIn(source, AssetValue));
    WeightedScoreNear(source, ProtectedInformation, 1.1 * ScoreIn(source, ProtectedInformation));
    WeightedScoreNear(source, CommunicationScope, ScoreIn(source, CommunicationScope));
    WeightedScoreNear(source, SharingLevel, 0.8 * ScoreIn(source, SharingLevel));
    WeightedScoreNear(source, CriticalInfrastructure, 1.2 * ScoreIn(source, CriticalInfrastructure));
    WeightedScoreNear(source, ProtectionDuration, 1.6 * ScoreIn(source, ProtectionDuration));
  }

  /** Eight roundings away from the weighted mean of the six criteria, the score is off by less than 0.051. */
  lemma ScoreIsMean(source: Assessments)
    ensures Near(Score10(source), 10.0 * Exact(source) / 6.7, 0.051)
  {
    var total, exact := WeightedTotal(source, CRITERIA), Exact(source);
    TotalUnrolled(source);
    TotalNear(source);
    RoundIsNear(total / 6.7, Four);
    RoundIsNear(WeightedRaw(source) * 10.0, One);
    assert Near(total / 6.7, exact / 6.7, 0.00005);
    assert 10.0 * (exact / 6.7) == 10.0 * exact / 6.7;
  }

  /** P1 from 8 up, P2 from 5 up, P3 below. */
  lemma PriorityBands(x: real)
    ensures PriorityFor(x) == P1 <==> x >= 8.0
    ensures PriorityFor(x) == P2 <==> 5.0 <= x < 8.0
    ensures PriorityFor(x) == P3 <==> x < 5.0
  {
  }

  // ----- The loop -----

  /** A pass over the criteria. */
  method Accumulate(source: Assessments, cs: seq<Criterion>)
    returns (total: real, criteria: map<Criterion, Scored>, missing: seq<Criterion>)
    ensures total == WeightedTotal(source, cs) && missing == MissingFrom(source, cs)
    ensures forall c :: c in cs ==>
              c in criteria && criteria[c] == Scored(ScoreIn(source, c), WeightedScore(source, c))
  {
    total, criteria, missing := 0.0, map[], [];
    for i := 0 to |cs|
      invariant total == WeightedTotal(source, cs[..i]) && missing == MissingFrom(source, cs[..i])
      invariant forall c :: c in cs[..i] ==>
        c in criteria && criteria[c] == Scored(ScoreIn(source, c), WeightedScore(source, c))
    {
      var c := cs[i];
      assert cs[..i + 1][..i] == cs[..i];
      if c !in source {
        missing := missing + [c];
        criteria := criteria[c := Scored(0.0, 0.0)];
      } else {
        assert missing + [] == missing;
        var score := CriterionScore(source[c]);
        var weighted := Weigh(score, c);
        total := total + weighted;
        criteria := criteria[c := Scored(score, weighted)];
      }
    }
    assert cs[..|cs|] == cs;
  }

  method ComputeDhsRisk(source: Assessments) returns (r: Dhs)
    ensures r.score10 == Score10(source) && r.priority == PriorityFor(Score10(source))
    ensures r.weightedRaw == WeightedRaw(source) && r.missing == MissingFrom(source, CRITERIA)
    ensures forall c: Criterion ::
              c in r.criteria && r.criteria[c] == Scored(ScoreIn(source, c), WeightedScore(source, c))
  {
    var denominator := Denominator(CRITERIA);
    var total, criteria, missing := Accumulate(source, CRITERIA);
    forall c: Criterion
      ensures c in criteria && criteria[c] == Scored(ScoreIn(source, c), WeightedScore(source, c))
    {
      assert CRITERIA[Position(c)] == c;
    }
    var raw := if denominator != 0.0 then Round(total / denominator, Four) else 0.0;
    var score10 := Round(raw * 10.0, One);
    r := Dhs(score10, PriorityFor(score10), raw, criteria, missing);
  }

  lemma {:induction false} MissingFromExactly(source: Assessments, cs: seq<Criterion>, c: Criterion)
    ensures c in MissingFrom(source, cs) <==> c in cs && c !in source
  {
    if cs != [] {
      MissingFromExactly(source, cs[..|cs| - 1], c);
      assert c in cs <==> c in cs[..|cs| - 1] || c == cs[|cs| - 1];
    }
  }

  /** Exactly the criteria without an assessment are missing. */
  lemma MissingExactly(source: Assessments, c: Criterion)
    ensures c in MissingFrom(source, CRITERIA) <==> c !in source
  {
    MissingFromExactly(source, CRITERIA, c);
    assert CRITERIA[Position(c)] == c;
  }

  function Position(c: Criterion): nat {
    match c
    case AssetValue => 0 case ProtectedInformation => 1 case CommunicationScope => 2
    case SharingLevel => 3 case CriticalInfrastructure => 4 case ProtectionDuration => 5
  }
}
