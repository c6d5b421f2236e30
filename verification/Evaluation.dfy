/** Evaluation of one asset's performance metrics against a baseline and thresholds. */
module Evaluation {
  import opened Basics
  import opened Json
  import opened Rounding
  import opened Metrics

  datatype Limits = Limits(warn: real, fail: real)

  datatype Thresholds = Thresholds(latency: Limits, failure: Limits, success: Limits, timeout: Limits, bytes: Limits,
      throughput: Limits)

  /** What is compared with the baseline. */
  datatype Series = OfLatency(latency: Latency) | OfThroughput(throughput: Throughput) | HandshakeBytes

  const SERIES: seq<Series> := [
    OfLatency(TcpConnect), OfLatency(Handshake), OfLatency(TimeToFirstByte), OfLatency(TotalRequest),
    OfThroughput(ThroughputRps), OfThroughput(RequestsPerSecond), OfThroughput(ConnectionsPerSecond), HandshakeBytes]

  datatype Delta = Delta(series: Series, percent: real)

  datatype Reason = Compatibility | RateBelow(rate: Name) | RateAbove(rate: Name) | Client(profile: string)
      | Changed(series: Series)

  /** The outcome is `Warn` or `Fail`. */
  datatype Signal = Signal(level: Outcome, reason: Reason, value: Option<real>)

  datatype Advice = Proceed | CanaryMore | RollBackOrReview | ManualReview

  datatype Evaluated = Evaluated(status: Outcome, deltas: seq<Delta>, signals: seq<Signal>, advice: Advice)

  // ----- Deltas -----

  function SeriesValue(m: Object, s: Series): Option<real> {
    match s
    case OfLatency(l) =>
      var v := Get(m, LatencyOf(l));
      if v.JObj? then Number(Get(v.fields, P95)) else Number(v)
    case OfThroughput(t) => Number(Get(m, ThroughputOf(t)))
    case HandshakeBytes =>
      var sent, received := Number(Get(m, BytesSent)), Number(Get(m, BytesReceived));
      if sent.None? && received.None? then None
      else Some((if sent.Some? then sent.value else 0.0) + if received.Some? then received.value else 0.0)
  }

  function PercentDelta(candidate: Option<real>, baseline: Option<real>): Option<real> {
    if candidate.None? || baseline.None? || baseline.value <= 0.0 then None
    else Some(Round((candidate.value - baseline.value) / baseline.value * 100.0, Two))
  }

  function Deltas(m: Object, base: Object, series: seq<Series>): seq<Delta> {
    if series == [] then []
    else
      var s := series[|series| - 1];
      var d := PercentDelta(SeriesValue(m, s), SeriesValue(base, s));
      Deltas(m, base, series[..|series| - 1]) + if d.Some? then [Delta(s, d.value)] else []
  }

  method CalculateDeltas(m: Object, base: Object) returns (deltas: seq<Delta>)
    ensures deltas == Deltas(m, base, SERIES)
  {
    deltas := [];
    var i := 0;
    while i < |SERIES|
      invariant i <= |SERIES| && deltas == Deltas(m, base, SERIES[..i])
    {
      var s := SERIES[i];
      var d := PercentDelta(SeriesValue(m, s), SeriesValue(base, s));
      var found: seq<Delta> := [];
      if d.Some? {
        found := [Delta(s, d.value)];
      }
      assert SERIES[..i + 1][..i] == SERIES[..i];
      deltas := deltas + found;
      i := i + 1;
    }
    assert SERIES[..i] == SERIES;
  }

  /** Both values exist and the baseline is positive. */
  predicate Comparable(m: Object, base: Object, s: Series) {
    SeriesValue(m, s).Some? && SeriesValue(base, s).Some? && SeriesValue(base, s).value > 0.0
  }

  /** The fields each series is read from: a latency is a number or has a p95, the handshake bytes are those sent and
      those received, either counting as zero when absent. */
  lemma SeriesReads(m: Object, l: Latency, h: Throughput, v: real)
    ensures SeriesValue(m, OfLatency(l)) == Some(v) <==>
      var x := Get(m, LatencyOf(l)); x == JNum(v) || (x.JObj? && Get(x.fields, P95) == JNum(v))
    ensures SeriesValue(m, OfThroughput(h)) == Some(v) <==> Get(m, ThroughputOf(h)) == JNum(v)
    ensures SeriesValue(m, HandshakeBytes) == Some(v) <==>
      var sent, received := Get(m, BytesSent), Get(m, BytesReceived);
      || (sent.JNum? && received.JNum? && v == sent.r + received.r)
      || (sent.JNum? && !received.JNum? && v == sent.r)
      || (!sent.JNum? && received.JNum? && v == received.r)
  {
  }

  /** The deltas are those of the comparable series, each with its rounded change in percent of the baseline. */
  lemma {:induction false} DeltasExact(m: Object, base: Object, series: seq<Series>, d: Delta)
    ensures d in Deltas(m, base, series) <==>
      d.series in series && Comparable(m, base, d.series)
      && var from := SeriesValue(base, d.series).value;
         d.percent == Round((SeriesValue(m, d.series).value - from) / from * 100.0, Two)
  {
    if series != [] {
      DeltasExact(m, base, series[..|series| - 1], d);
    }
  }

  /** In the order of the series. */
  function SeriesOf(deltas: seq<Delta>): (r: seq<Series>)
    ensures |r| == |deltas| && forall i :: 0 <= i < |r| ==> r[i] == deltas[i].series
  {
    seq(|deltas|, i requires 0 <= i < |deltas| => deltas[i].series)
  }

  function ComparableIn(m: Object, base: Object, series: seq<Series>): seq<Series> {
    if series == [] then []
    else
      ComparableIn(m, base, series[..|series| - 1])
      + if Comparable(m, base, series[|series| - 1]) then [series[|series| - 1]] else []
  }

  lemma {:induction false} DeltasInOrder(m: Object, base: Object, series: seq<Series>)
    ensures SeriesOf(Deltas(m, base, series)) == ComparableIn(m, base, series)
  {
    if series != [] {
      DeltasInOrder(m, base, series[..|series| - 1]);
    }
  }

  // ----- Signals -----

  function Above(reason: Reason, v: real, l: Limits): seq<Signal> {
    if v > l.fail then [Signal(Fail, reason, Some(v))] else if v > l.warn then [Signal(Warn, reason, Some(v))] else []
  }

  function Below(reason: Reason, v: real, l: Limits): seq<Signal> {
    if v < l.fail then [Signal(Fail, reason, Some(v))] else if v < l.warn then [Signal(Warn, reason, Some(v))] else []
  }

  function Alarm(o: Outcome, reason: Reason): seq<Signal> {
    match o case Pass => [] case Warn => [Signal(Warn, reason, None)] case _ => [Signal(Fail, reason, None)]
  }

  function SuccessSignals(py: Python, m: Object, l: Limits): seq<Signal> {
    var key := SuccessRate(RateKind(py, m));
    match Number(Get(m, key))
    case Some(v) => Below(RateBelow(key), v, l)
    case None =>
      match Number(Get(m, AvailabilityRate))
      case Some(v) => Below(RateBelow(AvailabilityRate), v, l)
      case None => []
  }

  function Fields(v: Json): Object {
    if v.JObj? then v.fields else map[]
  }

  function ChecksOf(m: Object): seq<Json> {
    var v := Get(m, ClientCompatibility);
    if v.JList? then v.items else []
  }

  function CheckSignal(py: Python, check: Json): seq<Signal> {
    Alarm(OutcomeOf(py, Get(Fields(check), Status), Error),
        Client(Text(py, Or(Get(Fields(check), Profile), JStr("unknown")))))
  }

  function DeltaSignal(d: Delta, t: Thresholds): seq<Signal> {
    match d.series
    case OfThroughput(_) => Below(Changed(d.series), d.percent, Limits(-t.throughput.warn, -t.throughput.fail))
    case HandshakeBytes => Above(Changed(d.series), d.percent, t.bytes)
    case OfLatency(_) => Above(Changed(d.series), d.percent, t.latency)
  }

  function CheckSignals(py: Python, checks: seq<Json>): seq<Signal> {
    if checks == [] then []
    else CheckSignals(py, checks[..|checks| - 1]) + CheckSignal(py, checks[|checks| - 1])
  }

  function DeltaSignals(deltas: seq<Delta>, t: Thresholds): seq<Signal> {
    if deltas == [] then []
    else DeltaSignals(deltas[..|deltas| - 1], t) + DeltaSignal(deltas[|deltas| - 1], t)
  }

  function RateSignals(py: Python, m: Object, t: Thresholds): seq<Signal> {
    SuccessSignals(py, m, t.success)
    + Above(RateAbove(FailureRate), OrZero(Number(Get(m, FailureRate))), t.failure)
    + Above(RateAbove(TimeoutRate), OrZero(Number(Get(m, TimeoutRate))), t.timeout)
  }

  function Signals(py: Python, m: Object, deltas: seq<Delta>, compatibility: Outcome, t: Thresholds): seq<Signal> {
    Alarm(compatibility, Compatibility) + RateSignals(py, m, t) + CheckSignals(py, ChecksOf(m))
        + DeltaSignals(deltas, t)
  }

  method CollectSignals(py: Python, m: Object, deltas: seq<Delta>, compatibility: Outcome, t: Thresholds)
    returns (signals: seq<Signal>)
    ensures signals == Signals(py, m, deltas, compatibility, t)
  {
    signals := Alarm(compatibility, Compatibility) + RateSignals(py, m, t);
    signals := AppendCheckSignals(py, signals, ChecksOf(m));
    signals := AppendDeltaSignals(signals, deltas, t);
  }

  method AppendCheckSignals(py: Python, first: seq<Signal>, checks: seq<Json>) returns (signals: seq<Signal>)
    ensures signals == first + CheckSignals(py, checks)
  {
    signals := first;
    for i := 0 to |checks|
      invariant signals == first + CheckSignals(py, checks[..i])
    {
      assert checks[..i + 1][..i] == checks[..i];
      signals := signals + CheckSignal(py, checks[i]);
    }
    assert checks[..|checks|] == checks;
  }

  method AppendDeltaSignals(first: seq<Signal>, deltas: seq<Delta>, t: Thresholds) returns (signals: seq<Signal>)
    ensures signals == first + DeltaSignals(deltas, t)
  {
    signals := first;
    for i := 0 to |deltas|
      invariant signals == first + DeltaSignals(deltas[..i], t)
    {
      assert deltas[..i + 1][..i] == deltas[..i];
      signals := signals + DeltaSignal(deltas[i], t);
    }
    assert deltas[..|deltas|] == deltas;
  }

  // ----- When there is a signal -----

  predicate CrossesUp(v: real, l: Limits, level: Outcome) {
    (level == Fail && v > l.fail) || (level == Warn && l.warn < v <= l.fail)
  }

  predicate CrossesDown(v: real, l: Limits, level: Outcome) {
    (level == Fail && v < l.fail) || (level == Warn && l.fail <= v < l.warn)
  }

  /** The success rate that is judged: the protocol's own, or else the availability. */
  predicate Judged(py: Python, m: Object, rate: Name, v: real) {
    var own := SuccessRate(RateKind(py, m));
    || (rate == own && Number(Get(m, own)) == Some(v))
    || (rate == AvailabilityRate && Number(Get(m, own)).None? && Number(Get(m, AvailabilityRate)) == Some(v))
  }

  predicate Alarming(o: Outcome, level: Outcome) {
    (level == Warn && o == Warn) || (level == Fail && (o == Fail || o == Error))
  }

  predicate CheckAlarms(py: Python, check: Json, profile: string, level: Outcome) {
    && Alarming(OutcomeOf(py, Get(Fields(check), Status), Error), level)
    && profile == Text(py, Or(Get(Fields(check), Profile), JStr("unknown")))
  }

  predicate DeltaCrosses(d: Delta, t: Thresholds, level: Outcome) {
    match d.series
    case OfThroughput(_) => CrossesDown(d.percent, Limits(-t.throughput.warn, -t.throughput.fail), level)
    case HandshakeBytes => CrossesUp(d.percent, t.bytes, level)
    case OfLatency(_) => CrossesUp(d.percent, t.latency, level)
  }

  /** The threshold that a signal speaks of is crossed, at the level it gives. */
  predicate Crossed(py: Python, m: Object, deltas: seq<Delta>, compatibility: Outcome, t: Thresholds, x: Signal) {
    match x.reason
    case Compatibility => x.value == None && Alarming(compatibility, x.level)
    case RateBelow(rate) =>
      x.value.Some? && Judged(py, m, rate, x.value.value) && CrossesDown(x.value.value, t.success, x.level)
    case RateAbove(rate) => x.value.Some? && RateCrosses(m, rate, x.value.value, t, x.level)
    case Client(profile) => x.value == None && exists c :: c in ChecksOf(m) && CheckAlarms(py, c, profile, x.level)
    case Changed(series) =>
      && x.value.Some? && Delta(series, x.value.value) in deltas
      && DeltaCrosses(Delta(series, x.value.value), t, x.level)
  }

  predicate RateCrosses(m: Object, rate: Name, v: real, t: Thresholds, level: Outcome) {
    || (rate == FailureRate && v == OrZero(Number(Get(m, rate))) && CrossesUp(v, t.failure, level))
    || (rate == TimeoutRate && v == OrZero(Number(Get(m, rate))) && CrossesUp(v, t.timeout, level))
  }

  lemma {:induction false} CheckSignalsExact(py: Python, checks: seq<Json>, x: Signal)
    ensures x in CheckSignals(py, checks) <==>
      x.reason.Client? && x.value == None && exists c :: c in checks && CheckAlarms(py, c, x.reason.profile, x.level)
  {
    if checks != [] {
      var last := checks[|checks| - 1];
      CheckSignalsExact(py, checks[..|checks| - 1], x);
      assert forall c :: c in checks <==> c in checks[..|checks| - 1] || c == last;
      assert x in CheckSignal(py, last) <==>
        x.reason.Client? && x.value == None && CheckAlarms(py, last, x.reason.profile, x.level);
    }
  }

  lemma {:induction false} DeltaSignalsExact(deltas: seq<Delta>, t: Thresholds, x: Signal)
    ensures x in DeltaSignals(deltas, t) <==>
      x.reason.Changed? && x.value.Some? && Delta(x.reason.series, x.value.value) in deltas
      && DeltaCrosses(Delta(x.reason.series, x.value.value), t, x.level)
  {
    if deltas != [] {
      DeltaSignalsExact(deltas[..|deltas| - 1], t, x);
      DeltaSignalExact(deltas[|deltas| - 1], t, x);
    }
  }

  lemma DeltaSignalExact(d: Delta, t: Thresholds, x: Signal)
    ensures x in DeltaSignal(d, t) <==>
      x.reason == Changed(d.series) && x.value == Some(d.percent) && DeltaCrosses(d, t, x.level)
  {
  }

  lemma RateSignalsExact(py: Python, m: Object, t: Thresholds, x: Signal)
    ensures x in RateSignals(py, m, t) <==>
      x.value.Some?
      && ((x.reason.RateBelow? && Judged(py, m, x.reason.rate, x.value.value)
         && CrossesDown(x.value.value, t.success, x.level))
          || (x.reason.RateAbove? && RateCrosses(m, x.reason.rate, x.value.value, t, x.level)))
  {
    var failure := Above(RateAbove(FailureRate), OrZero(Number(Get(m, FailureRate))), t.failure);
    var timeout := Above(RateAbove(TimeoutRate), OrZero(Number(Get(m, TimeoutRate))), t.timeout);
    assert x in RateSignals(py, m, t) <==> x in SuccessSignals(py, m, t.success) || x in failure || x in timeout;
  }

  /** A signal is given exactly when its threshold is crossed. */
  lemma SignalsExact(py: Python, m: Object, deltas: seq<Delta>, compatibility: Outcome, t: Thresholds, x: Signal)
    ensures x in Signals(py, m, deltas, compatibility, t) <==> Crossed(py, m, deltas, compatibility, t, x)
  {
    RateSignalsExact(py, m, t, x);
    CheckSignalsExact(py, ChecksOf(m), x);
    DeltaSignalsExact(deltas, t, x);
    var alarm := Alarm(compatibility, Compatibility);
    assert x in Signals(py, m, deltas, compatibility, t) <==>
      x in alarm || x in RateSignals(py, m, t) || x in CheckSignals(py, ChecksOf(m)) || x in DeltaSignals(deltas, t);
  }

  // ----- Status -----

  function StatusOf(signals: seq<Signal>): Outcome {
    if exists s :: s in signals && s.level == Fail then Fail
    else if exists s :: s in signals && s.level == Warn then Warn
    else Pass
  }

  function Evaluate(py: Python, m: Object, base: Object, compatibility: Outcome, t: Thresholds): Evaluated {
    var metrics, baseline := Normalized(py, m), Normalized(py, base);
    var deltas := Deltas(metrics, baseline, SERIES);
    var signals := Signals(py, metrics, deltas, compatibility, t);
    Evaluated(StatusOf(signals), deltas, signals, AdviceFor(StatusOf(signals), compatibility))
  }

  function AdviceFor(status: Outcome, compatibility: Outcome): Advice {
    if compatibility == Error then ManualReview
    else match status case Fail => RollBackOrReview case Warn => CanaryMore case _ => Proceed
  }

  method EvaluateAssetPerformance(py: Python, m: Object, base: Object, compatibility: Outcome, t: Thresholds)
    returns (e: Evaluated)
    ensures e == Evaluate(py, m, base, compatibility, t)
  {
    var metrics := NormalizeAvailabilityMetrics(py, m);
    var baseline := NormalizeAvailabilityMetrics(py, base);
    var deltas := CalculateDeltas(metrics, baseline);
    var signals := CollectSignals(py, metrics, deltas, compatibility, t);
    e := Evaluated(StatusOf(signals), deltas, signals, AdviceFor(StatusOf(signals), compatibility));
  }

  /** Metrics and baseline may each come raw or already normalised. */
  lemma EvaluateNormalized(py: Python, m: Object, base: Object, compatibility: Outcome, t: Thresholds)
    requires Sound(py)
    ensures Evaluate(py, Normalized(py, m), base, compatibility, t) == Evaluate(py, m, base, compatibility, t)
    ensures Evaluate(py, m, Normalized(py, base), compatibility, t) == Evaluate(py, m, base, compatibility, t)
  {
    NormalizeIdempotent(py, m);
    NormalizeIdempotent(py, base);
  }

  lemma StatusByCrossing(signals: seq<Signal>, crossed: Signal -> bool)
    requires forall x :: x in signals <==> crossed(x)
    requires forall x :: crossed(x) ==> x.level == Fail || x.level == Warn
    ensures StatusOf(signals) == Fail <==> exists x :: crossed(x) && x.level == Fail
    ensures StatusOf(signals) == Pass <==> forall x :: !crossed(x)
    ensures StatusOf(signals) != Error
  {
  }

  function Crossings(py: Python, m: Object, deltas: seq<Delta>, compatibility: Outcome, t: Thresholds): Signal -> bool {
    x => Crossed(py, m, deltas, compatibility, t, x)
  }

  lemma CrossedLevel(py: Python, m: Object, deltas: seq<Delta>, compatibility: Outcome, t: Thresholds, x: Signal)
    requires Crossed(py, m, deltas, compatibility, t, x)
    ensures x.level == Fail || x.level == Warn
  {
  }

  /** The status is the worst level at which any threshold is crossed: Fail, Warn, or Pass if none is. */
  lemma StatusExactly(py: Python, m: Object, deltas: seq<Delta>, compatibility: Outcome, t: Thresholds)
    ensures
      var status, crossed := StatusOf(Signals(py, m, deltas, compatibility, t)),
          Crossings(py, m, deltas, compatibility, t);
      && status != Error
      && (status == Fail <==> exists x :: crossed(x) && x.level == Fail)
      && (status == Pass <==> forall x :: !crossed(x))
  {
    var crossed := Crossings(py, m, deltas, compatibility, t);
    forall x
      ensures x in Signals(py, m, deltas, compatibility, t) <==> crossed(x)
      ensures crossed(x) ==> x.level == Fail || x.level == Warn
    {
      SignalsExact(py, m, deltas, compatibility, t, x);
      if crossed(x) {
        CrossedLevel(py, m, deltas, compatibility, t, x);
      }
    }
    StatusByCrossing(Signals(py, m, deltas, compatibility, t), crossed);
  }

  /** Errors need a manual review whatever the status; otherwise the status decides. */
  lemma AdviceExactly(py: Python, m: Object, base: Object, compatibility: Outcome, t: Thresholds)
    ensures
      var e := Evaluate(py, m, base, compatibility, t);
      && (e.advice == ManualReview <==> compatibility == Error)
      && (e.advice == RollBackOrReview <==> compatibility != Error && e.status == Fail)
      && (e.advice == CanaryMore <==> compatibility != Error && e.status == Warn)
      && e.status == StatusOf(e.signals)
  {
  }

  // ----- Looser thresholds -----

  function Rank(o: Outcome): nat {
    match o case Pass => 0 case Warn => 1 case Fail => 2 case Error => 3
  }

  predicate Looser(t: Thresholds, u: Thresholds) {
    && LooserMax(t.latency, u.latency) && LooserMax(t.failure, u.failure) && LooserMax(t.timeout, u.timeout)
    && LooserMax(t.bytes, u.bytes) && LooserMax(t.throughput, u.throughput) && LooserMax(u.success, t.success)
  }

  predicate LooserMax(t: Limits, u: Limits) {
    t.warn <= u.warn && t.fail <= u.fail
  }

  lemma StatusConcat(a: seq<Signal>, b: seq<Signal>)
    ensures Rank(StatusOf(a + b)) == if Rank(StatusOf(a)) > Rank(StatusOf(b)) then Rank(StatusOf(a))
        else Rank(StatusOf(b))
  {
    assert forall s :: s in a + b <==> s in a || s in b;
  }

  lemma AboveLooser(reason: Reason, v: real, l: Limits, k: Limits)
    requires LooserMax(l, k)
    ensures Rank(StatusOf(Above(reason, v, k))) <= Rank(StatusOf(Above(reason, v, l)))
  {
    StatusSingle(reason, Some(v));
  }

  lemma BelowLooser(reason: Reason, v: real, l: Limits, k: Limits)
    requires LooserMax(k, l)
    ensures Rank(StatusOf(Below(reason, v, k))) <= Rank(StatusOf(Below(reason, v, l)))
  {
    StatusSingle(reason, Some(v));
  }

  lemma StatusSingle(reason: Reason, v: Option<real>)
    ensures StatusOf([]) == Pass
    ensures StatusOf([Signal(Fail, reason, v)]) == Fail && StatusOf([Signal(Warn, reason, v)]) == Warn
  {
    assert Signal(Fail, reason, v) in [Signal(Fail, reason, v)];
    assert Signal(Warn, reason, v) in [Signal(Warn, reason, v)];
  }

  lemma SuccessLooser(py: Python, m: Object, l: Limits, k: Limits)
    requires LooserMax(k, l)
    ensures Rank(StatusOf(SuccessSignals(py, m, k))) <= Rank(StatusOf(SuccessSignals(py, m, l)))
  {
    var key := SuccessRate(RateKind(py, m));
    match Number(Get(m, key))
    case Some(v) => BelowLooser(RateBelow(key), v, l, k);
    case None =>
      match Number(Get(m, AvailabilityRate))
      case Some(v) => BelowLooser(RateBelow(AvailabilityRate), v, l, k);
      case None =>
  }

  lemma RatesLooser(py: Python, m: Object, t: Thresholds, u: Thresholds)
    requires Looser(t, u)
    ensures Rank(StatusOf(RateSignals(py, m, u))) <= Rank(StatusOf(RateSignals(py, m, t)))
  {
    SuccessLooser(py, m, t.success, u.success);
    var f, o := OrZero(Number(Get(m, FailureRate))), OrZero(Number(Get(m, TimeoutRate)));
    AboveLooser(RateAbove(FailureRate), f, t.failure, u.failure);
    AboveLooser(RateAbove(TimeoutRate), o, t.timeout, u.timeout);
    StatusConcat(SuccessSignals(py, m, t.success), Above(RateAbove(FailureRate), f, t.failure));
    StatusConcat(SuccessSignals(py, m, u.success), Above(RateAbove(FailureRate), f, u.failure));
    StatusConcat(SuccessSignals(py, m, t.success) + Above(RateAbove(FailureRate), f, t.failure),
        Above(RateAbove(TimeoutRate), o, t.timeout));
    StatusConcat(SuccessSignals(py, m, u.success) + Above(RateAbove(FailureRate), f, u.failure),
        Above(RateAbove(TimeoutRate), o, u.timeout));
  }

  lemma {:induction false} DeltasLooser(deltas: seq<Delta>, t: Thresholds, u: Thresholds)
    requires Looser(t, u)
    ensures Rank(StatusOf(DeltaSignals(deltas, u))) <= Rank(StatusOf(DeltaSignals(deltas, t)))
  {
    if deltas != [] {
      var n := |deltas| - 1;
      var d := deltas[n];
      DeltasLooser(deltas[..n], t, u);
      match d.series {
        case OfThroughput(_) =>
          BelowLooser(Changed(d.series), d.percent, Limits(-t.throughput.warn, -t.throughput.fail),
              Limits(-u.throughput.warn, -u.throughput.fail));
        case HandshakeBytes => AboveLooser(Changed(d.series), d.percent, t.bytes, u.bytes);
        case OfLatency(_) => AboveLooser(Changed(d.series), d.percent, t.latency, u.latency);
      }
      StatusConcat(DeltaSignals(deltas[..n], t), DeltaSignal(d, t));
      StatusConcat(DeltaSignals(deltas[..n], u), DeltaSignal(d, u));
    }
  }

  lemma SignalsLooser(py: Python, m: Object, deltas: seq<Delta>, compatibility: Outcome, t: Thresholds, u: Thresholds)
    requires Looser(t, u)
    ensures Rank(StatusOf(Signals(py, m, deltas, compatibility, u)))
            <= Rank(StatusOf(Signals(py, m, deltas, compatibility, t)))
  {
    RatesLooser(py, m, t, u);
    DeltasLooser(deltas, t, u);
    SignalsRank(py, m, deltas, compatibility, t);
    SignalsRank(py, m, deltas, compatibility, u);
  }

  function Max(a: nat, b: nat): nat {
    if a > b then a else b
  }

  lemma SignalsRank(py: Python, m: Object, deltas: seq<Delta>, compatibility: Outcome, t: Thresholds)
    ensures Rank(StatusOf(Signals(py, m, deltas, compatibility, t))) ==
      Max(Max(Max(Rank(StatusOf(Alarm(compatibility, Compatibility))), Rank(StatusOf(RateSignals(py, m, t)))),
        Rank(StatusOf(CheckSignals(py, ChecksOf(m))))), Rank(StatusOf(DeltaSignals(deltas, t))))
  {
    var a, b, c, d := Alarm(compatibility, Compatibility), RateSignals(py, m, t), CheckSignals(py, ChecksOf(m)),
        DeltaSignals(deltas, t);
    StatusConcat(a, b);
    StatusConcat(a + b, c);
    StatusConcat(a + b + c, d);
  }

  /** Loosening thresholds never worsens the status, whether or not each warn limit is inside its fail limit. */
  lemma LooserIsMilder(py: Python, m: Object, base: Object, compatibility: Outcome, t: Thresholds, u: Thresholds)
    requires Looser(t, u)
    ensures Rank(Evaluate(py, m, base, compatibility, u).status) <= Rank(Evaluate(py, m, base, compatibility, t).status)
  {
    var metrics := Normalized(py, m);
    SignalsLooser(py, metrics, Deltas(metrics, Normalized(py, base), SERIES), compatibility, t, u);
  }
}
