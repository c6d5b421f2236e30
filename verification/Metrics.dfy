/** Normalisation of availability metrics before they are evaluated. */
module Metrics {
  import opened Basics
  import opened Json
  import opened Rounding

  datatype Outcome = Pass | Warn | Fail | Error

  function Spelling(o: Outcome): string {
    match o case Pass => "PASS" case Warn => "WARN" case Fail => "FAIL" case Error => "ERROR"
  }

  /** The outcome an upper-case word stands for, aliases included. */
  function Meaning(word: string): Option<Outcome> {
    if word == "PASS" || word == "OK" || word == "SUCCESS" || word == "PASSED" then Some(Pass)
    else if word == "WARN" || word == "PARTIAL" then Some(Warn)
    else if word == "FAIL" || word == "FAILED" || word == "UNREACHABLE" then Some(Fail)
    else if word == "ERROR" then Some(Error)
    else None
  }

  lemma SpellingMeans(o: Outcome)
    ensures Meaning(Spelling(o)) == Some(o)
  {
    match o
    case Pass =>
    case Warn => assert Spelling(o)[0] == 'W';
    case Fail => assert Spelling(o)[0] == 'F';
    case Error => assert Spelling(o)[0] == 'E';
  }

  /** What is used of the text library: stripping and upper-casing settle at once, and leave the four outcomes as they
      are. */
  ghost predicate Sound(py: Python) {
    && (forall s :: py.strip(py.strip(s)) == py.strip(s))
    && (forall s :: py.upper(py.upper(s)) == py.upper(s))
    && (forall o :: py.upper(py.strip(Spelling(o))) == Spelling(o))
  }

  function OutcomeOf(py: Python, v: Json, default: Outcome): Outcome {
    match Meaning(py.upper(py.strip(Text(py, Or(v, JStr(Spelling(default)))))))
    case Some(o) => o
    case None => default
  }

  lemma OutcomeReads(py: Python, o: Outcome, default: Outcome)
    requires Sound(py)
    ensures OutcomeOf(py, JStr(Spelling(o)), default) == o
  {
    SpellingMeans(o);
    assert py.upper(py.strip(Spelling(o))) == Spelling(o);
  }

  // ----- Text fields -----

  function WithText(py: Python, m: Object, key: Name): Object {
    if Get(m, key) == JNull then m
    else
      var text := py.strip(Text(py, Get(m, key)));
      if text != "" then m[key := JStr(text)] else m - {key}
  }

  predicate TextSettled(py: Python, v: Json) {
    v == JNull || (v.JStr? && v.s != "" && py.strip(v.s) == v.s)
  }

  lemma TextSettles(py: Python, m: Object, key: Name)
    requires Sound(py)
    ensures TextSettled(py, Get(WithText(py, m, key), key))
    ensures TextSettled(py, Get(m, key)) ==> WithText(py, m, key) == m
    ensures forall k :: k != key ==>
              (k in WithText(py, m, key) <==> k in m) && Get(WithText(py, m, key), k) == Get(m, k)
  {
  }

  method NormalizeText(py: Python, m: Object, key: Name) returns (r: Object)
    ensures r == WithText(py, m, key)
  {
    r := m;
    var value := Get(m, key);
    if value != JNull {
      var normalized := py.strip(Text(py, value));
      if normalized != "" {
        r := r[key := JStr(normalized)];
      } else {
        r := r - {key};
      }
    }
  }

  // ----- Client checks -----

  /** The entry of a dictionary of checks, as an element of a list of checks. */
  function AsCheck(py: Python, profile: Name, raw: Json): Json {
    var name := JStr(py.spell(profile));
    if raw.JObj? then JObj(raw.fields[Profile := Or(Get(raw.fields, Profile), name)])
    else JObj(map[Profile := name, Status := raw])
  }

  function RawChecks(py: Python, v: Json): seq<Json> {
    match v
    case JObj(fields) =>
      var order := py.order(fields);
      seq(|order|, i requires 0 <= i < |order| => AsCheck(py, order[i], Get(fields, order[i])))
    case JList(items) => items
    case _ => []
  }

  function ProfileOf(py: Python, raw: Object): string {
    py.strip(Text(py, Or(Or(Or(Get(raw, Profile), Get(raw, ClientProfile)), Get(raw, PlainName)), JStr(""))))
  }

  function CheckOutcome(py: Python, raw: Object): Outcome {
    if Get(raw, Status) == JNull && Get(raw, CompatibilityStatus) == JNull && Get(raw, Success).JBool?
    then if Get(raw, Success).b then Pass else Fail
    else OutcomeOf(py, Or(Get(raw, Status), Get(raw, CompatibilityStatus)), Pass)
  }

  function Check(py: Python, raw: Object): Object {
    WithText(py, WithText(py, raw[Profile := JStr(ProfileOf(py, raw))][Status := JStr(Spelling(CheckOutcome(py, raw)))],
      ResponseCode), FailureReason)
  }

  predicate Usable(py: Python, raw: Json) {
    raw.JObj? && ProfileOf(py, raw.fields) != ""
  }

  function Checks(py: Python, raws: seq<Json>): (r: seq<Json>) {
    if raws == [] then []
    else
      var last := raws[|raws| - 1];
      Checks(py, raws[..|raws| - 1]) + if Usable(py, last) then [JObj(Check(py, last.fields))] else []
  }

  /** A check whose profile, status and texts are as normalisation leaves them. */
  predicate CheckSettled(py: Python, c: Object, profile: string, o: Outcome) {
    && Profile in c && c[Profile] == JStr(profile) && Status in c && c[Status] == JStr(Spelling(o))
    && TextSettled(py, Get(c, ResponseCode)) && TextSettled(py, Get(c, FailureReason))
  }

  lemma CheckSettles(py: Python, raw: Object)
    requires Sound(py)
    ensures CheckSettled(py, Check(py, raw), ProfileOf(py, raw), CheckOutcome(py, raw))
  {
    var profile, status := JStr(ProfileOf(py, raw)), JStr(Spelling(CheckOutcome(py, raw)));
    var base := raw[Profile := profile][Status := status];
    TextSettles(py, base, ResponseCode);
    var c := WithText(py, base, ResponseCode);
    assert Profile in c && c[Profile] == profile && Status in c && c[Status] == status;
    TextSettles(py, c, FailureReason);
  }

  lemma SettledCheckReads(py: Python, c: Object, profile: string, o: Outcome)
    requires Sound(py) && CheckSettled(py, c, profile, o) && profile != "" && py.strip(profile) == profile
    ensures ProfileOf(py, c) == profile && CheckOutcome(py, c) == o
  {
    OutcomeReads(py, o, Pass);
    assert Spelling(o) != "";
  }

  lemma SettledCheckStays(py: Python, c: Object, profile: string, o: Outcome)
    requires Sound(py) && CheckSettled(py, c, profile, o) && ProfileOf(py, c) == profile && CheckOutcome(py, c) == o
    ensures Check(py, c) == c
  {
    assert c[Profile := JStr(profile)][Status := JStr(Spelling(o))] == c;
    TextSettles(py, c, ResponseCode);
    TextSettles(py, c, FailureReason);
  }

  lemma CheckIdempotent(py: Python, raw: Object)
    requires Sound(py) && ProfileOf(py, raw) != ""
    ensures Usable(py, JObj(Check(py, raw))) && Check(py, Check(py, raw)) == Check(py, raw)
  {
    CheckSettles(py, raw);
    SettledCheckReads(py, Check(py, raw), ProfileOf(py, raw), CheckOutcome(py, raw));
    SettledCheckStays(py, Check(py, raw), ProfileOf(py, raw), CheckOutcome(py, raw));
  }

  lemma {:induction false} ChecksIdempotent(py: Python, raws: seq<Json>)
    requires Sound(py)
    ensures Checks(py, Checks(py, raws)) == Checks(py, raws)
  {
    if raws != [] {
      var n := |raws| - 1;
      ChecksIdempotent(py, raws[..n]);
      var before := Checks(py, raws[..n]);
      if Usable(py, raws[n]) {
        CheckIdempotent(py, raws[n].fields);
        assert Checks(py, raws) == before + [JObj(Check(py, raws[n].fields))];
        assert Checks(py, raws)[..|before|] == before;
      } else {
        assert Checks(py, raws) == before;
      }
    }
  }

  /** A normalised check names its client, has one of the four outcomes, and keeps no blank text. */
  ghost predicate Normal(py: Python, check: Json) {
    && check.JObj?
    && exists profile, o ::
         profile != "" && py.strip(profile) == profile && CheckSettled(py, check.fields, profile, o)
  }

  lemma {:induction false} ChecksAreNormal(py: Python, raws: seq<Json>)
    requires Sound(py)
    ensures forall c :: c in Checks(py, raws) ==> Normal(py, c)
  {
    if raws != [] {
      var last := raws[|raws| - 1];
      ChecksAreNormal(py, raws[..|raws| - 1]);
      if Usable(py, last) {
        CheckSettles(py, last.fields);
        assert Normal(py, JObj(Check(py, last.fields)));
      }
    }
  }

  method NormalizeClientCompatibility(py: Python, v: Json) returns (checks: seq<Json>)
    ensures checks == Checks(py, RawChecks(py, v))
  {
    var raws := RawChecks(py, v);
    checks := [];
    var i := 0;
    while i < |raws|
      invariant i <= |raws| && checks == Checks(py, raws[..i])
    {
      var found: seq<Json> := [];
      if raws[i].JObj? {
        var raw := raws[i].fields;
        var profile := ProfileOf(py, raw);
        if profile != "" {
          var status := OutcomeOf(py, Or(Get(raw, Status), Get(raw, CompatibilityStatus)), Pass);
          if Get(raw, Status) == JNull && Get(raw, CompatibilityStatus) == JNull && Get(raw, Success).JBool? {
            status := if Get(raw, Success).b then Pass else Fail;
          }
          var check := raw[Profile := JStr(profile)][Status := JStr(Spelling(status))];
          check := NormalizeText(py, check, ResponseCode);
          check := NormalizeText(py, check, FailureReason);
          found := [JObj(check)];
        }
      }
      assert raws[..i + 1][..i] == raws[..i];
      checks := checks + found;
      i := i + 1;
    }
    assert raws[..i] == raws;
  }

  // ----- Protocol, texts and checks together -----

  function WithProtocol(py: Python, m: Object): Object {
    if Truthy(Get(m, Protocol)) then m[Protocol := JStr(py.upper(Text(py, m[Protocol])))] else m
  }

  function WithChecks(py: Python, m: Object): Object {
    var checks := Checks(py, RawChecks(py, Get(m, ClientCompatibility)));
    if checks != [] then m[ClientCompatibility := JList(checks)] else m - {ClientCompatibility}
  }

  function Cleaned(py: Python, m: Object): Object {
    WithChecks(py, WithText(py, WithText(py, WithProtocol(py, m), ResponseCode), FailureReason))
  }

  predicate ProtocolSettled(py: Python, v: Json) {
    Truthy(v) ==> v.JStr? && py.upper(v.s) == v.s
  }

  predicate ChecksSettled(py: Python, m: Object) {
    ClientCompatibility in m ==>
      var v := m[ClientCompatibility];
      v.JList? && v.items != [] && Checks(py, v.items) == v.items
  }

  predicate Clean(py: Python, m: Object) {
    && ProtocolSettled(py, Get(m, Protocol))
    && TextSettled(py, Get(m, ResponseCode)) && TextSettled(py, Get(m, FailureReason))
    && ChecksSettled(py, m)
  }

  lemma ChecksSettle(py: Python, m: Object)
    requires Sound(py)
    ensures ChecksSettled(py, WithChecks(py, m))
    ensures forall k :: k != ClientCompatibility ==> Get(WithChecks(py, m), k) == Get(m, k)
  {
    ChecksIdempotent(py, RawChecks(py, Get(m, ClientCompatibility)));
  }

  lemma ProtocolSettles(py: Python, m: Object)
    requires Sound(py)
    ensures ProtocolSettled(py, Get(WithProtocol(py, m), Protocol))
  {
  }

  lemma CleanedIsClean(py: Python, m: Object)
    requires Sound(py)
    ensures Clean(py, Cleaned(py, m))
  {
    var a := WithProtocol(py, m);
    var b := WithText(py, a, ResponseCode);
    var c := WithText(py, b, FailureReason);
    ProtocolSettles(py, m);
    TextSettles(py, a, ResponseCode);
    TextSettles(py, b, FailureReason);
    ChecksSettle(py, c);
  }

  lemma CleanStays(py: Python, m: Object)
    requires Sound(py) && Clean(py, m)
    ensures Cleaned(py, m) == m
  {
    assert WithProtocol(py, m) == m;
    TextSettles(py, m, ResponseCode);
    TextSettles(py, m, FailureReason);
    assert WithChecks(py, m) == m;
  }

  // ----- Counts and rates -----

  function Number(v: Json): Option<real> {
    if v.JNum? then Some(v.r) else None
  }

  /** `a or b` on optional numbers. */
  function EitherNumber(a: Option<real>, b: Option<real>): Option<real> {
    if a.Some? && a.value != 0.0 then a else b
  }

  function RateKind(py: Python, m: Object): Counted {
    if py.upper(Text(py, Or(Get(m, Protocol), JStr("")))) == "IKE" then Negotiations else Handshakes
  }

  /** The kind of attempt whose successes are counted. */
  function CountedKind(m: Object): Counted {
    if Number(Get(m, Successful(Handshakes))).Some? then Handshakes else Negotiations
  }

  function TotalIn(m: Object, k: Counted): Option<real> {
    var counted := EitherNumber(Number(Get(m, Total(k))), Number(Get(m, Attempted(k))));
    var success, failed := Number(Get(m, Successful(k))), Number(Get(m, Failed(k)));
    if counted.None? && success.Some? then Some(success.value + if failed.Some? then failed.value else 0.0) else counted
  }

  /** Successes out of a positive total. */
  function Attempts(m: Object): Option<(real, real)> {
    var success, total := Number(Get(m, Successful(CountedKind(m)))), TotalIn(m, CountedKind(m));
    if total.Some? && total.value > 0.0 && success.Some? then Some((success.value, total.value)) else None
  }

  function Rate(x: real): Json {
    JNum(Round(Clamp(x, 0.0, 1.0), Four))
  }

  function Default(m: Object, key: Name, v: Json): Object {
    if key in m then m else m[key := v]
  }

  function CountedRates(m: Object, kind: Counted, success: real, total: real): Object
    requires total > 0.0
  {
    var rate := Clamp(success / total, 0.0, 1.0);
    Default(Default(m[SuccessRate(kind) := JNum(Round(rate, Four))][AvailabilityRate := JNum(Round(rate, Four))],
      FailureRate, Rate(1.0 - rate)), Total(kind), JNum(total))
  }

  function StatedRates(m: Object, key: Name): Object {
    if AvailabilityRate !in m then
      match Number(Get(m, FailureRate))
      case Some(f) => Default(m[AvailabilityRate := Rate(1.0 - f)], key, Rate(1.0 - f))
      case None =>
        match Number(Get(m, key))
        case Some(d) => m[AvailabilityRate := Rate(d)]
        case None => m
    else Default(m, key, m[AvailabilityRate])
  }

  function Rates(py: Python, m: Object): Object {
    match Attempts(m)
    case Some((success, total)) => CountedRates(m, RateKind(py, m), success, total)
    case None => StatedRates(m, SuccessRate(RateKind(py, m)))
  }

  /** Only rates and totals are written, and nothing is removed. */
  lemma RatesFrame(py: Python, m: Object, k: Name)
    requires !k.SuccessRate? && !k.Total? && k != AvailabilityRate && k != FailureRate
    ensures (k in Rates(py, m) <==> k in m) && Get(Rates(py, m), k) == Get(m, k)
  {
  }

  /** A total is written only where there was none, and it is the one the counts gave. */
  lemma RatesKeepTotal(py: Python, m: Object, k: Counted)
    requires k == CountedKind(m)
    ensures TotalIn(Rates(py, m), k) == TotalIn(m, k)
  {
    RatesFrame(py, m, Successful(k));
    RatesFrame(py, m, Failed(k));
    RatesFrame(py, m, Attempted(k));
    TotalWritten(py, m, k);
  }

  lemma TotalWritten(py: Python, m: Object, k: Counted)
    ensures var r := Rates(py, m);
      Get(r, Total(k)) == Get(m, Total(k)) || (Total(k) !in m && Attempts(m).Some?
          && Get(r, Total(k)) == JNum(Attempts(m).value.1))
  {
  }

  lemma RatesKeepAttempts(py: Python, m: Object)
    ensures Attempts(Rates(py, m)) == Attempts(m) && RateKind(py, Rates(py, m)) == RateKind(py, m)
  {
    RatesFrame(py, m, Protocol);
    RatesFrame(py, m, Successful(Handshakes));
    RatesFrame(py, m, Successful(Negotiations));
    RatesKeepTotal(py, m, CountedKind(m));
  }

  lemma RatesIdempotent(py: Python, m: Object)
    ensures Rates(py, Rates(py, m)) == Rates(py, m)
  {
    RatesKeepAttempts(py, m);
  }

  // ----- The whole normalisation -----

  function Normalized(py: Python, m: Object): Object {
    Rates(py, Cleaned(py, m))
  }

  lemma RatesStayClean(py: Python, m: Object)
    requires Clean(py, m)
    ensures Clean(py, Rates(py, m))
  {
    RatesFrame(py, m, Protocol);
    RatesFrame(py, m, ResponseCode);
    RatesFrame(py, m, FailureReason);
    RatesFrame(py, m, ClientCompatibility);
  }

  /** Normalising twice is normalising once. */
  lemma NormalizeIdempotent(py: Python, m: Object)
    requires Sound(py)
    ensures Normalized(py, Normalized(py, m)) == Normalized(py, m)
  {
    CleanedIsClean(py, m);
    RatesStayClean(py, Cleaned(py, m));
    CleanStays(py, Normalized(py, m));
    RatesIdempotent(py, Cleaned(py, m));
  }

  /** Complementary shares stay complementary after rounding, ties included. */
  lemma RoundComplement(x: real)
    ensures Round(x, Four) + Round(1.0 - x, Four) == 1.0
  {
    var y := x * 10000.0;
    assert (1.0 - x) * 10000.0 == 10000.0 - y;
    assert Nearest(y) + Nearest(10000.0 - y) == 10000;
  }

  /** Counted attempts give equal success and availability rates between 0 and 1; a failure rate that was not reported
      completes them to 1. */
  lemma CountedRatesComplement(py: Python, m: Object)
    requires Attempts(m).Some?
    ensures var r, key := Rates(py, m), SuccessRate(RateKind(py, m));
      && key in r && r[key].JNum? && 0.0 <= r[key].r <= 1.0
      && AvailabilityRate in r && r[AvailabilityRate] == r[key]
      && FailureRate in r && (FailureRate in m ==> r[FailureRate] == m[FailureRate])
      && (FailureRate !in m ==> r[FailureRate].JNum? && r[FailureRate].r + r[key].r == 1.0)
  {
    var (success, total) := Attempts(m).value;
    var rate := Clamp(success / total, 0.0, 1.0);
    RoundBetween(rate, 0, 1, Four);
    RoundComplement(rate);
  }

  /** An availability rate comes out exactly when one went in, or can be had from counts, a failure rate or a success
      rate. */
  lemma AvailabilityKnown(py: Python, m: Object)
    ensures AvailabilityRate in Rates(py, m) <==>
      (Attempts(m).Some? || AvailabilityRate in m || Number(Get(m, FailureRate)).Some?
       || Number(Get(m, SuccessRate(RateKind(py, m)))).Some?)
    ensures AvailabilityRate in m && Attempts(m).None? ==> Rates(py, m)[AvailabilityRate] == m[AvailabilityRate]
    ensures AvailabilityRate in Rates(py, m) && AvailabilityRate !in m ==>
      Rates(py, m)[AvailabilityRate].JNum? && 0.0 <= Rates(py, m)[AvailabilityRate].r <= 1.0
  {
    match Attempts(m) {
      case Some(_) => CountedRatesComplement(py, m);
      case None =>
        RateBounded(OrZero(Number(Get(m, SuccessRate(RateKind(py, m))))));
        RateBounded(1.0 - OrZero(Number(Get(m, FailureRate))));
    }
  }

  lemma RateBounded(x: real)
    ensures 0.0 <= Rate(x).r <= 1.0
  {
    RoundBetween(Clamp(x, 0.0, 1.0), 0, 1, Four);
  }

  function OrZero(v: Option<real>): real {
    if v.Some? then v.value else 0.0
  }

  method NormalizeAvailabilityMetrics(py: Python, metrics: Object) returns (normalized: Object)
    ensures normalized == Normalized(py, metrics)
  {
    normalized := metrics;
    if Truthy(Get(normalized, Protocol)) {
      normalized := normalized[Protocol := JStr(py.upper(Text(py, normalized[Protocol])))];
    }
    normalized := NormalizeText(py, normalized, ResponseCode);
    normalized := NormalizeText(py, normalized, FailureReason);
    var checks := NormalizeClientCompatibility(py, Get(normalized, ClientCompatibility));
    if checks != [] {
      normalized := normalized[ClientCompatibility := JList(checks)];
    } else {
      normalized := normalized - {ClientCompatibility};
    }
    assert normalized == Cleaned(py, metrics);
    normalized := NormalizeRates(py, normalized);
  }

  method CountAttempts(m: Object) returns (success: Option<real>, total: Option<real>)
    ensures Attempts(m) ==
      if total.Some? && total.value > 0.0 && success.Some? then Some((success.value, total.value)) else None
  {
    success := Number(Get(m, Successful(Handshakes)));
    var failed := Number(Get(m, Failed(Handshakes)));
    total := EitherNumber(Number(Get(m, Total(Handshakes))), Number(Get(m, Attempted(Handshakes))));
    if success.None? {
      success := Number(Get(m, Successful(Negotiations)));
      failed := Number(Get(m, Failed(Negotiations)));
      total := EitherNumber(Number(Get(m, Total(Negotiations))), Number(Get(m, Attempted(Negotiations))));
    }
    if total.None? && success.Some? {
      total := Some(success.value + if failed.Some? then failed.value else 0.0);
    }
  }

  method NormalizeRates(py: Python, m: Object) returns (normalized: Object)
    ensures normalized == Rates(py, m)
  {
    normalized := m;
    var key := SuccessRate(RateKind(py, m));
    var success, total := CountAttempts(m);
    if total.Some? && total.value > 0.0 && success.Some? {
      var rate := Clamp(success.value / total.value, 0.0, 1.0);
      normalized := normalized[key := JNum(Round(rate, Four))];
      normalized := normalized[AvailabilityRate := JNum(Round(rate, Four))];
      normalized := Default(normalized, FailureRate, Rate(1.0 - rate));
      normalized := Default(normalized, Total(key.of), JNum(total.value));
    } else if AvailabilityRate !in normalized {
      var failureRate := Number(Get(normalized, FailureRate));
      if failureRate.Some? {
        var rate := Rate(1.0 - failureRate.value);
        normalized := Default(normalized[AvailabilityRate := rate], key, rate);
      }
    } else if key !in normalized {
      normalized := normalized[key := normalized[AvailabilityRate]];
    }
    if AvailabilityRate !in normalized {
      var direct := Number(Get(normalized, key));
      if direct.Some? {
        normalized := normalized[AvailabilityRate := Rate(direct.value)];
      }
    }
  }
}
