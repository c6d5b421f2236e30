/** What normalised metrics say, in terms of the fields they were reported in. */
module MetricValues {
  import opened Basics
  import opened Json
  import opened Rounding
  import opened Metrics

  /** The fields count s successes in t attempts of this kind. */
  predicate Counts(m: Object, k: Counted, s: real, t: real) {
    && Get(m, Successful(k)) == JNum(s)
    && (k == Negotiations ==> !Get(m, Successful(Handshakes)).JNum?)
    && t > 0.0
    && var total, attempted, failed := Get(m, Total(k)), Get(m, Attempted(k)), Get(m, Failed(k));
       if total.JNum? && total.r != 0.0 then t == total.r
       else if attempted.JNum? then t == attempted.r
       else t == s + if failed.JNum? then failed.r else 0.0
  }

  /** The rate that the protocol's own success is written to. */
  function SuccessKey(py: Python, m: Object): Name {
    if py.upper(Text(py, Or(Get(m, Protocol), JStr("")))) == "IKE" then SuccessRate(Negotiations)
    else SuccessRate(Handshakes)
  }

  /** x as a share, kept within 0 and 1, and rounded to four places. */
  predicate ShareOf(v: Json, x: real) {
    v.JNum? && if x < 0.0 then v.r == 0.0 else if x > 1.0 then v.r == 1.0 else Near(v.r, x, 0.00005)
  }

  lemma RateIsShare(x: real)
    ensures ShareOf(Rate(x), x)
  {
    RoundIsNear(Clamp(x, 0.0, 1.0), Four);
    RoundInteger(0, Four);
    RoundInteger(1, Four);
  }

  lemma CountsAreAttempts(m: Object, k: Counted, s: real, t: real)
    requires Counts(m, k, s, t)
    ensures Attempts(m) == Some((s, t))
  {
  }

  lemma AttemptsAreCounts(m: Object)
    requires Attempts(m).Some?
    ensures Counts(m, CountedKind(m), Attempts(m).value.0, Attempts(m).value.1)
  {
  }

  // ----- What cleaning keeps -----

  /** Fields that are neither texts nor checks stay as they are. */
  lemma CleanedFrame(py: Python, m: Object, k: Name)
    requires k !in {Protocol, ResponseCode, FailureReason, ClientCompatibility}
    ensures (k in Cleaned(py, m) <==> k in m) && Get(Cleaned(py, m), k) == Get(m, k)
  {
    var a := WithProtocol(py, m);
    var b := WithText(py, a, ResponseCode);
    var c := WithText(py, b, FailureReason);
    assert (k in a <==> k in m) && Get(a, k) == Get(m, k);
    assert (k in b <==> k in a) && Get(b, k) == Get(a, k);
    assert (k in c <==> k in b) && Get(c, k) == Get(b, k);
  }

  lemma CleanedProtocol(py: Python, m: Object)
    ensures Get(Cleaned(py, m), Protocol) ==
            if Truthy(Get(m, Protocol)) then JStr(py.upper(Text(py, Get(m, Protocol)))) else Get(m, Protocol)
  {
    var a := WithProtocol(py, m);
    var b := WithText(py, a, ResponseCode);
    var c := WithText(py, b, FailureReason);
    assert Get(b, Protocol) == Get(a, Protocol) && Get(c, Protocol) == Get(b, Protocol);
  }

  lemma CleanedKey(py: Python, m: Object)
    requires Sound(py)
    ensures SuccessRate(RateKind(py, Cleaned(py, m))) == SuccessKey(py, m)
  {
    CleanedProtocol(py, m);
    if Truthy(Get(m, Protocol)) {
      var text := Text(py, Get(m, Protocol));
      assert py.upper(py.upper(text)) == py.upper(text);
    }
  }

  lemma CleanedCounts(py: Python, m: Object, k: Counted)
    ensures
      var c := Cleaned(py, m);
      && Get(c, Successful(Handshakes)) == Get(m, Successful(Handshakes))
      && Get(c, Successful(k)) == Get(m, Successful(k))
      && Get(c, Total(k)) == Get(m, Total(k)) && Get(c, Attempted(k)) == Get(m, Attempted(k))
      && Get(c, Failed(k)) == Get(m, Failed(k))
  {
    CleanedFrame(py, m, Successful(Handshakes));
    CleanedFrame(py, m, Successful(k));
    CleanedFrame(py, m, Total(k));
    CleanedFrame(py, m, Attempted(k));
    CleanedFrame(py, m, Failed(k));
  }

  // ----- Counted rates -----

  lemma CountedRateIn(py: Python, m: Object, s: real, t: real)
    requires Attempts(m) == Some((s, t)) && t > 0.0
    ensures
      var r, key := Rates(py, m), SuccessRate(RateKind(py, m));
      && key in r && ShareOf(r[key], s / t) && AvailabilityRate in r && r[AvailabilityRate] == r[key]
      && FailureRate in r
      && (if FailureRate in m then r[FailureRate] == m[FailureRate]
          else r[FailureRate].JNum? && r[FailureRate].r + r[key].r == 1.0)
      && Total(key.of) in r && r[Total(key.of)] == (if Total(key.of) in m then m[Total(key.of)] else JNum(t))
  {
    RateIsShare(s / t);
    CountedRatesComplement(py, m);
  }

  /** The success rate of counted attempts is successes over attempts, and so is the availability; the failure rate is
      what was reported, or else completes it to 1; the total is what was reported, or else the one used. */
  lemma CountedRate(py: Python, m: Object, k: Counted, s: real, t: real)
    requires Sound(py) && Counts(m, k, s, t)
    ensures
      var r, key := Normalized(py, m), SuccessKey(py, m);
      && key in r && ShareOf(r[key], s / t) && AvailabilityRate in r && r[AvailabilityRate] == r[key]
      && FailureRate in r
      && (if FailureRate in m then r[FailureRate] == m[FailureRate]
          else r[FailureRate].JNum? && r[FailureRate].r + r[key].r == 1.0)
      && Total(key.of) in r && r[Total(key.of)] == (if Total(key.of) in m then m[Total(key.of)] else JNum(t))
  {
    var c, key := Cleaned(py, m), SuccessKey(py, m);
    CleanedCounts(py, m, k);
    CountsAreAttempts(c, k, s, t);
    CleanedKey(py, m);
    CountedRateIn(py, c, s, t);
    CleanedFrame(py, m, FailureRate);
    CleanedFrame(py, m, Total(key.of));
  }

  // ----- Stated rates -----

  lemma StatedRateIn(py: Python, m: Object)
    requires Attempts(m).None?
    ensures
      var r, key := Rates(py, m), SuccessRate(RateKind(py, m));
      var f, x := Get(m, FailureRate), Get(m, key);
      && Get(r, FailureRate) == Get(m, FailureRate)
      && if AvailabilityRate in m then
           Get(r, AvailabilityRate) == m[AvailabilityRate]
           && Get(r, key) == (if key in m then m[key] else m[AvailabilityRate])
         else if f.JNum? then
           ShareOf(Get(r, AvailabilityRate), 1.0 - f.r)
           && Get(r, key) == (if key in m then m[key] else Get(r, AvailabilityRate))
         else
           Get(r, key) == x && if x.JNum? then ShareOf(Get(r, AvailabilityRate), x.r) else AvailabilityRate !in r
  {
    var f, x := Get(m, FailureRate), Get(m, SuccessRate(RateKind(py, m)));
    if f.JNum? {
      RateIsShare(1.0 - f.r);
    }
    if x.JNum? {
      RateIsShare(x.r);
    }
  }

  /** Without counted attempts: a reported availability stays and stands in for a missing success rate; otherwise the
      availability is what a failure rate leaves of 1, or else the success rate, or is absent. */
  lemma StatedRate(py: Python, m: Object)
    requires Sound(py) && forall k, s, t :: !Counts(m, k, s, t)
    ensures
      var r, key := Normalized(py, m), SuccessKey(py, m);
      var f, x := Get(m, FailureRate), Get(m, key);
      && Get(r, FailureRate) == Get(m, FailureRate)
      && if AvailabilityRate in m then
           Get(r, AvailabilityRate) == m[AvailabilityRate]
           && Get(r, key) == (if key in m then m[key] else m[AvailabilityRate])
         else if f.JNum? then
           ShareOf(Get(r, AvailabilityRate), 1.0 - f.r)
           && Get(r, key) == (if key in m then m[key] else Get(r, AvailabilityRate))
         else
           Get(r, key) == x && if x.JNum? then ShareOf(Get(r, AvailabilityRate), x.r) else AvailabilityRate !in r
  {
    var c, key := Cleaned(py, m), SuccessKey(py, m);
    NoAttempts(py, m);
    CleanedKey(py, m);
    StatedRateIn(py, c);
    CleanedFrame(py, m, FailureRate);
    CleanedFrame(py, m, AvailabilityRate);
    CleanedFrame(py, m, key);
  }

  lemma NoAttempts(py: Python, m: Object)
    requires forall k, s, t :: !Counts(m, k, s, t)
    ensures Attempts(Cleaned(py, m)).None?
  {
    var c := Cleaned(py, m);
    if Attempts(c).Some? {
      AttemptsAreCounts(c);
      CleanedCounts(py, m, CountedKind(c));
      assert Counts(m, CountedKind(c), Attempts(c).value.0, Attempts(c).value.1);
      assert false;
    }
  }

  // ----- Texts and everything else -----

  /** The protocol is upper-cased; a response code or failure reason is stripped, and dropped when blank. */
  lemma NormalizedTexts(py: Python, m: Object, key: Name)
    requires key == ResponseCode || key == FailureReason
    ensures
      var r := Normalized(py, m);
      && Get(r, Protocol) ==
         (if Truthy(Get(m, Protocol)) then JStr(py.upper(Text(py, Get(m, Protocol)))) else Get(m, Protocol))
      && (Get(m, key) == JNull ==> Get(r, key) == JNull)
      && (Get(m, key) != JNull ==>
            var text := py.strip(Text(py, Get(m, key)));
            Get(r, key) == if text != "" then JStr(text) else JNull)
  {
    CleanedProtocol(py, m);
    CleanedText(py, m, key);
    RatesFrame(py, Cleaned(py, m), Protocol);
    RatesFrame(py, Cleaned(py, m), key);
  }

  lemma CleanedText(py: Python, m: Object, key: Name)
    requires key == ResponseCode || key == FailureReason
    ensures Get(Cleaned(py, m), key) == Get(WithText(py, m, key), key)
  {
    var a := WithProtocol(py, m);
    var b := WithText(py, a, ResponseCode);
    var c := WithText(py, b, FailureReason);
    assert Get(a, key) == Get(m, key);
    assert Get(Cleaned(py, m), key) == Get(c, key);
    if key == ResponseCode {
      assert Get(c, key) == Get(b, key) == Get(WithText(py, a, key), key);
    } else {
      assert Get(b, key) == Get(a, key);
    }
  }

  /** Fields that normalisation has nothing to say about stay as they are. */
  lemma NormalizedFrame(py: Python, m: Object, k: Name)
    requires k !in {Protocol, ResponseCode, FailureReason, ClientCompatibility, AvailabilityRate, FailureRate}
    requires !k.SuccessRate? && !k.Total?
    ensures (k in Normalized(py, m) <==> k in m) && Get(Normalized(py, m), k) == Get(m, k)
  {
    CleanedFrame(py, m, k);
    RatesFrame(py, Cleaned(py, m), k);
  }

  // ----- Client checks -----

  /** The words for each outcome. */
  lemma Words(word: string)
    ensures Meaning(word) == Some(Pass) <==> word in {"PASS", "OK", "SUCCESS", "PASSED"}
    ensures Meaning(word) == Some(Warn) <==> word in {"WARN", "PARTIAL"}
    ensures Meaning(word) == Some(Fail) <==> word in {"FAIL", "FAILED", "UNREACHABLE"}
    ensures Meaning(word) == Some(Error) <==> word == "ERROR"
  {
    assert |"PASS"| == 4 && |"OK"| == 2 && |"SUCCESS"| == 7 && |"PASSED"| == 6 && |"WARN"| == 4 && |"PARTIAL"| == 7;
    assert |"FAIL"| == 4 && |"FAILED"| == 6 && |"UNREACHABLE"| == 11 && |"ERROR"| == 5;
    assert "PASS"[0] == 'P' && "WARN"[0] == 'W' && "FAIL"[0] == 'F';
    assert "SUCCESS"[0] == 'S' && "PARTIAL"[0] == 'P' && "PASSED"[0] == 'P' && "FAILED"[0] == 'F';
  }

  /** The first of the values that says something. */
  predicate Names(py: Python, raw: Object, profile: string) {
    var own, client, name := Get(raw, Profile), Get(raw, ClientProfile), Get(raw, PlainName);
    if Truthy(own) then profile == py.strip(Text(py, own))
    else if Truthy(client) then profile == py.strip(Text(py, client))
    else if Truthy(name) then profile == py.strip(Text(py, name))
    else profile == py.strip("")
  }

  /** What the check says of itself: by its status or compatibility status, or else by its success flag. */
  predicate Says(py: Python, raw: Object, o: Outcome) {
    var status, other, success := Get(raw, Status), Get(raw, CompatibilityStatus), Get(raw, Success);
    if status == JNull && other == JNull && success.JBool? then o == (if success.b then Pass else Fail)
    else if Truthy(status) then o == Reads(py, Text(py, status))
    else if Truthy(other) then o == Reads(py, Text(py, other))
    else o == Pass
  }

  function Reads(py: Python, text: string): Outcome {
    match Meaning(py.upper(py.strip(text))) case Some(o) => o case None => Pass
  }

  lemma ProfileNamed(py: Python, raw: Object)
    ensures Names(py, raw, ProfileOf(py, raw))
  {
  }

  lemma OutcomeSaid(py: Python, raw: Object)
    requires Sound(py)
    ensures Says(py, raw, CheckOutcome(py, raw))
  {
    OutcomeReads(py, Pass, Pass);
  }

  lemma CheckFrame(py: Python, raw: Object, k: Name)
    requires Sound(py) && k !in {Profile, Status, ResponseCode, FailureReason}
    ensures (k in Check(py, raw) <==> k in raw) && Get(Check(py, raw), k) == Get(raw, k)
  {
    var base := raw[Profile := JStr(ProfileOf(py, raw))][Status := JStr(Spelling(CheckOutcome(py, raw)))];
    assert (k in base <==> k in raw) && Get(base, k) == Get(raw, k);
    TextSettles(py, base, ResponseCode);
    TextSettles(py, WithText(py, base, ResponseCode), FailureReason);
  }

  /** A normalised check has that profile and that outcome, its texts stripped, and its other fields unchanged. */
  lemma CheckFields(py: Python, raw: Object, k: Name)
    requires Sound(py)
    ensures
      var c, profile, o := Check(py, raw), ProfileOf(py, raw), CheckOutcome(py, raw);
      && Names(py, raw, profile) && Says(py, raw, o) && CheckSettled(py, c, profile, o)
      && (k !in {Profile, Status, ResponseCode, FailureReason} ==> (k in c <==> k in raw) && Get(c, k) == Get(raw, k))
  {
    ProfileNamed(py, raw);
    OutcomeSaid(py, raw);
    CheckSettles(py, raw);
    if k !in {Profile, Status, ResponseCode, FailureReason} {
      CheckFrame(py, raw, k);
    }
  }

  /** A dictionary of checks: each entry's profile is its own or else its key, and a bare value is its status. */
  lemma DictChecks(py: Python, fields: Object, i: nat)
    requires i < |py.order(fields)|
    ensures
      var raws, key := RawChecks(py, JObj(fields)), py.order(fields)[i];
      var raw := Get(fields, key);
      && |raws| == |py.order(fields)| && raws[i].JObj?
      && (!raw.JObj? ==> Get(raws[i].fields, Profile) == JStr(py.spell(key)) && Get(raws[i].fields, Status) == raw)
      && (raw.JObj? ==>
            && Get(raws[i].fields, Profile) ==
               (if Truthy(Get(raw.fields, Profile)) then Get(raw.fields, Profile) else JStr(py.spell(key)))
            && forall k :: k != Profile ==> Get(raws[i].fields, k) == Get(raw.fields, k))
  {
  }

  lemma CleanedChecks(py: Python, m: Object)
    ensures
      var checks := Checks(py, RawChecks(py, Get(m, ClientCompatibility)));
      && (checks != [] ==> Get(Cleaned(py, m), ClientCompatibility) == JList(checks))
      && (checks == [] ==> ClientCompatibility !in Cleaned(py, m))
  {
    var a := WithProtocol(py, m);
    var b := WithText(py, a, ResponseCode);
    var c := WithText(py, b, FailureReason);
    assert Get(a, ClientCompatibility) == Get(m, ClientCompatibility);
    assert Get(b, ClientCompatibility) == Get(a, ClientCompatibility);
    assert Get(c, ClientCompatibility) == Get(b, ClientCompatibility);
  }

  /** The checks come from a list as it is, or from a dictionary's entries; anything else gives none, and then the
      field goes. */
  lemma NormalizedChecks(py: Python, m: Object)
    ensures
      var v, r := Get(m, ClientCompatibility), Normalized(py, m);
      var raws := if v.JList? then v.items else if v.JObj? then RawChecks(py, v) else [];
      var checks := Checks(py, raws);
      && (checks != [] ==> Get(r, ClientCompatibility) == JList(checks))
      && (checks == [] ==> ClientCompatibility !in r)
  {
    CleanedChecks(py, m);
    RatesFrame(py, Cleaned(py, m), ClientCompatibility);
  }

  /** The checks kept are those with a profile, in order. */
  lemma {:induction false} ChecksKept(py: Python, raws: seq<Json>, c: Json)
    ensures c in Checks(py, raws) <==>
      exists raw :: raw in raws && raw.JObj? && ProfileOf(py, raw.fields) != "" && c == JObj(Check(py, raw.fields))
  {
    if raws != [] {
      var n := |raws| - 1;
      ChecksKept(py, raws[..n], c);
      assert forall raw :: raw in raws <==> raw in raws[..n] || raw == raws[n];
    }
  }
}
