/** The failure paths of a performance summary. */
module FailurePaths {
  import opened Basics
  import opened Json
  import opened Metrics
  import opened Evaluation
  import opened CommutativeFold

  datatype PathKey = PathKey(protocol: string, profile: string, code: string, reason: string)

  datatype Path = Path(count: nat, refs: set<string>, status: Outcome)

  type Paths = map<PathKey, Path>

  /** One call that adds to the paths. */
  datatype Entry = Entry(key: PathKey, status: Outcome, ref: string)

  function Worse(a: Outcome, b: Outcome): Outcome {
    if Rank(b) > Rank(a) then b else a
  }

  function Add(paths: Paths, e: Entry): Paths {
    var was := if e.key in paths then paths[e.key] else Path(0, {}, e.status);
    paths[e.key := Path(was.count + 1, was.refs + {e.ref}, Worse(was.status, e.status))]
  }

  // ----- What a result contributes -----

  function TextOrEmpty(py: Python, v: Json): string {
    if v == JNull then "" else py.strip(Text(py, v))
  }

  function MetricsOf(result: Object): Object {
    Fields(Get(result, MetricsField))
  }

  function ProtocolOf(py: Python, result: Object): string {
    py.upper(Text(py, Or(Or(Get(MetricsOf(result), Protocol), Get(result, Protocol)), JStr("UNKNOWN"))))
  }

  function RefOf(py: Python, result: Object): string {
    Text(py, Or(Or(Get(result, BomRef), Get(MetricsOf(result), BomRef)), JStr("-")))
  }

  function StatusIn(py: Python, fields: Object): Outcome {
    OutcomeOf(py, Get(fields, Status), Error)
  }

  function ReasonOf(py: Python, result: Object): string {
    TextOrEmpty(py, Or(Get(MetricsOf(result), FailureReason), Get(result, FailureReason)))
  }

  function CodeOf(py: Python, result: Object): string {
    TextOrEmpty(py, Or(Get(MetricsOf(result), ResponseCode), Get(result, ResponseCode)))
  }

  function Lower(o: Outcome): string {
    match o case Pass => "pass" case Warn => "warn" case Fail => "fail" case Error => "error"
  }

  predicate CheckFails(py: Python, check: Json) {
    StatusIn(py, Fields(check)) != Pass
  }

  predicate AnyCheckFails(py: Python, result: Object) {
    exists c :: c in ChecksOf(MetricsOf(result)) && CheckFails(py, c)
  }

  /** The result speaks for itself, unless its reason only repeats a failing client check. */
  predicate Listed(py: Python, result: Object) {
    && (StatusIn(py, result) != Pass || ReasonOf(py, result) != "")
    && !(AnyCheckFails(py, result) && "client_" <= ReasonOf(py, result))
  }

  function OwnEntry(py: Python, result: Object): Entry {
    var reason := ReasonOf(py, result);
    Entry(PathKey(ProtocolOf(py, result), "", CodeOf(py, result),
                  if reason != "" then reason else Lower(StatusIn(py, result))),
          StatusIn(py, result), RefOf(py, result))
  }

  function CheckEntry(py: Python, result: Object, check: Json): Entry {
    var fields := Fields(check);
    var reason := TextOrEmpty(py, Get(fields, FailureReason));
    Entry(PathKey(ProtocolOf(py, result), Text(py, Or(Get(fields, Profile), JStr(""))),
                  TextOrEmpty(py, Get(fields, ResponseCode)),
                  if reason != "" then reason else Lower(StatusIn(py, fields))),
          StatusIn(py, fields), RefOf(py, result))
  }

  function CheckEntries(py: Python, result: Object, checks: seq<Json>): seq<Entry> {
    if checks == [] then []
    else
      var last := checks[|checks| - 1];
      CheckEntries(py, result, checks[..|checks| - 1])
      + if CheckFails(py, last) then [CheckEntry(py, result, last)] else []
  }

  function Entries(py: Python, result: Object): seq<Entry> {
    (if Listed(py, result) then [OwnEntry(py, result)] else []) + CheckEntries(py, result, ChecksOf(MetricsOf(result)))
  }

  function AllEntries(py: Python, results: seq<Object>): seq<Entry> {
    if results == [] then []
    else AllEntries(py, results[..|results| - 1]) + Entries(py, results[|results| - 1])
  }

  function Summary(py: Python, results: seq<Object>): Paths {
    FoldAll(Add, map[], AllEntries(py, results))
  }

  // ----- What an entry says, by the fields it is read from -----

  /** The text of the first value that says something. */
  function FirstText(py: Python, a: Json, b: Json, otherwise: string): string {
    if Truthy(a) then Text(py, a) else if Truthy(b) then Text(py, b) else otherwise
  }

  /** The stripped text of a value, or of the one that stands in for it. */
  function Stripped(py: Python, a: Json, b: Json): string {
    if Truthy(a) then py.strip(Text(py, a)) else if b == JNull then "" else py.strip(Text(py, b))
  }

  /** A result's own path: the metrics come before the result for protocol, code and reason, the result before the
      metrics for the reference, and the status stands in for a missing reason. */
  lemma OwnEntryFields(py: Python, result: Object)
    ensures
      var e, metrics := OwnEntry(py, result), MetricsOf(result);
      var reason := Stripped(py, Get(metrics, FailureReason), Get(result, FailureReason));
      && e.key.protocol == py.upper(FirstText(py, Get(metrics, Protocol), Get(result, Protocol), "UNKNOWN"))
      && e.key.profile == ""
      && e.key.code == Stripped(py, Get(metrics, ResponseCode), Get(result, ResponseCode))
      && e.key.reason == (if reason != "" then reason else Lower(e.status))
      && e.ref == FirstText(py, Get(result, BomRef), Get(metrics, BomRef), "-")
      && e.status == StatusIn(py, result)
  {
  }

  /** A failing check's path: the check's own profile, code and reason, under its result's protocol and reference. */
  lemma CheckEntryFields(py: Python, result: Object, check: Object)
    ensures
      var e, own := CheckEntry(py, result, JObj(check)), OwnEntry(py, result);
      var reason := Stripped(py, JNull, Get(check, FailureReason));
      && e.key.protocol == own.key.protocol && e.ref == own.ref
      && e.key.profile == FirstText(py, Get(check, Profile), JNull, "")
      && e.key.code == Stripped(py, JNull, Get(check, ResponseCode))
      && e.key.reason == (if reason != "" then reason else Lower(e.status))
      && e.status == StatusIn(py, check)
  {
  }

  /** A status is what its word means; an unknown or missing one is an error. */
  lemma StatusReads(py: Python, fields: Object)
    requires Sound(py)
    ensures
      var v := Get(fields, Status);
      var word := if Truthy(v) then Meaning(py.upper(py.strip(Text(py, v)))) else None;
      StatusIn(py, fields) == if word.Some? then word.value else Error
  {
    OutcomeReads(py, Error, Error);
  }

  /** A result is listed for itself when it did not pass or gives a reason, unless one of its checks fails and the
      reason only speaks of a client. */
  lemma ListedExactly(py: Python, result: Object)
    ensures Listed(py, result) <==>
      var reason := Stripped(py, Get(MetricsOf(result), FailureReason), Get(result, FailureReason));
      && (StatusIn(py, result) != Pass || reason != "")
      && ("client_" <= reason ==>
            forall c :: c in ChecksOf(MetricsOf(result)) ==> StatusIn(py, Fields(c)) == Pass)
  {
  }

  // ----- Each path is exactly its entries -----

  function Having(es: seq<Entry>, k: PathKey): seq<Entry> {
    if es == [] then []
    else Having(es[..|es| - 1], k) + if es[|es| - 1].key == k then [es[|es| - 1]] else []
  }

  /** A path counts its entries, names their assets, and has the worst of their statuses. */
  ghost predicate Exact(p: Path, es: seq<Entry>) {
    && p.count == |es| && p.refs == (set e | e in es :: e.ref)
    && (exists e :: e in es && e.status == p.status) && (forall e :: e in es ==> Rank(e.status) <= Rank(p.status))
  }

  lemma ExactNext(p: Path, es: seq<Entry>, e: Entry)
    requires Exact(p, es)
    ensures Exact(Path(p.count + 1, p.refs + {e.ref}, Worse(p.status, e.status)), es + [e])
  {
    var now := es + [e];
    assert e in now;
    assert forall x :: x in now <==> x in es || x == e;
    assert (set x | x in now :: x.ref) == p.refs + {e.ref};
  }

  lemma {:induction false} PathsAreExact(es: seq<Entry>, k: PathKey)
    ensures var paths := FoldAll(Add, map[], es);
      (k in paths <==> Having(es, k) != []) && (k in paths ==> Exact(paths[k], Having(es, k)))
  {
    if es != [] {
      var n := |es| - 1;
      var e := es[n];
      PathsAreExact(es[..n], k);
      var before, having := FoldAll(Add, map[], es[..n]), Having(es[..n], k);
      if e.key == k {
        assert Having(es, k) == having + [e];
        if k in before {
          ExactNext(before[k], having, e);
        } else {
          assert Having(es, k) == [e];
          assert e in [e];
        }
      } else {
        assert Having(es, k) == having;
      }
    }
  }

  // ----- Nothing is lost -----

  lemma {:induction false} CheckEntriesCover(py: Python, result: Object, checks: seq<Json>, check: Json)
    requires check in checks && CheckFails(py, check)
    ensures CheckEntry(py, result, check) in CheckEntries(py, result, checks)
  {
    if check != checks[|checks| - 1] {
      CheckEntriesCover(py, result, checks[..|checks| - 1], check);
    }
  }

  lemma {:induction false} AllEntriesCover(py: Python, results: seq<Object>, result: Object, e: Entry)
    requires result in results && e in Entries(py, result)
    ensures e in AllEntries(py, results)
  {
    if result != results[|results| - 1] {
      AllEntriesCover(py, results[..|results| - 1], result, e);
    }
  }

  lemma {:induction false} HavingCovers(es: seq<Entry>, e: Entry)
    requires e in es
    ensures e in Having(es, e.key)
  {
    if e != es[|es| - 1] {
      HavingCovers(es[..|es| - 1], e);
    }
  }

  /** A result that did not pass contributes at least one entry under its own reference. */
  lemma FailureHasEntry(py: Python, result: Object) returns (e: Entry)
    requires StatusIn(py, result) != Pass
    ensures e in Entries(py, result) && e.ref == RefOf(py, result)
  {
    if Listed(py, result) {
      e := OwnEntry(py, result);
    } else {
      var checks := ChecksOf(MetricsOf(result));
      var c :| c in checks && CheckFails(py, c);
      e := CheckEntry(py, result, c);
      CheckEntriesCover(py, result, checks, c);
    }
  }

  lemma NoFailureLost(py: Python, results: seq<Object>, result: Object)
    requires result in results && StatusIn(py, result) != Pass
    ensures exists k :: k in Summary(py, results) && RefOf(py, result) in Summary(py, results)[k].refs
  {
    var e := FailureHasEntry(py, result);
    AllEntriesCover(py, results, result, e);
    HavingCovers(AllEntries(py, results), e);
    PathsAreExact(AllEntries(py, results), e.key);
    assert e.key in Summary(py, results);
  }

  // ----- Counts -----

  ghost function Total(paths: Paths): nat
    decreases |paths|
  {
    if paths == map[] then 0
    else
      var k :| k in paths;
      assert |paths - {k}| < |paths| by { Smaller(paths, k); }
      paths[k].count + Total(paths - {k})
  }

  lemma Smaller(paths: Paths, k: PathKey)
    requires k in paths
    ensures |paths - {k}| < |paths|
  {
    assert (paths - {k}).Keys == paths.Keys - {k};
    assert |(paths - {k}).Keys| == |paths - {k}|;
    assert |paths.Keys| == |paths|;
  }

  lemma {:induction false} TotalWithout(paths: Paths, k: PathKey)
    requires k in paths
    ensures Total(paths) == paths[k].count + Total(paths - {k})
    decreases |paths|
  {
    var c :| c in paths && Total(paths) == paths[c].count + Total(paths - {c});
    if c != k {
      Smaller(paths, c);
      TotalWithout(paths - {c}, k);
      TotalWithoutAgain(paths, k, c);
      assert paths - {c} - {k} == paths - {k} - {c};
    }
  }

  lemma {:induction false} TotalWithoutAgain(paths: Paths, k: PathKey, c: PathKey)
    requires k in paths && c in paths && c != k
    ensures Total(paths - {k}) == paths[c].count + Total(paths - {k} - {c})
    decreases |paths|, 0
  {
    Smaller(paths, k);
    TotalWithout(paths - {k}, c);
  }

  lemma AddTotal(paths: Paths, e: Entry)
    ensures Total(Add(paths, e)) == Total(paths) + 1
  {
    var now := Add(paths, e);
    TotalWithout(now, e.key);
    if e.key in paths {
      TotalWithout(paths, e.key);
    }
    assert now - {e.key} == paths - {e.key};
    if e.key !in paths {
      assert paths - {e.key} == paths;
    }
  }

  /** The counts of all paths sum to the number of entries. */
  lemma {:induction false} CountsConserve(es: seq<Entry>)
    ensures Total(FoldAll(Add, map[], es)) == |es|
  {
    if es != [] {
      CountsConserve(es[..|es| - 1]);
      AddTotal(FoldAll(Add, map[], es[..|es| - 1]), es[|es| - 1]);
    }
  }

  function FailingChecks(py: Python, checks: seq<Json>): nat {
    if checks == [] then 0
    else FailingChecks(py, checks[..|checks| - 1]) + if CheckFails(py, checks[|checks| - 1]) then 1 else 0
  }

  /** Results that speak for themselves, and failing client checks. */
  function Contributions(py: Python, results: seq<Object>): nat {
    if results == [] then 0
    else
      var last := results[|results| - 1];
      Contributions(py, results[..|results| - 1]) + (if Listed(py, last) then 1 else 0)
          + FailingChecks(py, ChecksOf(MetricsOf(last)))
  }

  lemma {:induction false} CheckEntriesCount(py: Python, result: Object, checks: seq<Json>)
    ensures |CheckEntries(py, result, checks)| == FailingChecks(py, checks)
  {
    if checks != [] {
      CheckEntriesCount(py, result, checks[..|checks| - 1]);
    }
  }

  lemma {:induction false} AllEntriesCount(py: Python, results: seq<Object>)
    ensures |AllEntries(py, results)| == Contributions(py, results)
  {
    if results != [] {
      var last := results[|results| - 1];
      AllEntriesCount(py, results[..|results| - 1]);
      CheckEntriesCount(py, last, ChecksOf(MetricsOf(last)));
    }
  }

  lemma SummaryCounts(py: Python, results: seq<Object>)
    ensures Total(Summary(py, results)) == Contributions(py, results)
  {
    CountsConserve(AllEntries(py, results));
    AllEntriesCount(py, results);
  }

  // ----- Order -----

  lemma AddCommutes()
    ensures Commutes(Add)
  {
    forall paths, a, b
      ensures Add(Add(paths, a), b) == Add(Add(paths, b), a)
    {
      if a.key == b.key {
        var x, y := Add(Add(paths, a), b), Add(Add(paths, b), a);
        assert x[a.key] == y[a.key];
        assert x == y;
      } else {
        assert Add(Add(paths, a), b) == Add(Add(paths, b), a);
      }
    }
  }

  /** Adding all that a result contributes. */
  function AddResult(py: Python): (Paths, Object) -> Paths {
    (paths, result) => FoldAll(Add, paths, Entries(py, result))
  }

  lemma AddAllCommutes(paths: Paths, a: seq<Entry>, b: seq<Entry>)
    ensures FoldAll(Add, FoldAll(Add, paths, a), b) == FoldAll(Add, FoldAll(Add, paths, b), a)
  {
    AddCommutes();
    FoldConcat(Add, paths, a, b);
    FoldConcat(Add, paths, b, a);
    assert multiset(a + b) == multiset(b + a);
    OrderIrrelevant(Add, paths, a + b, b + a);
  }

  lemma AddResultCommutes(py: Python)
    ensures Commutes(AddResult(py))
  {
    forall paths, a, b
      ensures AddResult(py)(AddResult(py)(paths, a), b) == AddResult(py)(AddResult(py)(paths, b), a)
    {
      AddAllCommutes(paths, Entries(py, a), Entries(py, b));
    }
  }

  lemma {:induction false} SummaryByResult(py: Python, results: seq<Object>)
    ensures Summary(py, results) == FoldAll(AddResult(py), map[], results)
  {
    if results != [] {
      var n := |results| - 1;
      SummaryByResult(py, results[..n]);
      FoldConcat(Add, map[], AllEntries(py, results[..n]), Entries(py, results[n]));
    }
  }

  /** The paths do not depend on the order of the results. */
  lemma SummaryIgnoresOrder(py: Python, xs: seq<Object>, ys: seq<Object>)
    requires multiset(xs) == multiset(ys)
    ensures Summary(py, xs) == Summary(py, ys)
  {
    SummaryByResult(py, xs);
    SummaryByResult(py, ys);
    AddResultCommutes(py);
    OrderIrrelevant(AddResult(py), map[], xs, ys);
  }

  // ----- The loops -----

  method AddFailurePath(paths: Paths, e: Entry) returns (now: Paths)
    ensures now == Add(paths, e)
  {
    var entry := Path(0, {}, e.status);
    if e.key in paths {
      entry := paths[e.key];
    }
    entry := entry.(count := entry.count + 1);
    entry := entry.(refs := entry.refs + {e.ref});
    if Rank(e.status) > Rank(entry.status) {
      entry := entry.(status := e.status);
    }
    now := paths[e.key := entry];
  }

  method AddChecks(py: Python, start: Paths, result: Object, checks: seq<Json>) returns (paths: Paths)
    ensures paths == FoldAll(Add, start, CheckEntries(py, result, checks))
  {
    paths := start;
    for i := 0 to |checks|
      invariant paths == FoldAll(Add, start, CheckEntries(py, result, checks[..i]))
    {
      assert checks[..i + 1][..i] == checks[..i];
      if CheckFails(py, checks[i]) {
        FoldConcat(Add, start, CheckEntries(py, result, checks[..i]), [CheckEntry(py, result, checks[i])]);
        FoldOne(paths, CheckEntry(py, result, checks[i]));
        paths := AddFailurePath(paths, CheckEntry(py, result, checks[i]));
      } else {
        assert CheckEntries(py, result, checks[..i + 1]) == CheckEntries(py, result, checks[..i]);
      }
    }
    assert checks[..|checks|] == checks;
  }

  lemma FoldOne(paths: Paths, e: Entry)
    ensures FoldAll(Add, paths, [e]) == Add(paths, e)
  {
    assert [e][..0] == [];
  }

  method SummarizeFailurePaths(py: Python, results: seq<Object>) returns (paths: Paths)
    ensures paths == Summary(py, results)
  {
    paths := map[];
    for i := 0 to |results|
      invariant paths == FoldAll(Add, map[], AllEntries(py, results[..i]))
    {
      var result := results[i];
      assert results[..i + 1][..i] == results[..i];
      ghost var start := paths;
      ghost var own: seq<Entry> := [];
      if Listed(py, result) {
        own := [OwnEntry(py, result)];
        FoldOne(paths, OwnEntry(py, result));
        paths := AddFailurePath(paths, OwnEntry(py, result));
      }
      assert paths == FoldAll(Add, start, own);
      var checks := ChecksOf(MetricsOf(result));
      paths := AddChecks(py, paths, result, checks);
      FoldConcat(Add, start, own, CheckEntries(py, result, checks));
      FoldConcat(Add, map[], AllEntries(py, results[..i]), Entries(py, result));
    }
    assert results[..|results|] == results;
  }
}
