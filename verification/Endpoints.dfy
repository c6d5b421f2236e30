/** Storing what a discovery reports: endpoint rows, and the targets they are promoted to. */
module Endpoints {
  import opened Basics

  datatype Transport = Tcp | Udp | OtherTransport(name: string)

  /** What identifies an endpoint within its discovery, and a target everywhere. */
  datatype Key = Key(host: string, port: int, transport: Transport)

  datatype Values = Values(detected: string, hint: string, metrics: nat)

  /** A reported endpoint, its host stripped and its transport upper-cased. */
  datatype Report = Report(key: Key, values: Values)

  datatype Endpoint = Endpoint(id: nat, discovery: nat, key: Key, values: Values, promoted: bool, target: Option<nat>)

  /** `details` stands for a target's other columns. */
  datatype Target = Target(key: Key, details: string)

  predicate Acceptable(r: Report) {
    r.key.host != "" && 1 <= r.key.port <= 65535 && (r.key.transport == Tcp || r.key.transport == Udp)
  }

  // ----- Tables as sequences in id order -----

  predicate Ascending(rows: seq<Endpoint>, next: nat) {
    && (forall i, j :: 0 <= i < j < |rows| ==> rows[i].id < rows[j].id)
    && (forall i :: 0 <= i < |rows| ==> rows[i].id < next)
  }

  predicate Of(e: Endpoint, d: nat, k: Key) {
    e.discovery == d && e.key == k
  }

  /** The rows of one endpoint, oldest first. */
  function Rows(rows: seq<Endpoint>, d: nat, k: Key): seq<Endpoint> {
    if rows == [] then []
    else Rows(rows[..|rows| - 1], d, k) + if Of(rows[|rows| - 1], d, k) then [rows[|rows| - 1]] else []
  }

  /** `row.save()`: the row with this id is replaced. */
  function Saved(rows: seq<Endpoint>, row: Endpoint): (r: seq<Endpoint>)
    ensures |r| == |rows| && forall i :: 0 <= i < |rows| ==> r[i] == if rows[i].id == row.id then row else rows[i]
  {
    seq(|rows|, i requires 0 <= i < |rows| => if rows[i].id == row.id then row else rows[i])
  }

  /** The endpoint's other rows are deleted. */
  function Pruned(rows: seq<Endpoint>, d: nat, k: Key, keep: nat): seq<Endpoint> {
    if rows == [] then []
    else
      var last := rows[|rows| - 1];
      Pruned(rows[..|rows| - 1], d, k, keep) + if Of(last, d, k) && last.id != keep then [] else [last]
  }

  lemma AscendingPrefix(rows: seq<Endpoint>, next: nat)
    requires rows != [] && Ascending(rows, next)
    ensures Ascending(rows[..|rows| - 1], rows[|rows| - 1].id)
  {
  }

  lemma {:induction false} RowsSaved(rows: seq<Endpoint>, row: Endpoint, d: nat, k: Key)
    requires forall i :: 0 <= i < |rows| && rows[i].id == row.id ==> Of(rows[i], row.discovery, row.key)
    ensures Rows(Saved(rows, row), d, k) == if Of(row, d, k) then Saved(Rows(rows, d, k), row) else Rows(rows, d, k)
  {
    if rows != [] {
      var n := |rows| - 1;
      RowsSaved(rows[..n], row, d, k);
      assert Saved(rows, row)[..n] == Saved(rows[..n], row);
    }
  }

  lemma {:induction false} RowsPruned(rows: seq<Endpoint>, d: nat, k: Key, keep: nat, d2: nat, k2: Key)
    requires d2 != d || k2 != k
    ensures Rows(Pruned(rows, d, k, keep), d2, k2) == Rows(rows, d2, k2)
  {
    if rows != [] {
      var n := |rows| - 1;
      RowsPruned(rows[..n], d, k, keep, d2, k2);
      var before := Pruned(rows[..n], d, k, keep);
      if Of(rows[n], d, k) && rows[n].id != keep {
        assert Pruned(rows, d, k, keep) == before;
      } else {
        RowsAppended(before, rows[n], d2, k2);
      }
    }
  }

  /** Only the kept row is left. */
  lemma {:induction false} RowsKept(rows: seq<Endpoint>, d: nat, k: Key, keep: nat)
    ensures Rows(Pruned(rows, d, k, keep), d, k) == Rows(Having(rows, keep), d, k)
  {
    if rows != [] {
      var n := |rows| - 1;
      RowsKept(rows[..n], d, k, keep);
      var before, having := Pruned(rows[..n], d, k, keep), Having(rows[..n], keep);
      RowsAppended(before, rows[n], d, k);
      RowsAppended(having, rows[n], d, k);
      if rows[n].id != keep {
        assert Having(rows, keep) == having;
        if Of(rows[n], d, k) {
          assert Pruned(rows, d, k, keep) == before;
        }
      }
    }
  }

  /** The rows with this id: one at most. */
  function Having(rows: seq<Endpoint>, id: nat): seq<Endpoint> {
    if rows == [] then []
    else Having(rows[..|rows| - 1], id) + if rows[|rows| - 1].id == id then [rows[|rows| - 1]] else []
  }

  lemma {:induction false} HavingOne(rows: seq<Endpoint>, next: nat, i: nat)
    requires Ascending(rows, next) && i < |rows|
    ensures Having(rows, rows[i].id) == [rows[i]]
  {
    var n := |rows| - 1;
    AscendingPrefix(rows, next);
    if i < n {
      HavingOne(rows[..n], rows[n].id, i);
    } else {
      HavingNone(rows[..n], rows[n].id);
    }
  }

  lemma {:induction false} HavingNone(rows: seq<Endpoint>, id: nat)
    requires forall i :: 0 <= i < |rows| ==> rows[i].id != id
    ensures Having(rows, id) == []
  {
    if rows != [] {
      HavingNone(rows[..|rows| - 1], id);
    }
  }

  lemma {:induction false} PrunedAscending(rows: seq<Endpoint>, next: nat, d: nat, k: Key, keep: nat)
    requires Ascending(rows, next)
    ensures Ascending(Pruned(rows, d, k, keep), next)
    ensures forall e :: e in Pruned(rows, d, k, keep) ==> e in rows
  {
    if rows != [] {
      AscendingPrefix(rows, next);
      PrunedAscending(rows[..|rows| - 1], rows[|rows| - 1].id, d, k, keep);
    }
  }

  lemma RowsAppended(rows: seq<Endpoint>, row: Endpoint, d: nat, k: Key)
    ensures Rows(rows + [row], d, k) == Rows(rows, d, k) + if Of(row, d, k) then [row] else []
  {
    assert (rows + [row])[..|rows|] == rows;
  }

  lemma {:induction false} NoRows(rows: seq<Endpoint>, d: nat, k: Key)
    ensures Rows(rows, d, k) == [] <==> forall i :: 0 <= i < |rows| ==> !Of(rows[i], d, k)
  {
    if rows != [] {
      NoRows(rows[..|rows| - 1], d, k);
    }
  }

  /** The oldest row of an endpoint heads its rows. */
  lemma {:induction false} FirstRow(rows: seq<Endpoint>, i: nat, d: nat, k: Key)
    requires i < |rows| && Of(rows[i], d, k) && forall j :: 0 <= j < i ==> !Of(rows[j], d, k)
    ensures Rows(rows, d, k) != [] && Rows(rows, d, k)[0] == rows[i]
  {
    var n := |rows| - 1;
    if i < n {
      FirstRow(rows[..n], i, d, k);
    } else {
      NoRows(rows[..n], d, k);
    }
  }

  // ----- What an upsert leaves behind -----

  /** The values of the last acceptable report about an endpoint. */
  function LastValues(reports: seq<Report>, k: Key): Option<Values> {
    if reports == [] then None
    else
      var last := reports[|reports| - 1];
      if Acceptable(last) && last.key == k then Some(last.values) else LastValues(reports[..|reports| - 1], k)
  }

  function AcceptableCount(reports: seq<Report>): nat {
    if reports == [] then 0
    else AcceptableCount(reports[..|reports| - 1]) + if Acceptable(reports[|reports| - 1]) then 1 else 0
  }

  /** The last report about an endpoint counts, if it has a host, a port from 1 to 65535, and TCP or UDP. */
  lemma {:induction false} LastValuesExactly(reports: seq<Report>, k: Key, v: Values)
    ensures LastValues(reports, k) == Some(v) <==>
      && k.host != "" && 1 <= k.port <= 65535 && (k.transport == Tcp || k.transport == Udp)
      && exists i :: (0 <= i < |reports| && reports[i] == Report(k, v)
                      && forall j :: i < j < |reports| ==> reports[j].key != k)
  {
    if reports != [] {
      var n := |reports| - 1;
      LastValuesExactly(reports[..n], k, v);
      if reports[n] == Report(k, v) {
        assert forall j :: n < j < |reports| ==> reports[j].key != k;
      }
    }
  }

  /** The positions of the reports that count. */
  function Positions(reports: seq<Report>): set<int> {
    set i | 0 <= i < |reports| && reports[i].key.host != "" && 1 <= reports[i].key.port <= 65535
            && (reports[i].key.transport == Tcp || reports[i].key.transport == Udp)
  }

  lemma {:induction false} CountExactly(reports: seq<Report>)
    ensures AcceptableCount(reports) == |Positions(reports)|
  {
    if reports != [] {
      var n := |reports| - 1;
      CountExactly(reports[..n]);
      var before := Positions(reports[..n]);
      assert n !in before;
      assert Positions(reports) == if Acceptable(reports[n]) then before + {n} else before;
    }
  }

  /** One row only, with these values, promoted to the target of the same key. */
  predicate Settled(rows: seq<Endpoint>, targets: seq<Target>, d: nat, k: Key, v: Values) {
    && |rows| == 1
    && rows[0] == Endpoint(rows[0].id, d, k, v, true, rows[0].target)
    && rows[0].target.Some? && rows[0].target.value < |targets| && targets[rows[0].target.value].key == k
  }

  /** An endpoint that had rows keeps the id of the oldest. */
  predicate KeepsId(before: seq<Endpoint>, after: seq<Endpoint>) {
    before != [] ==> after != [] && after[0].id == before[0].id
  }

  /** The unique constraint on targets. */
  predicate UniqueTargets(targets: seq<Target>) {
    forall i, j :: 0 <= i < j < |targets| ==> targets[i].key != targets[j].key
  }

  /** Existing targets stay; a new one has the key of an acceptable report. */
  predicate TargetsGrow(before: seq<Target>, after: seq<Target>, reports: seq<Report>) {
    && before <= after
    && forall i :: |before| <= i < |after| ==> LastValues(reports, after[i].key).Some?
  }

  /** `row` is now its endpoint's only row, and no other endpoint's rows changed. */
  ghost predicate Sole(before: seq<Endpoint>, after: seq<Endpoint>, row: Endpoint) {
    && Rows(after, row.discovery, row.key) == [row]
    && forall d, k :: !Of(row, d, k) ==> Rows(after, d, k) == Rows(before, d, k)
  }

  /** A row replaced under its own id, and its duplicates deleted. */
  lemma SaveAndPrune(rows: seq<Endpoint>, next: nat, i: nat, row: Endpoint)
    requires Ascending(rows, next) && i < |rows| && row.id == rows[i].id && Of(rows[i], row.discovery, row.key)
    ensures
      var after := Pruned(Saved(rows, row), row.discovery, row.key, row.id);
      Ascending(after, next) && Sole(rows, after, row)
  {
    var saved := Saved(rows, row);
    PrunedAscending(saved, next, row.discovery, row.key, row.id);
    RowsKept(saved, row.discovery, row.key, row.id);
    HavingOne(saved, next, i);
    forall d, k | !Of(row, d, k)
      ensures Rows(Pruned(saved, row.discovery, row.key, row.id), d, k) == Rows(rows, d, k)
    {
      RowsPruned(saved, row.discovery, row.key, row.id, d, k);
      RowsSaved(rows, row, d, k);
    }
  }

  lemma SaveOnly(rows: seq<Endpoint>, next: nat, was: Endpoint, row: Endpoint)
    requires Ascending(rows, next) && Rows(rows, row.discovery, row.key) == [was]
    requires row.id == was.id
    ensures Ascending(Saved(rows, row), next) && Sole(rows, Saved(rows, row), row)
  {
    RowsAreRows(rows, row.discovery, row.key);
    assert was in Rows(rows, row.discovery, row.key);
    forall d, k
      ensures Rows(Saved(rows, row), d, k) == if Of(row, d, k) then Saved(Rows(rows, d, k), row) else Rows(rows, d, k)
    {
      RowsSaved(rows, row, d, k);
    }
    assert Saved([was], row) == [row];
  }

  lemma AppendRow(rows: seq<Endpoint>, row: Endpoint)
    requires forall i :: 0 <= i < |rows| ==> !Of(rows[i], row.discovery, row.key)
    ensures Rows(rows, row.discovery, row.key) == [] && Sole(rows, rows + [row], row)
  {
    NoRows(rows, row.discovery, row.key);
    RowsAppended(rows, row, row.discovery, row.key);
    forall d, k | !Of(row, d, k)
      ensures Rows(rows + [row], d, k) == Rows(rows, d, k)
    {
      RowsAppended(rows, row, d, k);
    }
  }

  lemma {:induction false} RowsAreRows(rows: seq<Endpoint>, d: nat, k: Key)
    ensures forall e :: e in Rows(rows, d, k) <==> e in rows && Of(e, d, k)
  {
    if rows != [] {
      RowsAreRows(rows[..|rows| - 1], d, k);
      assert rows == rows[..|rows| - 1] + [rows[|rows| - 1]];
    }
  }

  /** The upsert of `reports` into discovery `d` led from the rows `before` to `after`. */
  predicate Stored(before: seq<Endpoint>, after: seq<Endpoint>, targets: seq<Target>, d: nat, reports: seq<Report>,
      k: Key) {
    && KeepsId(Rows(before, d, k), Rows(after, d, k))
    && match LastValues(reports, k)
       case Some(v) => Settled(Rows(after, d, k), targets, d, k, v)
       case None => Rows(after, d, k) == Rows(before, d, k)
  }

  /** How one report changes what was there. */
  ghost predicate StoresOne(before: seq<Endpoint>, after: seq<Endpoint>, was: seq<Target>, targets: seq<Target>, d: nat,
      r: Report) {
    && Settled(Rows(after, d, r.key), targets, d, r.key, r.values)
    && KeepsId(Rows(before, d, r.key), Rows(after, d, r.key))
    && (forall d2, k2 :: d2 != d || k2 != r.key ==> Rows(after, d2, k2) == Rows(before, d2, k2))
    && was <= targets && forall i :: |was| <= i < |targets| ==> targets[i].key == r.key
  }

  lemma StoredNext(before: seq<Endpoint>, mid: seq<Endpoint>, after: seq<Endpoint>, was: seq<Target>,
      targets: seq<Target>,
      d: nat, reports: seq<Report>, r: Report, k: Key)
    requires Stored(before, mid, was, d, reports, k)
    requires if Acceptable(r) then StoresOne(mid, after, was, targets, d, r) else after == mid && targets == was
    ensures Stored(before, after, targets, d, reports + [r], k)
  {
    assert (reports + [r])[..|reports|] == reports;
  }

  lemma TargetsNext(start: seq<Target>, was: seq<Target>, targets: seq<Target>, reports: seq<Report>, r: Report)
    requires TargetsGrow(start, was, reports) && was <= targets
    requires forall i :: |was| <= i < |targets| ==> Acceptable(r) && targets[i].key == r.key
    ensures TargetsGrow(start, targets, reports + [r])
  {
    assert (reports + [r])[..|reports|] == reports;
  }

  class Inventory {
    var endpoints: seq<Endpoint>
    var nextId: nat
    var targets: seq<Target>
    /** A new target's other columns, from its key and the endpoint's protocol hint. */
    const defaults: (Key, string) -> string

    ghost predicate Valid()
      reads this
    {
      Ascending(endpoints, nextId) && UniqueTargets(targets)
    }

    constructor (defaults: (Key, string) -> string)
      ensures Valid() && endpoints == [] && targets == [] && this.defaults == defaults
    {
      endpoints, nextId, targets := [], 0, [];
      this.defaults := defaults;
    }

    method GetOrCreateTarget(k: Key, hint: string) returns (t: nat)
      requires Valid()
      modifies this`targets
      ensures Valid() && t < |targets| && targets[t].key == k
      ensures targets == old(targets) || (targets == old(targets) + [Target(k, defaults(k, hint))]
          && t == |old(targets)|)
      ensures targets != old(targets) <==> forall i :: 0 <= i < |old(targets)| ==> old(targets)[i].key != k
    {
      t := 0;
      while t < |targets| && targets[t].key != k
        invariant t <= |targets| && forall i :: 0 <= i < t ==> targets[i].key != k
      {
        t := t + 1;
      }
      if t == |targets| {
        targets := targets + [Target(k, defaults(k, hint))];
      }
    }

    method AutoPromote(e: Endpoint)
      requires Valid() && Rows(endpoints, e.discovery, e.key) == [e]
      modifies this`endpoints, this`targets
      ensures Valid() && Settled(Rows(endpoints, e.discovery, e.key), targets, e.discovery, e.key, e.values)
      ensures Rows(endpoints, e.discovery, e.key)[0].id == e.id
      ensures Sole(old(endpoints), endpoints, Rows(endpoints, e.discovery, e.key)[0])
      ensures old(targets) <= targets && forall i :: |old(targets)| <= i < |targets| ==> targets[i].key == e.key
    {
      var t := GetOrCreateTarget(e.key, e.values.hint);
      var row := e;
      if row.target != Some(t) {
        row := row.(target := Some(t));
      }
      if !row.promoted {
        row := row.(promoted := true);
      }
      SaveOnly(endpoints, nextId, e, row);
      if row != e {
        endpoints := Saved(endpoints, row);
      }
    }

    /** New values for the oldest row of an endpoint; its other rows go. */
    method Update(i: nat, values: Values) returns (existing: Endpoint)
      requires Valid() && i < |endpoints|
      requires forall j :: 0 <= j < i ==> !Of(endpoints[j], endpoints[i].discovery, endpoints[i].key)
      modifies this`endpoints
      ensures Valid() && existing == old(endpoints[i]).(values := values) && Sole(old(endpoints), endpoints, existing)
      ensures KeepsId(old(Rows(endpoints, existing.discovery, existing.key)), [existing])
    {
      existing := endpoints[i].(values := values);
      FirstRow(endpoints, i, existing.discovery, existing.key);
      SaveAndPrune(endpoints, nextId, i, existing);
      endpoints := Saved(endpoints, existing);
      endpoints := Pruned(endpoints, existing.discovery, existing.key, existing.id);
    }

    method Create(d: nat, r: Report) returns (created: Endpoint)
      requires Valid() && forall j :: 0 <= j < |endpoints| ==> !Of(endpoints[j], d, r.key)
      modifies this`endpoints, this`nextId
      ensures Valid() && created == Endpoint(old(nextId), d, r.key, r.values, false, None)
      ensures old(Rows(endpoints, d, r.key)) == [] && Sole(old(endpoints), endpoints, created)
    {
      created := Endpoint(nextId, d, r.key, r.values, false, None);
      AppendRow(endpoints, created);
      endpoints, nextId := endpoints + [created], nextId + 1;
    }

    method UpsertOne(d: nat, r: Report)
      requires Valid()
      modifies this
      ensures Valid() && StoresOne(old(endpoints), endpoints, old(targets), targets, d, r)
    {
      var i := 0;
      while i < |endpoints| && !Of(endpoints[i], d, r.key)
        invariant i <= |endpoints| && forall j :: 0 <= j < i ==> !Of(endpoints[j], d, r.key)
      {
        i := i + 1;
      }
      var row;
      if i < |endpoints| {
        row := Update(i, r.values);
      } else {
        row := Create(d, r);
      }
      AutoPromote(row);
    }

    method Upsert(d: nat, reports: seq<Report>) returns (saved: nat)
      requires Valid()
      modifies this
      ensures Valid() && saved == AcceptableCount(reports)
      ensures forall k :: Stored(old(endpoints), endpoints, targets, d, reports, k)
      ensures forall d2, k :: d2 != d ==> Rows(endpoints, d2, k) == old(Rows(endpoints, d2, k))
      ensures TargetsGrow(old(targets), targets, reports)
    {
      saved := 0;
      var n := 0;
      while n < |reports|
        invariant n <= |reports| && Valid() && saved == AcceptableCount(reports[..n])
        invariant forall k :: Stored(old(endpoints), endpoints, targets, d, reports[..n], k)
        invariant forall d2, k :: d2 != d ==> Rows(endpoints, d2, k) == old(Rows(endpoints, d2, k))
        invariant TargetsGrow(old(targets), targets, reports[..n])
      {
        var r := reports[n];
        ghost var mid, was := endpoints, targets;
        if Acceptable(r) {
          UpsertOne(d, r);
          saved := saved + 1;
        }
        forall k
          ensures Stored(old(endpoints), endpoints, targets, d, reports[..n] + [r], k)
        {
          StoredNext(old(endpoints), mid, endpoints, was, targets, d, reports[..n], r, k);
        }
        TargetsNext(old(targets), was, targets, reports[..n], r);
        assert reports[..n + 1] == reports[..n] + [r];
        n := n + 1;
      }
      assert reports[..n] == reports;
    }
  }
}
