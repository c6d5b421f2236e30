/** From stored endpoints to the scan that follows a discovery. */
module FollowUp {
  import opened Basics
  import opened Endpoints
  import opened JobRows
  import opened JobInvariants
  import opened JobRuns
  import opened JobPipeline

  predicate Increasing(ids: seq<nat>) {
    forall i, j :: 0 <= i < j < |ids| ==> ids[i] < ids[j]
  }

  /** A promoted row of the discovery that is linked to target t. */
  predicate Links(e: Endpoint, d: nat, t: nat) {
    e.discovery == d && e.promoted && e.target == Some(t)
  }

  /** Keeps ids in order and without repeats. */
  function WithId(ids: seq<nat>, t: nat): seq<nat> {
    if ids == [] then [t]
    else
      var n := |ids| - 1;
      if t > ids[n] then ids + [t] else if t == ids[n] then ids else WithId(ids[..n], t) + [ids[n]]
  }

  /** The distinct targets of the discovery's promoted rows, in order: the query of the follow-up. */
  function TargetIds(rows: seq<Endpoint>, d: nat): seq<nat> {
    if rows == [] then []
    else
      var e, before := rows[|rows| - 1], TargetIds(rows[..|rows| - 1], d);
      if e.discovery == d && e.promoted && e.target.Some? then WithId(before, e.target.value) else before
  }

  lemma {:induction false} WithIdExact(ids: seq<nat>, t: nat)
    requires Increasing(ids)
    ensures Increasing(WithId(ids, t)) && forall u :: u in WithId(ids, t) <==> u in ids || u == t
  {
    if ids != [] && t < ids[|ids| - 1] {
      var n := |ids| - 1;
      WithIdExact(ids[..n], t);
      var r := WithId(ids[..n], t);
      forall i | 0 <= i < |r| ensures r[i] < ids[n] {
        assert r[i] in r;
      }
      assert forall u :: u in ids <==> u in ids[..n] || u == ids[n];
    }
  }

  lemma {:induction false} TargetIdsExact(rows: seq<Endpoint>, d: nat)
    ensures Increasing(TargetIds(rows, d))
    ensures forall t :: t in TargetIds(rows, d) <==> exists e :: e in rows && Links(e, d, t)
  {
    if rows != [] {
      var n := |rows| - 1;
      TargetIdsExact(rows[..n], d);
      assert forall e :: e in rows <==> e in rows[..n] || e == rows[n];
      if rows[n].discovery == d && rows[n].promoted && rows[n].target.Some? {
        assert Links(rows[n], d, rows[n].target.value);
        WithIdExact(TargetIds(rows[..n], d), rows[n].target.value);
      }
    }
  }

  /** The scan queued by a discovery's completion has exactly the distinct targets of that discovery's promoted
      rows, in order; with none of them, or unless asked for, no scan is queued. */
  lemma FollowUpScansPromoted(s: State, w: nat, rows: seq<Endpoint>, snapshot: bool)
    requires Inv(s) && w < |s.workers| && s.workers[w].Some?
    requires
      var task := s.tasks[s.workers[w].value];
      task.kind == Discovery && s.jobs[task.job.value].status != Cancelled
    ensures
      var task := s.tasks[s.workers[w].value];
      var s' := DoComplete(s, w, TargetIds(rows, task.resource), snapshot);
      if s.jobs[task.job.value].autoScan && exists e, t :: e in rows && Links(e, task.resource, t)
      then && |s'.jobs| == |s.jobs| + 1 && s'.jobs[|s.jobs|].origin == task.job && Increasing(s'.jobs[|s.jobs|].targets)
           && forall t :: t in s'.jobs[|s.jobs|].targets <==> exists e :: e in rows && Links(e, task.resource, t)
      else |s'.jobs| == |s.jobs|
  {
    HeldJob(s, w);
    var d := s.tasks[s.workers[w].value].resource;
    TargetIdsExact(rows, d);
    CompletionRecordsTargets(s, w, TargetIds(rows, d), snapshot);
    if e, t :| e in rows && Links(e, d, t) {
      assert t in TargetIds(rows, d);
    } else if TargetIds(rows, d) != [] {
      assert TargetIds(rows, d)[0] in TargetIds(rows, d);
    }
  }

  /** An endpoint that was stored from a report is linked to the target of its key. */
  lemma StoredIsLinked(before: seq<Endpoint>, after: seq<Endpoint>, targets: seq<Target>, d: nat, reports: seq<Report>,
      k: Key)
    returns (e: Endpoint, t: nat)
    requires Stored(before, after, targets, d, reports, k) && LastValues(reports, k).Some?
    ensures e in after && Links(e, d, t) && t < |targets| && targets[t].key == k
  {
    e := Rows(after, d, k)[0];
    t := e.target.value;
    RowsAreRows(after, d, k);
    assert e in Rows(after, d, k);
  }

  lemma {:induction false} AcceptableIsLast(reports: seq<Report>, r: Report)
    requires r in reports && Acceptable(r)
    ensures LastValues(reports, r.key).Some?
  {
    if r != reports[|reports| - 1] {
      AcceptableIsLast(reports[..|reports| - 1], r);
    }
  }

  /** Every acceptable report that a discovery stored is scanned: once it completes with scanning asked for, the
      scan it queues has the target of the report's key. */
  lemma ReportedIsScanned(s: State, w: nat, before: seq<Endpoint>, after: seq<Endpoint>, targets: seq<Target>,
      reports: seq<Report>, r: Report, snapshot: bool)
    requires Inv(s) && w < |s.workers| && s.workers[w].Some?
    requires
      var task := s.tasks[s.workers[w].value];
      && task.kind == Discovery && s.jobs[task.job.value].status != Cancelled && s.jobs[task.job.value].autoScan
      && Stored(before, after, targets, task.resource, reports, r.key)
    requires r in reports && Acceptable(r)
    ensures
      var s' := DoComplete(s, w, TargetIds(after, s.tasks[s.workers[w].value].resource), snapshot);
      && |s'.jobs| == |s.jobs| + 1 && s'.jobs[|s.jobs|].kind == Scan
      && exists t :: t in s'.jobs[|s.jobs|].targets && t < |targets| && targets[t].key == r.key
  {
    var d := s.tasks[s.workers[w].value].resource;
    AcceptableIsLast(reports, r);
    var e, t := StoredIsLinked(before, after, targets, d, reports, r.key);
    TargetIdsExact(after, d);
    assert t in TargetIds(after, d);
    CompletionRecordsTargets(s, w, TargetIds(after, d), snapshot);
  }
}
