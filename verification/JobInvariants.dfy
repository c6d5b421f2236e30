/** What every transaction keeps, whatever the interleaving. */
module JobInvariants {
  import opened Basics
  import opened JobRows

  // ----- Structure: how the rows refer to each other -----

  ghost predicate HasTask(tasks: seq<Task>, j: nat) {
    exists t :: 0 <= t < |tasks| && tasks[t].job == Some(j)
  }

  /** Every job was queued exactly once, and every performance run at most once. */
  ghost predicate OneTaskEach(s: State) {
    && (forall t, u :: 0 <= t < u < |s.tasks| && s.tasks[t].job.Some? ==> s.tasks[t].job != s.tasks[u].job)
    && (forall t, u :: 0 <= t < u < |s.tasks| && s.tasks[t].job.None? && s.tasks[u].job.None? ==>
          s.tasks[t].resource != s.tasks[u].resource)
    && (forall j :: 0 <= j < |s.jobs| ==> HasTask(s.tasks, j))
  }

  /** A task's payload row exists, and a discovery task names its job's row. */
  predicate Payloads(s: State)
    requires Linked(s)
  {
    && (forall t :: 0 <= t < |s.tasks| ==> PayloadRowExists(s, s.tasks[t]))
    && (forall t :: 0 <= t < |s.tasks| && s.tasks[t].kind == Discovery ==>
          s.tasks[t].resource == s.jobs[s.tasks[t].job.value].resource)
    && (forall j :: 0 <= j < |s.jobs| && s.jobs[j].kind == Discovery ==> s.jobs[j].resource < |s.discoveries|)
  }

  /** Discovery rows have distinct scopes and a current job of their own. */
  predicate RowsOwned(s: State)
    requires Linked(s)
  {
    && (forall d :: 0 <= d < |s.discoveries| ==>
          s.jobs[s.discoveries[d].job].kind == Discovery && s.jobs[s.discoveries[d].job].resource == d)
    && (forall d, e :: 0 <= d < e < |s.discoveries| ==> s.discoveries[d].scope != s.discoveries[e].scope)
  }

  ghost predicate Structure(s: State) {
    Linked(s) && OneTaskEach(s) && Payloads(s) && RowsOwned(s)
  }

  /** Only statuses, attempts, results and worker slots differ. */
  predicate SameShape(s: State, s': State) {
    && |s'.jobs| == |s.jobs| && |s'.tasks| == |s.tasks| && |s'.discoveries| == |s.discoveries| && |s'.runs| == |s.runs|
    && (forall j :: 0 <= j < |s.jobs| ==>
          s'.jobs[j].kind == s.jobs[j].kind && s'.jobs[j].resource == s.jobs[j].resource)
    && (forall t :: 0 <= t < |s.tasks| ==>
          && s'.tasks[t].kind == s.tasks[t].kind && s'.tasks[t].job == s.tasks[t].job
          && s'.tasks[t].resource == s.tasks[t].resource)
    && (forall d :: 0 <= d < |s.discoveries| ==>
          s'.discoveries[d].scope == s.discoveries[d].scope && s'.discoveries[d].job == s.discoveries[d].job)
    && (forall w :: 0 <= w < |s'.workers| && s'.workers[w].Some? ==> s'.workers[w].value < |s'.tasks|)
  }

  lemma ShapeKeepsStructure(s: State, s': State)
    requires Structure(s) && SameShape(s, s')
    ensures Structure(s')
  {
    assert Linked(s') by {
      forall t | 0 <= t < |s'.tasks| ensures TaskLinked(s'.tasks[t], s'.jobs) {
        assert TaskLinked(s.tasks[t], s.jobs);
      }
    }
    HasTaskGrows(s.tasks, s'.tasks, |s.jobs|);
    forall t | 0 <= t < |s'.tasks| ensures PayloadRowExists(s', s'.tasks[t]) {
      assert PayloadRowExists(s, s.tasks[t]);
    }
  }

  lemma HasTaskGrows(tasks: seq<Task>, tasks': seq<Task>, n: nat)
    requires |tasks| <= |tasks'| && forall t :: 0 <= t < |tasks| ==> tasks'[t].job == tasks[t].job
    requires forall j :: 0 <= j < n ==> HasTask(tasks, j)
    ensures forall j :: 0 <= j < n ==> HasTask(tasks', j)
  {
    forall j | 0 <= j < n ensures HasTask(tasks', j) {
      assert HasTask(tasks, j);
      var t :| 0 <= t < |tasks| && tasks[t].job == Some(j);
      assert tasks'[t].job == Some(j);
    }
  }


  /** s' has one more job than s, and one more task, which is that job's. */
  predicate Appended(s: State, s': State) {
    && |s'.jobs| == |s.jobs| + 1 && (forall j :: 0 <= j < |s.jobs| ==> s'.jobs[j] == s.jobs[j])
    && |s'.tasks| == |s.tasks| + 1 && (forall t :: 0 <= t < |s.tasks| ==> s'.tasks[t] == s.tasks[t])
    && s'.workers == s.workers && s'.runs == s.runs && |s.discoveries| <= |s'.discoveries|
    && (forall d :: 0 <= d < |s'.discoveries| ==> s'.discoveries[d].job < |s'.jobs|)
    && s'.tasks[|s.tasks|].job == Some(|s.jobs|)
    && s'.tasks[|s.tasks|].kind == s'.jobs[|s.jobs|].kind != Performance
  }

  lemma AppendLinked(s: State, s': State)
    requires Linked(s) && Appended(s, s')
    ensures Linked(s')
    ensures forall t :: 0 <= t < |s.tasks| ==> s.tasks[t].job != Some(|s.jobs|)
  {
    forall t | 0 <= t < |s.tasks| ensures TaskLinked(s'.tasks[t], s'.jobs) && s.tasks[t].job != Some(|s.jobs|) {
      assert TaskLinked(s.tasks[t], s.jobs);
    }
  }

  lemma AppendOneTaskEach(s: State, s': State)
    requires Linked(s) && OneTaskEach(s) && Appended(s, s')
    ensures OneTaskEach(s')
  {
    AppendLinked(s, s');
    HasTaskGrows(s.tasks, s'.tasks, |s.jobs|);
    assert HasTask(s'.tasks, |s.jobs|);
  }

  lemma AppendPayloads(s: State, s': State)
    requires Linked(s) && Payloads(s) && Appended(s, s') && Linked(s')
    requires s'.jobs[|s.jobs|].kind == Discovery ==>
               s'.tasks[|s.tasks|].resource == s'.jobs[|s.jobs|].resource < |s'.discoveries|
    ensures Payloads(s')
  {
    forall t | 0 <= t < |s.tasks| ensures PayloadRowExists(s', s'.tasks[t]) {
      assert PayloadRowExists(s, s.tasks[t]);
    }
    forall t | 0 <= t < |s.tasks| && s'.tasks[t].kind == Discovery
      ensures s'.tasks[t].resource == s'.jobs[s'.tasks[t].job.value].resource
    {
      assert TaskLinked(s.tasks[t], s.jobs);
    }
  }

  // ----- Statuses -----

  /** A task shows its job's status, Queued standing for Pending. */
  function AsTask(s: Status): Status {
    if s == Pending then Queued else s
  }

  predicate Agree(s: State)
    requires Linked(s)
  {
    && (forall j :: 0 <= j < |s.jobs| ==> s.jobs[j].status != Queued)
    && (forall t :: 0 <= t < |s.tasks| && s.tasks[t].job.Some? ==>
          s.tasks[t].status == AsTask(s.jobs[s.tasks[t].job.value].status))
  }

  predicate AttemptsOk(t: Task) {
    && t.attempts <= 1
    && t.status != Pending
    && (t.status == Queued ==> t.attempts == 0)
    && (t.status == Running || t.status == Completed || t.status == Failed ==> t.attempts == 1)
    && (t.status == Cancelled && t.kind == Recompute ==> t.attempts == 0)
    && (t.status == Cancelled ==> t.kind != Performance)
  }

  predicate Attempts(s: State) {
    forall t :: 0 <= t < |s.tasks| ==> AttemptsOk(s.tasks[t])
  }

  /** Workers hold different tasks, each claimed and not yet finished. */
  predicate Workers(s: State)
    requires Linked(s)
  {
    && (forall w :: 0 <= w < |s.workers| && s.workers[w].Some? ==> InFlight(s.tasks[s.workers[w].value]))
    && (forall v, w :: 0 <= v < w < |s.workers| && s.workers[v].Some? ==> s.workers[v] != s.workers[w])
  }

  predicate InFlight(t: Task) {
    t.attempts == 1 && (t.status == Running || t.status == Cancelled)
  }

  ghost predicate Inv(s: State) {
    Structure(s) && Agree(s) && Attempts(s) && Workers(s)
  }

  /** Empty tables and n idle workers. */
  function Init(n: nat): (s: State)
    ensures Inv(s)
  {
    State([], [], [], [], seq(n, _ => None))
  }

  /** A pending job and a queued task are appended: nobody else's status moves. */
  lemma AppendInv(s: State, s': State)
    requires Inv(s) && Appended(s, s') && Linked(s') && RowsOwned(s')
    requires s'.jobs[|s.jobs|].status == Pending
    requires s'.tasks[|s.tasks|].status == Queued && s'.tasks[|s.tasks|].attempts == 0
    requires s'.jobs[|s.jobs|].kind == Discovery ==>
               s'.tasks[|s.tasks|].resource == s'.jobs[|s.jobs|].resource < |s'.discoveries|
    ensures Inv(s')
  {
    AppendOneTaskEach(s, s');
    AppendPayloads(s, s');
    forall t | 0 <= t < |s.tasks| ensures TaskLinked(s.tasks[t], s.jobs) {
    }
  }

  /** One task and its job change together. */
  predicate PairMoves(s: State, s': State, t: nat) {
    && t < |s.tasks| && TaskLinked(s.tasks[t], s.jobs) && SameShape(s, s')
    && (forall u :: 0 <= u < |s.tasks| && u != t ==> s'.tasks[u] == s.tasks[u])
    && (forall j :: 0 <= j < |s.jobs| && s.tasks[t].job != Some(j) ==> s'.jobs[j].status == s.jobs[j].status)
    && AttemptsOk(s'.tasks[t])
    && (s.tasks[t].job.Some? ==> s'.jobs[s.tasks[t].job.value].status != Queued)
    && (s.tasks[t].job.Some? ==> s'.tasks[t].status == AsTask(s'.jobs[s.tasks[t].job.value].status))
  }

  /** The slot that changes, if any, drops its task or takes one that nobody holds. */
  predicate SlotMoves(s: State, s': State, t: nat, w: nat)
    requires t < |s.tasks| && t < |s'.tasks|
  {
    || (s'.workers == s.workers && (InFlight(s.tasks[t]) ==> InFlight(s'.tasks[t])))
    || (w < |s.workers| && s.workers[w] == Some(t) && s'.workers == s.workers[w := None])
    || (w < |s.workers| && s'.workers == s.workers[w := Some(t)] && !InFlight(s.tasks[t]) && InFlight(s'.tasks[t]))
  }

  lemma PairInv(s: State, s': State, t: nat, w: nat)
    requires Inv(s) && PairMoves(s, s', t) && SlotMoves(s, s', t, w)
    ensures Inv(s')
  {
    ShapeKeepsStructure(s, s');
    assert Agree(s') by {
      forall u | 0 <= u < |s.tasks| && s'.tasks[u].job.Some?
        ensures s'.tasks[u].status == AsTask(s'.jobs[s'.tasks[u].job.value].status)
      {
        if u != t {
          assert s.tasks[u].job != s.tasks[t].job;
        }
      }
    }
  }

  lemma CreateDiscoveryInv(s: State, scope: Scope, autoScan: bool, autoCheck: bool)
    requires Inv(s)
    ensures Inv(DoCreateDiscovery(s, scope, autoScan, autoCheck))
  {
    if Creates(s, scope) {
      var s' := DoCreateDiscovery(s, scope, autoScan, autoCheck);
      var d := CreatedRow(s, scope, autoScan, autoCheck);
      AppendLinked(s, s');
      CreatedRowsOwned(s, s', scope, d);
      AppendInv(s, s');
    }
  }

  /** The request is not answered with a job that is under way. */
  predicate Creates(s: State, scope: Scope) {
    var found := LatestFor(s.discoveries, scope, |s.discoveries|);
    found.Some? ==> !Active(s.discoveries[found.value].status)
  }

  /** A new job is attached to row d, which is the scope's newest one or new itself. */
  predicate Created(s: State, s': State, scope: Scope, d: nat) {
    && |s'.jobs| == |s.jobs| + 1 && (forall j :: 0 <= j < |s.jobs| ==> s'.jobs[j] == s.jobs[j])
    && s'.jobs[|s.jobs|].kind == Discovery && s'.jobs[|s.jobs|].status == Pending && s'.jobs[|s.jobs|].resource == d
    && d <= |s.discoveries|
    && |s'.discoveries| == (if d < |s.discoveries| then |s.discoveries| else |s.discoveries| + 1)
    && s'.discoveries[d] == DiscoveryRow(scope, |s.jobs|, Pending)
    && (forall e :: 0 <= e < |s.discoveries| && e != d ==> s'.discoveries[e] == s.discoveries[e])
    && (if d < |s.discoveries| then s.discoveries[d].scope == scope && !Active(s.discoveries[d].status)
        else forall e :: 0 <= e < |s.discoveries| ==> s.discoveries[e].scope != scope)
  }

  lemma CreatedRow(s: State, scope: Scope, autoScan: bool, autoCheck: bool) returns (d: nat)
    requires Linked(s) && Creates(s, scope)
    ensures
      var s' := DoCreateDiscovery(s, scope, autoScan, autoCheck);
      && Appended(s, s') && Created(s, s', scope, d)
      && s'.tasks[|s.tasks|] == QueuedFor(Discovery, Some(|s.jobs|), d)
    ensures
      var found := LatestFor(s.discoveries, scope, |s.discoveries|);
      d == if found.Some? then found.value else |s.discoveries|
  {
    var found := LatestFor(s.discoveries, scope, |s.discoveries|);
    d := if found.Some? then found.value else |s.discoveries|;
  }

  lemma CreatedRowsOwned(s: State, s': State, scope: Scope, d: nat)
    requires Linked(s) && RowsOwned(s) && Linked(s') && Created(s, s', scope, d)
    ensures RowsOwned(s')
  {
  }

  lemma CreateScanInv(s: State, targets: seq<nat>)
    requires Inv(s)
    ensures Inv(DoCreateScan(s, targets))
  {
    var s' := DoCreateScan(s, targets);
    AppendLinked(s, s');
    AppendInv(s, s');
  }

  lemma CreateRecomputeInv(s: State)
    requires Inv(s)
    ensures Inv(DoCreateRecompute(s))
  {
    var s' := DoCreateRecompute(s);
    AppendLinked(s, s');
    AppendInv(s, s');
  }

  lemma AddRunInv(s: State, scan: Option<nat>)
    requires Inv(s)
    ensures Inv(DoAddRun(s, scan))
  {
    var s' := DoAddRun(s, scan);
    forall t | 0 <= t < |s.tasks| ensures TaskLinked(s'.tasks[t], s'.jobs) && PayloadRowExists(s', s'.tasks[t]) {
      assert TaskLinked(s.tasks[t], s.jobs) && PayloadRowExists(s, s.tasks[t]);
    }
  }

  lemma QueueTaskStructure(s: State, r: nat)
    requires Structure(s) && r < |s.runs|
    requires forall t :: 0 <= t < |s.tasks| && s.tasks[t].job.None? ==> s.tasks[t].resource != r
    ensures Structure(DoQueueTask(s, r))
  {
    var s' := DoQueueTask(s, r);
    HasTaskGrows(s.tasks, s'.tasks, |s.jobs|);
    forall t | 0 <= t < |s'.tasks| ensures TaskLinked(s'.tasks[t], s'.jobs) && PayloadRowExists(s', s'.tasks[t]) {
      if t < |s.tasks| {
        assert TaskLinked(s.tasks[t], s.jobs) && PayloadRowExists(s, s.tasks[t]);
      }
    }
  }

  lemma QueueTaskInv(s: State, r: nat)
    requires Inv(s) && r < |s.runs|
    requires forall t :: 0 <= t < |s.tasks| && s.tasks[t].job.None? ==> s.tasks[t].resource != r
    ensures Inv(DoQueueTask(s, r))
  {
    QueueTaskStructure(s, r);
    assert forall t :: 0 <= t < |s.tasks| ==> DoQueueTask(s, r).tasks[t] == s.tasks[t];
  }

  lemma CreateRunInv(s: State, scan: Option<nat>)
    requires Inv(s)
    ensures Inv(DoCreateRun(s, scan))
  {
    AddRunInv(s, scan);
    forall t | 0 <= t < |s.tasks| && s.tasks[t].job.None? ensures s.tasks[t].resource != |s.runs| {
      assert TaskLinked(s.tasks[t], s.jobs) && PayloadRowExists(s, s.tasks[t]);
    }
    QueueTaskInv(DoAddRun(s, scan), |s.runs|);
  }

  lemma CancelMoves(s: State, j: nat, t: nat)
    requires Linked(s) && j < |s.jobs| && Cancellable(s.jobs[j])
    requires t < |s.tasks| && s.tasks[t].job == Some(j)
    requires forall u :: 0 <= u < |s.tasks| && u != t ==> s.tasks[u].job != Some(j)
    requires AttemptsOk(s.tasks[t]) && s.tasks[t].status == AsTask(s.jobs[j].status)
    ensures PairMoves(s, DoCancel(s, j), t) && SlotMoves(s, DoCancel(s, j), t, 0)
  {
    var s1 := WithJobStatus(s, j, Cancelled);
    var s2 := s1.(tasks := CancelTasks(s.tasks, j));
    assert TaskLinked(s.tasks[t], s.jobs);
    assert SameShape(s, s2);
    assert DoCancel(s, j) == SyncCancelled(s2, j);
  }

  lemma CancelInv(s: State, j: nat)
    requires Inv(s)
    ensures Inv(DoCancel(s, j))
  {
    if j < |s.jobs| && Cancellable(s.jobs[j]) {
      assert HasTask(s.tasks, j);
      var t :| 0 <= t < |s.tasks| && s.tasks[t].job == Some(j);
      CancelMoves(s, j, t);
      PairInv(s, DoCancel(s, j), t, 0);
    }
  }

  /** The branch of the claim for a cancelled job is never taken: its task is cancelled already. */
  lemma ClaimFindsPending(s: State, w: nat, t: nat)
    requires Inv(s) && CanClaim(s, w, t)
    ensures s.tasks[t].job.Some? ==> s.jobs[s.tasks[t].job.value].status == Pending
    ensures forall v :: 0 <= v < |s.workers| ==> s.workers[v] != Some(t)
  {
  }

  lemma ClaimMoves(s: State, w: nat, t: nat)
    requires Linked(s) && CanClaim(s, w, t) && AttemptsOk(s.tasks[t])
    requires s.tasks[t].job.Some? ==> s.jobs[s.tasks[t].job.value].status == Pending
    ensures PairMoves(s, DoClaim(s, w, t), t) && SlotMoves(s, DoClaim(s, w, t), t, w)
  {
    assert TaskLinked(s.tasks[t], s.jobs);
  }

  lemma ClaimInv(s: State, w: nat, t: nat)
    requires Inv(s)
    ensures Inv(DoClaim(s, w, t))
  {
    if CanClaim(s, w, t) {
      ClaimFindsPending(s, w, t);
      ClaimMoves(s, w, t);
      PairInv(s, DoClaim(s, w, t), t, w);
    }
  }

  /** What the invariant says of one task in flight. */
  predicate HeldOk(s: State, t: nat)
    requires t < |s.tasks|
  {
    && InFlight(s.tasks[t]) && AttemptsOk(s.tasks[t]) && TaskLinked(s.tasks[t], s.jobs)
    && (s.tasks[t].job.Some? ==> s.tasks[t].status == AsTask(s.jobs[s.tasks[t].job.value].status))
  }

  /** A completing discovery before its follow-up scan is queued. */
  ghost function WithoutSpawn(s: State, s': State): State
    requires |s.jobs| <= |s'.jobs| && |s.tasks| <= |s'.tasks|
  {
    s'.(jobs := s'.jobs[..|s.jobs|], tasks := s'.tasks[..|s.tasks|], runs := s.runs)
  }

  /** The held task and its job take a status together, and the worker lets go. */
  lemma EndMoves(s: State, s': State, w: nat, status: Status)
    requires Linked(s) && w < |s.workers| && s.workers[w].Some? && HeldOk(s, s.workers[w].value)
    requires status == Completed || (status == Cancelled && s.tasks[s.workers[w].value].status == Cancelled)
    requires
      var t := s.workers[w].value;
      && s.tasks[t].job.Some? && s'.tasks == s.tasks[t := s.tasks[t].(status := status)]
      && var j := s.tasks[t].job.value;
         && |s'.jobs| == |s.jobs| && s'.jobs == s.jobs[j := s'.jobs[j]] && s'.jobs[j].status == status
         && s'.jobs[j].kind == s.jobs[j].kind && s'.jobs[j].resource == s.jobs[j].resource
    requires |s'.discoveries| == |s.discoveries| && forall d :: 0 <= d < |s.discoveries| ==>
               s'.discoveries[d].scope == s.discoveries[d].scope && s'.discoveries[d].job == s.discoveries[d].job
    requires s'.runs == s.runs && s'.workers == s.workers[w := None]
    ensures PairMoves(s, s', s.workers[w].value) && SlotMoves(s, s', s.workers[w].value, w)
  {
  }

  lemma CompleteDiscoveryMoves(s: State, w: nat, promoted: seq<nat>, snapshot: bool)
    requires Linked(s) && w < |s.workers| && s.workers[w].Some? && HeldOk(s, s.workers[w].value)
    requires s.tasks[s.workers[w].value].kind == Discovery
    ensures
      var s' := DoComplete(s, w, promoted, snapshot);
      && |s.jobs| <= |s'.jobs| && |s.tasks| <= |s'.tasks|
      && var mid := WithoutSpawn(s, s');
         && PairMoves(s, mid, s.workers[w].value) && SlotMoves(s, mid, s.workers[w].value, w)
         && (s' == mid ||
             (Appended(mid, s') && s'.discoveries == mid.discoveries && s'.jobs[|s.jobs|].kind == Scan
              && s'.jobs[|s.jobs|].status == Pending && s'.tasks[|s.tasks|].status == Queued
              && s'.tasks[|s.tasks|].attempts == 0))
  {
    var t := s.workers[w].value;
    assert TaskLinked(s.tasks[t], s.jobs);
    var j := s.tasks[t].job.value;
    var s' := DoComplete(s, w, promoted, snapshot);
    var mid := WithoutSpawn(s, s');
    if s.jobs[j].status == Cancelled {
      assert s' == mid;
      EndMoves(s, mid, w, Cancelled);
    } else {
      assert mid.jobs == s.jobs[j := mid.jobs[j]];
      assert mid.tasks == s.tasks[t := s.tasks[t].(status := Completed)];
      EndMoves(s, mid, w, Completed);
    }
  }

  lemma CompleteDiscoveryInv(s: State, w: nat, promoted: seq<nat>, snapshot: bool)
    requires Inv(s) && w < |s.workers| && s.workers[w].Some? && s.tasks[s.workers[w].value].kind == Discovery
    ensures Inv(DoComplete(s, w, promoted, snapshot))
  {
    CompleteDiscoveryMoves(s, w, promoted, snapshot);
    var s' := DoComplete(s, w, promoted, snapshot);
    var mid := WithoutSpawn(s, s');
    PairInv(s, mid, s.workers[w].value, w);
    if s' != mid {
      AppendLinked(mid, s');
      AppendInv(mid, s');
    }
  }

  lemma CompleteScanMoves(s: State, w: nat, promoted: seq<nat>, snapshot: bool)
    requires Linked(s) && w < |s.workers| && s.workers[w].Some? && HeldOk(s, s.workers[w].value)
    requires s.tasks[s.workers[w].value].kind == Scan
    ensures
      var s' := DoComplete(s, w, promoted, snapshot);
      && |s.jobs| == |s'.jobs| && |s.tasks| <= |s'.tasks|
      && var mid := WithoutSpawn(s, s');
         && PairMoves(s, mid, s.workers[w].value) && SlotMoves(s, mid, s.workers[w].value, w)
         && (s' == mid || (|s'.runs| == |s.runs| + 1 && s' == DoCreateRun(mid, s'.runs[|s.runs|].scan)))
  {
    var t := s.workers[w].value;
    var s' := DoComplete(s, w, promoted, snapshot);
    var mid := WithoutSpawn(s, s');
    assert mid.jobs == s'.jobs;
    assert TaskLinked(s.tasks[t], s.jobs);
    if s.jobs[s.tasks[t].job.value].status == Cancelled {
      assert s' == mid;
      EndMoves(s, mid, w, Cancelled);
    } else {
      assert mid.tasks == s.tasks[t := s.tasks[t].(status := Completed)];
      EndMoves(s, mid, w, Completed);
    }
  }

  lemma CompleteLastMoves(s: State, w: nat, promoted: seq<nat>, snapshot: bool)
    requires Linked(s) && w < |s.workers| && s.workers[w].Some? && HeldOk(s, s.workers[w].value)
    requires s.tasks[s.workers[w].value].kind == Recompute || s.tasks[s.workers[w].value].kind == Performance
    ensures
      var s' := DoComplete(s, w, promoted, snapshot);
      PairMoves(s, s', s.workers[w].value) && SlotMoves(s, s', s.workers[w].value, w)
  {
  }

  lemma CompleteOtherInv(s: State, w: nat, promoted: seq<nat>, snapshot: bool)
    requires Inv(s) && w < |s.workers| && s.workers[w].Some? && s.tasks[s.workers[w].value].kind != Discovery
    ensures Inv(DoComplete(s, w, promoted, snapshot))
  {
    var s' := DoComplete(s, w, promoted, snapshot);
    var t := s.workers[w].value;
    if s.tasks[t].kind == Scan {
      CompleteScanMoves(s, w, promoted, snapshot);
      var mid := WithoutSpawn(s, s');
      PairInv(s, mid, t, w);
      if s' != mid {
        CreateRunInv(mid, s'.runs[|s.runs|].scan);
      }
    } else {
      CompleteLastMoves(s, w, promoted, snapshot);
      PairInv(s, s', t, w);
    }
  }

  lemma FailMoves(s: State, w: nat)
    requires Linked(s) && w < |s.workers| && s.workers[w].Some? && InFlight(s.tasks[s.workers[w].value])
    ensures PairMoves(s, DoFail(s, w), s.workers[w].value) && SlotMoves(s, DoFail(s, w), s.workers[w].value, w)
  {
    assert TaskLinked(s.tasks[s.workers[w].value], s.jobs);
  }

  lemma FailInv(s: State, w: nat)
    requires Inv(s)
    ensures Inv(DoFail(s, w))
  {
    if w < |s.workers| && s.workers[w].Some? {
      FailMoves(s, w);
      PairInv(s, DoFail(s, w), s.workers[w].value, w);
    }
  }

  lemma StepInv(s: State, e: Event)
    requires Inv(s)
    ensures Inv(Step(s, e))
  {
    match e {
      case CreateDiscovery(scope, autoScan, autoCheck) => CreateDiscoveryInv(s, scope, autoScan, autoCheck);
      case CreateScan(targets) => CreateScanInv(s, targets);
      case CreateRecompute => CreateRecomputeInv(s);
      case CreateRun => AddRunInv(s, None);
      case QueueRun(r) =>
        if Unqueued(s.runs, s.tasks, r) {
          QueueTaskInv(s, r);
        }
      case Cancel(j) => CancelInv(s, j);
      case Claim(w, t) => ClaimInv(s, w, t);
      case Complete(w, promoted, snapshot) =>
        if w < |s.workers| && s.workers[w].Some? {
          if s.tasks[s.workers[w].value].kind == Discovery {
            CompleteDiscoveryInv(s, w, promoted, snapshot);
          } else {
            CompleteOtherInv(s, w, promoted, snapshot);
          }
        }
      case Fail(w) => FailInv(s, w);
      case Abandon(w) => AbandonInv(s, w);
    }
  }

  lemma AbandonInv(s: State, w: nat)
    requires Inv(s)
    ensures Inv(DoAbandon(s, w))
  {
    ShapeKeepsStructure(s, DoAbandon(s, w));
  }
}
