/** The transactions as the code writes them, row by row, each proved to be one step of JobRows. */
module JobDatabase {
  import opened Basics
  import opened JobRows
  import opened JobInvariants

  class Database {
    var jobs: seq<Job>
    var tasks: seq<Task>
    var discoveries: seq<DiscoveryRow>
    var runs: seq<RunRow>
    var workers: seq<Option<nat>>

    ghost function Rows(): State
      reads this
    {
      State(jobs, tasks, discoveries, runs, workers)
    }

    constructor (n: nat)
      ensures Rows() == Init(n) && Inv(Rows())
    {
      jobs, tasks, discoveries, runs := [], [], [], [];
      workers := seq(n, _ => None);
    }

    method EnqueueTask(kind: Kind, job: Option<nat>, resource: nat)
      modifies this`tasks
      ensures tasks == old(tasks) + [QueuedFor(kind, job, resource)]
    {
      tasks := tasks + [Task(kind, job, resource, Queued, 0)];
    }

    method SetTask(t: nat, status: Status)
      requires t < |tasks|
      modifies this`tasks
      ensures Rows() == WithTaskStatus(old(Rows()), t, status)
    {
      tasks := tasks[t := tasks[t].(status := status)];
    }

    method SetJob(j: nat, status: Status)
      requires j < |jobs|
      modifies this`jobs
      ensures Rows() == WithJobStatus(old(Rows()), j, status)
    {
      jobs := jobs[j := jobs[j].(status := status)];
    }

    /** Tolerates a missing row. */
    method SetDiscovery(d: nat, status: Status)
      modifies this`discoveries
      ensures Rows() == WithDiscoveryStatus(old(Rows()), d, status)
    {
      if d < |discoveries| {
        discoveries := discoveries[d := discoveries[d].(status := status)];
      }
    }

    method FindDiscovery(scope: Scope) returns (found: Option<nat>)
      ensures found == LatestFor(discoveries, scope, |discoveries|)
    {
      var n: nat := |discoveries|;
      while n > 0 && discoveries[n - 1].scope != scope
        invariant n <= |discoveries|
        invariant LatestFor(discoveries, scope, n) == LatestFor(discoveries, scope, |discoveries|)
      {
        n := n - 1;
      }
      found := if n == 0 then None else Some(n - 1);
    }

    /** Reuses the row of the same scope unless it is still active; returns its current job. */
    method CreateDiscovery(scope: Scope, autoScan: bool, autoCheck: bool) returns (job: nat)
      requires Linked(Rows())
      modifies this
      ensures Rows() == DoCreateDiscovery(old(Rows()), scope, autoScan, autoCheck)
      ensures job < |jobs|
      ensures exists d :: 0 <= d < |discoveries| && discoveries[d].scope == scope && discoveries[d].job == job
      ensures |jobs| > old(|jobs|) ==>
                job == old(|jobs|) && jobs[job].autoScan == autoScan && jobs[job].autoCheck == autoCheck
    {
      var found := FindDiscovery(scope);
      if found.Some? && Active(discoveries[found.value].status) {
        return discoveries[found.value].job;
      }
      job := |jobs|;
      jobs := jobs + [NewJob(JobRows.Discovery, 0).(autoScan := autoScan, autoCheck := autoCheck)];
      var d := |discoveries|;
      if found.Some? {
        d := found.value;
        discoveries := discoveries[d := discoveries[d].(job := job, status := Pending)];
      } else {
        discoveries := discoveries + [DiscoveryRow(scope, job, Pending)];
      }
      jobs := jobs[job := jobs[job].(resource := d)];
      EnqueueTask(JobRows.Discovery, Some(job), d);
      assert discoveries[d].scope == scope && discoveries[d].job == job;
    }

    method CreateScanJob(targets: seq<nat>) returns (job: nat)
      requires Linked(Rows())
      modifies this
      ensures Rows() == DoCreateScan(old(Rows()), targets)
      ensures job == old(|jobs|)
    {
      job := |jobs|;
      jobs := jobs + [NewJob(Scan, 0).(targets := targets)];
      EnqueueTask(Scan, Some(job), 0);
    }

    method CreateRecomputeJob() returns (job: nat)
      requires Linked(Rows())
      modifies this
      ensures Rows() == DoCreateRecompute(old(Rows()))
      ensures job == old(|jobs|)
    {
      job := |jobs|;
      jobs := jobs + [NewJob(Recompute, 0)];
      EnqueueTask(Recompute, Some(job), 0);
    }

    method CreatePerformanceRun(scan: Option<nat>) returns (run: nat)
      modifies this`runs
      ensures Rows() == DoAddRun(old(Rows()), scan)
      ensures run == old(|runs|)
    {
      run := |runs|;
      runs := runs + [RunRow(scan)];
    }

    method EnqueueRun(run: nat)
      modifies this`tasks
      ensures Rows() == DoQueueTask(old(Rows()), run)
    {
      EnqueueTask(Performance, None, run);
    }

    /** Cancels whatever of the job's tasks has not finished, one row after the other. */
    method CancelQueuedTasks(j: nat)
      modifies this`tasks
      ensures tasks == CancelTasks(old(tasks), j)
    {
      for i := 0 to |tasks|
        invariant |tasks| == |old(tasks)|
        invariant forall k :: 0 <= k < i ==> tasks[k] == CancelTask(old(tasks)[k], j)
        invariant forall k :: i <= k < |tasks| ==> tasks[k] == old(tasks)[k]
      {
        if tasks[i].job == Some(j) && tasks[i].status in {Queued, Running} {
          tasks := tasks[i := tasks[i].(status := Cancelled)];
        }
      }
    }

    method SyncCancelledResource(j: nat)
      requires j < |jobs|
      modifies this`discoveries
      ensures Rows() == SyncCancelled(old(Rows()), j)
    {
      if jobs[j].kind != JobRows.Discovery {
        return;
      }
      var n: nat := |discoveries|;
      while n > 0 && discoveries[n - 1].job != j
        invariant n <= |discoveries| && discoveries == old(discoveries)
        invariant RowOfJob(discoveries, j, n) == RowOfJob(discoveries, j, |discoveries|)
      {
        n := n - 1;
      }
      if n > 0 {
        SetDiscovery(n - 1, Cancelled);
      }
    }

    /** Refused for finished jobs and for a running recompute; otherwise the job ends up Cancelled. */
    method RequestCancel(j: nat) returns (accepted: bool)
      requires Linked(Rows()) && j < |jobs|
      modifies this
      ensures Rows() == DoCancel(old(Rows()), j)
      ensures accepted <==> jobs[j].status == Cancelled
      ensures accepted <==> !(old(jobs[j].status) in {Completed, Failed}
                              || (old(jobs[j].kind) == Recompute && old(jobs[j].status) == Running))
      ensures !accepted ==> Rows() == old(Rows())
    {
      if jobs[j].status == Cancelled {
        CancelQueuedTasks(j);
        SyncCancelledResource(j);
        return true;
      }
      if jobs[j].status in {Completed, Failed} {
        return false;
      }
      if jobs[j].kind == Recompute && jobs[j].status == Running {
        return false;
      }
      SetJob(j, Cancelled);
      CancelQueuedTasks(j);
      SyncCancelledResource(j);
      return true;
    }

    /** The claiming transaction; `started` tells the worker to run the payload. */
    method ClaimTask(w: nat, t: nat) returns (started: bool)
      requires Linked(Rows()) && w < |workers| && workers[w] == None
      modifies this
      ensures Rows() == DoClaim(old(Rows()), w, t)
      ensures started <==> workers[w] == Some(t)
      ensures started ==> old(t < |tasks| && tasks[t].status == Queued)
    {
      if t >= |tasks| || tasks[t].status != Queued {
        return false;
      }
      assert TaskLinked(tasks[t], jobs);
      if (tasks[t].kind == JobRows.Discovery && tasks[t].resource >= |discoveries|)
         || (tasks[t].kind == Performance && tasks[t].resource >= |runs|) {
        return false;
      }
      tasks := tasks[t := tasks[t].(status := Running, attempts := tasks[t].attempts + 1)];
      if tasks[t].job.Some? {
        if jobs[tasks[t].job.value].status == Cancelled {
          SetTask(t, Cancelled);
          return false;
        }
        SetJob(tasks[t].job.value, Running);
      }
      if tasks[t].kind == JobRows.Discovery {
        SetDiscovery(tasks[t].resource, Running);
      }
      workers := workers[w := Some(t)];
      return true;
    }

    method FinishJob(j: nat, result: JobResult)
      requires j < |jobs|
      modifies this`jobs
      ensures Rows() == Finish(old(Rows()), j, result)
    {
      jobs := jobs[j := jobs[j].(status := Completed, result := result)];
    }

    /** Re-checks for cancellation, then completes task, row and job and queues the follow-up scan. */
    method CompleteDiscoveryTask(w: nat, promoted: seq<nat>)
      requires Linked(Rows()) && w < |workers| && workers[w].Some? && tasks[workers[w].value].kind == JobRows.Discovery
      modifies this
      ensures Rows() == DoComplete(old(Rows()), w, promoted, false)
    {
      var t := workers[w].value;
      assert TaskLinked(tasks[t], jobs);
      var j, d := tasks[t].job.value, tasks[t].resource;
      if jobs[j].status == Cancelled {
        SetTask(t, Cancelled);
      } else {
        SetTask(t, Completed);
        SetDiscovery(d, Completed);
        var result := Discovered(None);
        if d < |discoveries| && jobs[j].autoScan {
          if promoted == [] {
            result := Discovered(Some(FollowUp(0, None)));
          } else {
            var child := |jobs|;
            jobs := jobs + [NewJob(Scan, 0).(origin := Some(j), targets := promoted, autoCheck := jobs[j].autoCheck)];
            EnqueueTask(Scan, Some(child), 0);
            result := Discovered(Some(FollowUp(|promoted|, Some(child))));
          }
        }
        FinishJob(j, result);
      }
      workers := workers[w := None];
    }

    /** Re-checks for cancellation, then completes task and job and queues the performance run. */
    method CompleteScanTask(w: nat, snapshot: bool)
      requires Linked(Rows()) && w < |workers| && workers[w].Some? && tasks[workers[w].value].kind == Scan
      modifies this
      ensures Rows() == DoComplete(old(Rows()), w, [], snapshot)
    {
      var t := workers[w].value;
      assert TaskLinked(tasks[t], jobs);
      var j := tasks[t].job.value;
      if jobs[j].status == Cancelled {
        SetTask(t, Cancelled);
      } else {
        SetTask(t, Completed);
        var result := Scanned(None);
        if jobs[j].autoCheck && snapshot {
          var run := CreatePerformanceRun(Some(j));
          EnqueueRun(run);
          result := Scanned(Some(run));
        }
        FinishJob(j, result);
      }
      workers := workers[w := None];
    }

    /** No check for cancellation here. */
    method CompleteRecomputeTask(w: nat)
      requires Linked(Rows()) && w < |workers| && workers[w].Some? && tasks[workers[w].value].kind == Recompute
      modifies this
      ensures Rows() == DoComplete(old(Rows()), w, [], false)
    {
      var t := workers[w].value;
      assert TaskLinked(tasks[t], jobs);
      SetTask(t, Completed);
      FinishJob(tasks[t].job.value, Recomputed);
      workers := workers[w := None];
    }

    method CompletePerformanceTask(w: nat)
      requires Linked(Rows()) && w < |workers| && workers[w].Some? && tasks[workers[w].value].kind == Performance
      modifies this
      ensures Rows() == DoComplete(old(Rows()), w, [], false)
    {
      SetTask(workers[w].value, Completed);
      workers := workers[w := None];
    }

    /** Fails task, discovery row and job, whatever the job's status has become. */
    method FailTask(w: nat)
      requires Linked(Rows()) && w < |workers| && workers[w].Some?
      modifies this
      ensures Rows() == DoFail(old(Rows()), w)
    {
      var t := workers[w].value;
      assert TaskLinked(tasks[t], jobs);
      SetTask(t, Failed);
      if tasks[t].kind == JobRows.Discovery {
        SetDiscovery(tasks[t].resource, Failed);
      }
      if tasks[t].job.Some? {
        SetJob(tasks[t].job.value, Failed);
      }
      workers := workers[w := None];
    }

    method CompleteTask(w: nat, promoted: seq<nat>, snapshot: bool)
      requires Linked(Rows()) && w < |workers| && workers[w].Some?
      modifies this
      ensures Rows() == DoComplete(old(Rows()), w, promoted, snapshot)
    {
      match tasks[workers[w].value].kind {
        case Discovery => CompleteDiscoveryTask(w, promoted);
        case Scan => CompleteScanTask(w, snapshot);
        case Recompute => CompleteRecomputeTask(w);
        case Performance => CompletePerformanceTask(w);
      }
    }

    /** Whatever event comes next, the rows take that step and keep the invariant. */
    method Handle(e: Event)
      requires Inv(Rows())
      modifies this
      ensures Rows() == Step(old(Rows()), e) && Inv(Rows())
    {
      StepInv(Rows(), e);
      match e {
        case CreateDiscovery(scope, autoScan, autoCheck) =>
          var _ := CreateDiscovery(scope, autoScan, autoCheck);
        case CreateScan(targets) =>
          var _ := CreateScanJob(targets);
        case CreateRecompute =>
          var _ := CreateRecomputeJob();
        case CreateRun =>
          var _ := CreatePerformanceRun(None);
        case QueueRun(run) =>
          if Unqueued(runs, tasks, run) {
            EnqueueRun(run);
          }
        case Cancel(j) =>
          if j < |jobs| {
            var _ := RequestCancel(j);
          }
        case Claim(w, t) =>
          if w < |workers| && workers[w] == None {
            var _ := ClaimTask(w, t);
          }
        case Complete(w, promoted, snapshot) =>
          if w < |workers| && workers[w].Some? {
            CompleteTask(w, promoted, snapshot);
          }
        case Fail(w) =>
          if w < |workers| && workers[w].Some? {
            FailTask(w);
          }
        case Abandon(w) =>
          if w < |workers| {
            workers := workers[w := None];
          }
      }
    }
  }
}
