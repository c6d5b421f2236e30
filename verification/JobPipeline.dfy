/** The pipeline discovery -> scan -> performance run: who spawns what. */
module JobPipeline {
  import opened Basics
  import opened JobRows
  import opened JobInvariants
  import opened JobRuns

  // ----- Spawning -----

  /** A job that names an origin is the scan which that completed discovery job recorded. */
  predicate ChildRecorded(jobs: seq<Job>, c: nat)
    requires c < |jobs|
  {
    jobs[c].origin.Some? ==>
      && jobs[c].origin.value < |jobs| && jobs[c].kind == Scan && jobs[c].targets != []
      && var p := jobs[jobs[c].origin.value];
         && p.kind == Discovery && p.status == Completed && jobs[c].autoCheck == p.autoCheck
         && p.result == Discovered(Some(FollowUp(|jobs[c].targets|, Some(c))))
  }

  /** A completed discovery job spawned a scan exactly when asked to and when there were targets. */
  predicate FollowedUp(jobs: seq<Job>, p: nat)
    requires p < |jobs|
  {
    jobs[p].kind == Discovery && jobs[p].status == Completed ==>
      && jobs[p].result.Discovered?
      && (jobs[p].result.followUp.Some? <==> jobs[p].autoScan)
      && (jobs[p].autoScan ==>
            var f := jobs[p].result.followUp.value;
            && (f.scanJob.Some? <==> f.targetCount > 0)
            && (f.scanJob.Some? ==> f.scanJob.value < |jobs| && jobs[f.scanJob.value].origin == Some(p)))
  }

  predicate RunRecorded(s: State, r: nat)
    requires r < |s.runs|
  {
    s.runs[r].scan.Some? ==>
      && s.runs[r].scan.value < |s.jobs|
      && var j := s.jobs[s.runs[r].scan.value];
         j.kind == Scan && j.status == Completed && j.autoCheck && j.result == Scanned(Some(r))
  }

  predicate Spawns(s: State) {
    && (forall c :: 0 <= c < |s.jobs| ==> ChildRecorded(s.jobs, c) && FollowedUp(s.jobs, c))
    && (forall r :: 0 <= r < |s.runs| ==> RunRecorded(s, r))
  }

  /** Nothing completes; whatever is added has no origin. */
  predicate Quiet(s: State, s': State) {
    && |s.jobs| <= |s'.jobs| && |s.runs| <= |s'.runs|
    && (forall j :: 0 <= j < |s.jobs| ==>
          && s'.jobs[j] == s.jobs[j].(status := s'.jobs[j].status)
          && (s'.jobs[j].status == Completed <==> s.jobs[j].status == Completed))
    && (forall j :: |s.jobs| <= j < |s'.jobs| ==> s'.jobs[j].origin == None && s'.jobs[j].status == Pending)
    && (forall r :: 0 <= r < |s.runs| ==> s'.runs[r] == s.runs[r])
    && (forall r :: |s.runs| <= r < |s'.runs| ==> s'.runs[r].scan == None)
  }

  lemma QuietSpawns(s: State, s': State)
    requires Spawns(s) && Quiet(s, s')
    ensures Spawns(s')
  {
    forall c | 0 <= c < |s'.jobs| ensures ChildRecorded(s'.jobs, c) && FollowedUp(s'.jobs, c) {
      if c < |s.jobs| {
        assert ChildRecorded(s.jobs, c) && FollowedUp(s.jobs, c);
      }
    }
    forall r | 0 <= r < |s'.runs| ensures RunRecorded(s', r) {
      if r < |s.runs| {
        assert RunRecorded(s, r);
      }
    }
  }

  lemma RequestQuiet(s: State, e: Event)
    requires Linked(s) && !e.IsWorker()
    ensures Quiet(s, Step(s, e))
  {
  }

  lemma FailQuiet(s: State, w: nat)
    requires Linked(s) && w < |s.workers| && s.workers[w].Some? && HeldOk(s, s.workers[w].value)
    ensures Quiet(s, DoFail(s, w))
  {
  }

  lemma ClaimQuiet(s: State, w: nat, t: nat)
    requires Linked(s) && CanClaim(s, w, t)
    requires s.tasks[t].job.Some? ==> s.jobs[s.tasks[t].job.value].status == Pending
    ensures Quiet(s, DoClaim(s, w, t))
  {
  }

  /** One job completes with a result, and at most one job is added. */
  lemma CompletedSpawns(s: State, s': State, j: nat, result: JobResult)
    requires Spawns(s) && j < |s.jobs| && s.jobs[j].status != Completed
    requires |s'.jobs| >= |s.jobs|
    requires forall i :: 0 <= i < |s.jobs| && i != j ==> s'.jobs[i] == s.jobs[i]
    requires s'.jobs[j] == s.jobs[j].(status := Completed, result := result)
    requires forall c :: |s.jobs| <= c < |s'.jobs| ==> ChildRecorded(s'.jobs, c) && s'.jobs[c].status == Pending
    requires FollowedUp(s'.jobs, j)
    requires |s'.runs| >= |s.runs|
    requires forall r :: 0 <= r < |s.runs| ==> s'.runs[r] == s.runs[r]
    requires forall r :: |s.runs| <= r < |s'.runs| ==> RunRecorded(s', r)
    ensures Spawns(s')
  {
    forall c | 0 <= c < |s'.jobs| ensures ChildRecorded(s'.jobs, c) && FollowedUp(s'.jobs, c) {
      if c < |s.jobs| {
        assert ChildRecorded(s.jobs, c) && FollowedUp(s.jobs, c);
      }
    }
    forall r | 0 <= r < |s.runs| ensures RunRecorded(s', r) {
      assert RunRecorded(s, r);
    }
  }

  lemma CompleteSpawns(s: State, w: nat, promoted: seq<nat>, snapshot: bool)
    requires Linked(s) && Spawns(s) && w < |s.workers| && s.workers[w].Some? && HeldOk(s, s.workers[w].value)
    requires PayloadRowExists(s, s.tasks[s.workers[w].value])
    ensures Spawns(DoComplete(s, w, promoted, snapshot))
  {
    var s' := DoComplete(s, w, promoted, snapshot);
    var task := s.tasks[s.workers[w].value];
    if task.job.None? || (s.jobs[task.job.value].status == Cancelled && task.kind != Recompute) {
      assert Quiet(s, s');
      QuietSpawns(s, s');
    } else if task.kind == Discovery {
      DiscoverySpawns(s, w, promoted, snapshot);
    } else {
      var j := task.job.value;
      assert s'.jobs == s.jobs[j := s.jobs[j].(status := Completed, result := s'.jobs[j].result)];
      CompletedSpawns(s, s', j, s'.jobs[j].result);
    }
  }

  lemma DiscoverySpawns(s: State, w: nat, promoted: seq<nat>, snapshot: bool)
    requires Linked(s) && Spawns(s) && w < |s.workers| && s.workers[w].Some? && HeldOk(s, s.workers[w].value)
    requires
      var task := s.tasks[s.workers[w].value];
      PayloadRowExists(s, task) && task.kind == Discovery && s.jobs[task.job.value].status == Running
    ensures Spawns(DoComplete(s, w, promoted, snapshot))
  {
    var s' := DoComplete(s, w, promoted, snapshot);
    var t := s.workers[w].value;
    var j := s.tasks[t].job.value;
    forall i | 0 <= i < |s.jobs|
      ensures |s.jobs| <= |s'.jobs|
      ensures s'.jobs[i] == if i == j then s.jobs[j].(status := Completed, result := s'.jobs[j].result) else s.jobs[i]
    {
      DiscoveryJobs(s, t, j, promoted, i);
    }
    CompletedSpawns(s, s', j, s'.jobs[j].result);
  }

  lemma StepSpawns(s: State, e: Event)
    requires Inv(s) && Spawns(s)
    ensures Spawns(Step(s, e))
  {
    match e {
      case Claim(w, t) =>
        if CanClaim(s, w, t) {
          ClaimFindsPending(s, w, t);
          ClaimQuiet(s, w, t);
          QuietSpawns(s, DoClaim(s, w, t));
        }
      case Complete(w, promoted, snapshot) =>
        if w < |s.workers| && s.workers[w].Some? {
          HeldJob(s, w);
          CompleteSpawns(s, w, promoted, snapshot);
        }
      case Fail(w) =>
        if w < |s.workers| && s.workers[w].Some? {
          HeldJob(s, w);
          FailQuiet(s, w);
          QuietSpawns(s, DoFail(s, w));
        }
      case Abandon(w) => QuietSpawns(s, DoAbandon(s, w));
      case _ =>
        RequestQuiet(s, e);
        QuietSpawns(s, Step(s, e));
    }
  }

  lemma {:induction false} ExecSpawns(s: State, events: seq<Event>)
    requires Inv(s) && Spawns(s)
    ensures Spawns(Exec(s, events))
    decreases |events|
  {
    if events != [] {
      StepInv(s, events[0]);
      StepSpawns(s, events[0]);
      ExecSpawns(Step(s, events[0]), events[1..]);
    }
  }

  /** In every run: a completed discovery job that was to scan and found targets has exactly one scan
      in its name, with that many targets; one that was not, or found none, has no scan. */
  lemma OneScanPerDiscovery(n: nat, events: seq<Event>, p: nat)
    requires p < |Exec(Init(n), events).jobs|
    requires
      var job := Exec(Init(n), events).jobs[p];
      job.kind == Discovery && job.status == Completed
    ensures
      var jobs := Exec(Init(n), events).jobs;
      && jobs[p].result.Discovered?
      && (jobs[p].autoScan ==> jobs[p].result.followUp.Some?)
      && (if jobs[p].autoScan && jobs[p].result.followUp.value.targetCount > 0
          then exists c :: 0 <= c < |jobs| && jobs[c].origin == Some(p) && jobs[c].kind == Scan
                           && |jobs[c].targets| == jobs[p].result.followUp.value.targetCount
                           && forall d :: 0 <= d < |jobs| && jobs[d].origin == Some(p) ==> d == c
          else forall c :: 0 <= c < |jobs| ==> jobs[c].origin != Some(p))
  {
    ExecSpawns(Init(n), events);
    var jobs := Exec(Init(n), events).jobs;
    assert ChildRecorded(jobs, p) && FollowedUp(jobs, p);
    forall d | 0 <= d < |jobs| && jobs[d].origin == Some(p)
      ensures jobs[p].autoScan && jobs[p].result.followUp.value.scanJob == Some(d)
    {
      assert ChildRecorded(jobs, d);
    }
    if jobs[p].autoScan && jobs[p].result.followUp.value.targetCount > 0 {
      var c := jobs[p].result.followUp.value.scanJob.value;
      assert ChildRecorded(jobs, c);
      assert jobs[c].origin == Some(p);
    }
  }

  /** In every run: two performance runs never name the same scan, and the scan they name is complete. */
  lemma OneRunPerScan(n: nat, events: seq<Event>, q: nat, r: nat)
    requires var s := Exec(Init(n), events); q < |s.runs| && r < |s.runs| && s.runs[q].scan.Some?
    ensures
      var s := Exec(Init(n), events);
      && s.runs[q].scan.value < |s.jobs|
      && s.jobs[s.runs[q].scan.value].kind == Scan && s.jobs[s.runs[q].scan.value].status == Completed
      && (s.runs[r].scan == s.runs[q].scan ==> r == q)
  {
    ExecSpawns(Init(n), events);
    var s := Exec(Init(n), events);
    assert RunRecorded(s, q) && RunRecorded(s, r);
  }

  /** What the discovery's own completion writes: its scan has exactly the promoted targets. */
  lemma CompletionRecordsTargets(s: State, w: nat, promoted: seq<nat>, snapshot: bool)
    requires Inv(s) && w < |s.workers| && s.workers[w].Some?
    requires
      var task := s.tasks[s.workers[w].value];
      task.kind == Discovery && s.jobs[task.job.value].status != Cancelled
    ensures
      var s' := DoComplete(s, w, promoted, snapshot);
      var j := s.tasks[s.workers[w].value].job.value;
      if s.jobs[j].autoScan && promoted != []
      then && |s'.jobs| == |s.jobs| + 1 && s'.jobs[|s.jobs|].kind == Scan
           && s'.jobs[|s.jobs|].targets == promoted && s'.jobs[|s.jobs|].origin == Some(j)
           && s'.tasks[|s'.tasks| - 1] == QueuedFor(Scan, Some(|s.jobs|), 0)
      else |s'.jobs| == |s.jobs|
  {
    HeldJob(s, w);
    assert PayloadRowExists(s, s.tasks[s.workers[w].value]);
  }

  /** A scan's own completion queues a run exactly when asked to and when there is a snapshot, and never a job. */
  lemma CompletionQueuesRun(s: State, w: nat, promoted: seq<nat>, snapshot: bool)
    requires Inv(s) && w < |s.workers| && s.workers[w].Some?
    requires var task := s.tasks[s.workers[w].value]; task.kind == Scan && s.jobs[task.job.value].status != Cancelled
    ensures
      var s' := DoComplete(s, w, promoted, snapshot);
      var j := s.tasks[s.workers[w].value].job.value;
      && |s'.jobs| == |s.jobs| && s'.jobs[j].status == Completed && s'.workers[w] == None
      && if s.jobs[j].autoCheck && snapshot
         then && s'.runs == s.runs + [RunRow(Some(j))] && s'.jobs[j].result == Scanned(Some(|s.runs|))
              && |s'.tasks| == |s.tasks| + 1 && s'.tasks[|s.tasks|] == QueuedFor(Performance, None, |s.runs|)
         else s'.runs == s.runs && s'.jobs[j].result == Scanned(None) && |s'.tasks| == |s.tasks|
  {
    HeldJob(s, w);
  }
}
