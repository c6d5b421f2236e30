/** What each transaction does to the rows, field by field: everything that changes, and that nothing else does. */
module JobEffects {
  import opened Basics
  import opened JobRows
  import opened JobInvariants
  import opened JobRuns
  import opened JobPipeline

  // ----- Requests -----

  /** Finished jobs and running recomputes refuse to be cancelled; nobody else does. */
  predicate Refuses(job: Job) {
    job.status == Completed || job.status == Failed || (job.kind == Recompute && job.status == Running)
  }

  /** Cancelling reaches the job, its task and the discovery row attached to it, and nothing else. */
  lemma CancelTakes(s: State, j: nat)
    requires Inv(s) && j < |s.jobs|
    ensures
      var s' := Step(s, Cancel(j));
      if Refuses(s.jobs[j]) then s' == s
      else
        && s'.jobs == s.jobs[j := s.jobs[j].(status := Cancelled)]
        && |s'.tasks| == |s.tasks| && |s'.discoveries| == |s.discoveries|
        && (forall t :: 0 <= t < |s.tasks| ==>
              s'.tasks[t] == if s.tasks[t].job == Some(j) then s.tasks[t].(status := Cancelled) else s.tasks[t])
        && (forall d :: 0 <= d < |s.discoveries| ==>
              s'.discoveries[d] ==
              if s.discoveries[d].job == j then s.discoveries[d].(status := Cancelled) else s.discoveries[d])
        && s'.runs == s.runs && s'.workers == s.workers
  {
    if !Refuses(s.jobs[j]) {
      forall t | 0 <= t < |s.tasks| && s.tasks[t].job == Some(j)
        ensures s.tasks[t].status in {Queued, Running, Cancelled}
      {
        assert s.tasks[t].status == AsTask(s.jobs[j].status);
      }
      CancelRows(s, j);
    }
  }

  lemma CancelRows(s: State, j: nat)
    requires Linked(s) && RowsOwned(s) && j < |s.jobs| && !Refuses(s.jobs[j])
    requires forall t :: 0 <= t < |s.tasks| && s.tasks[t].job == Some(j) ==>
               s.tasks[t].status in {Queued, Running, Cancelled}
    ensures
      var s' := Step(s, Cancel(j));
      && s'.jobs == s.jobs[j := s.jobs[j].(status := Cancelled)]
      && |s'.tasks| == |s.tasks| && |s'.discoveries| == |s.discoveries|
      && (forall t :: 0 <= t < |s.tasks| ==>
            s'.tasks[t] == if s.tasks[t].job == Some(j) then s.tasks[t].(status := Cancelled) else s.tasks[t])
      && (forall d :: 0 <= d < |s.discoveries| ==>
            s'.discoveries[d] ==
            if s.discoveries[d].job == j then s.discoveries[d].(status := Cancelled) else s.discoveries[d])
      && s'.runs == s.runs && s'.workers == s.workers
  {
  }

  /** A request for a scope with a row under way changes nothing; any other adds a job with exactly the request's
      flags, its task, and the scope's row attached to it. */
  lemma CreateDiscoveryTakes(s: State, scope: Scope, autoScan: bool, autoCheck: bool) returns (d: nat)
    requires Inv(s)
    ensures
      var s', n := Step(s, CreateDiscovery(scope, autoScan, autoCheck)), |s.jobs|;
      if exists e :: 0 <= e < |s.discoveries| && s.discoveries[e].scope == scope && Active(s.discoveries[e].status)
      then s' == s
      else
        && d <= |s.discoveries|
        && (d < |s.discoveries| ==> s.discoveries[d].scope == scope)
        && (d == |s.discoveries| ==> forall e :: 0 <= e < |s.discoveries| ==> s.discoveries[e].scope != scope)
        && s'.jobs == s.jobs + [Job(Discovery, Pending, d, autoScan, autoCheck, None, [], NoResult)]
        && s'.tasks == s.tasks + [Task(Discovery, Some(n), d, Queued, 0)]
        && |s'.discoveries| == (if d < |s.discoveries| then |s.discoveries| else d + 1)
        && s'.discoveries[d] == DiscoveryRow(scope, n, Pending)
        && (forall e :: 0 <= e < |s.discoveries| && e != d ==> s'.discoveries[e] == s.discoveries[e])
        && s'.runs == s.runs && s'.workers == s.workers
  {
    var found := LatestFor(s.discoveries, scope, |s.discoveries|);
    d := if found.Some? then found.value else |s.discoveries|;
    OnlyRow(s, scope);
    CreateRows(s, scope, autoScan, autoCheck);
  }

  /** Scopes being distinct, the newest row of a scope is its only one. */
  lemma OnlyRow(s: State, scope: Scope)
    requires Linked(s) && RowsOwned(s)
    ensures
      var found := LatestFor(s.discoveries, scope, |s.discoveries|);
      && (exists e :: 0 <= e < |s.discoveries| && s.discoveries[e].scope == scope && Active(s.discoveries[e].status))
         == (found.Some? && Active(s.discoveries[found.value].status))
      && (found.None? ==> forall e :: 0 <= e < |s.discoveries| ==> s.discoveries[e].scope != scope)
  {
    var found := LatestFor(s.discoveries, scope, |s.discoveries|);
    if found.Some? {
      forall e | 0 <= e < |s.discoveries| && s.discoveries[e].scope == scope ensures e == found.value {
      }
    }
  }

  lemma CreateRows(s: State, scope: Scope, autoScan: bool, autoCheck: bool)
    requires Linked(s)
    ensures
      var found := LatestFor(s.discoveries, scope, |s.discoveries|);
      var d := if found.Some? then found.value else |s.discoveries|;
      var s', n := Step(s, CreateDiscovery(scope, autoScan, autoCheck)), |s.jobs|;
      if found.Some? && Active(s.discoveries[d].status) then s' == s
      else
        && s'.jobs == s.jobs + [Job(Discovery, Pending, d, autoScan, autoCheck, None, [], NoResult)]
        && s'.tasks == s.tasks + [Task(Discovery, Some(n), d, Queued, 0)]
        && |s'.discoveries| == (if d < |s.discoveries| then |s.discoveries| else d + 1)
        && s'.discoveries[d] == DiscoveryRow(scope, n, Pending)
        && (forall e :: 0 <= e < |s.discoveries| && e != d ==> s'.discoveries[e] == s.discoveries[e])
        && s'.runs == s.runs && s'.workers == s.workers
  {
  }

  /** The other requests: a scan of exactly these targets, a recompute, a run, a run's task. */
  lemma OtherRequestsTake(s: State, targets: seq<nat>, run: nat)
    requires Inv(s)
    ensures Step(s, CreateScan(targets)) == s.(
      jobs := s.jobs + [Job(Scan, Pending, 0, false, false, None, targets, NoResult)],
      tasks := s.tasks + [Task(Scan, Some(|s.jobs|), 0, Queued, 0)])
    ensures Step(s, CreateRecompute) == s.(
      jobs := s.jobs + [Job(Recompute, Pending, 0, false, false, None, [], NoResult)],
      tasks := s.tasks + [Task(Recompute, Some(|s.jobs|), 0, Queued, 0)])
    ensures Step(s, CreateRun) == s.(runs := s.runs + [RunRow(None)])
    ensures
      if run < |s.runs| && s.runs[run].scan.None?
         && forall t :: 0 <= t < |s.tasks| && s.tasks[t].job.None? ==> s.tasks[t].resource != run
      then Step(s, QueueRun(run)) == s.(tasks := s.tasks + [Task(Performance, None, run, Queued, 0)])
      else Step(s, QueueRun(run)) == s
  {
  }

  // ----- Workers -----

  /** The statuses of a task, of its job and of its discovery row after a worker's step. */
  predicate Marked(s: State, s': State, t: nat, status: Status, attempts: nat)
    requires t < |s.tasks| && TaskLinked(s.tasks[t], s.jobs)
  {
    var task := s.tasks[t];
    && |s'.tasks| >= |s.tasks| && |s'.jobs| >= |s.jobs| && |s'.discoveries| == |s.discoveries|
    && (forall u :: 0 <= u < |s.tasks| ==>
          s'.tasks[u] == if u == t then task.(status := status, attempts := attempts) else s.tasks[u])
    && (forall j :: 0 <= j < |s.jobs| ==>
          s'.jobs[j] ==
          if task.job == Some(j) then s.jobs[j].(status := status, result := s'.jobs[j].result) else s.jobs[j])
    && (forall d :: 0 <= d < |s.discoveries| ==>
          s'.discoveries[d] ==
          if task.kind == Discovery && task.resource == d then s.discoveries[d].(status := status)
          else s.discoveries[d])
  }

  /** A claim by an idle worker of a queued task sets task, job and discovery row running, and counts the attempt;
      any other claim changes nothing. */
  lemma ClaimTakes(s: State, w: nat, t: nat)
    requires Inv(s)
    ensures
      var s' := Step(s, Claim(w, t));
      if w < |s.workers| && s.workers[w] == None && t < |s.tasks| && s.tasks[t].status == Queued
      then
        && TaskLinked(s.tasks[t], s.jobs) && Marked(s, s', t, Running, 1)
        && |s'.tasks| == |s.tasks| && |s'.jobs| == |s.jobs| && s'.runs == s.runs
        && s'.workers == s.workers[w := Some(t)]
        && (s.tasks[t].job.Some? ==> s'.jobs[s.tasks[t].job.value].result == s.jobs[s.tasks[t].job.value].result)
      else s' == s
  {
    if w < |s.workers| && s.workers[w] == None && t < |s.tasks| && s.tasks[t].status == Queued {
      assert PayloadRowExists(s, s.tasks[t]) && TaskLinked(s.tasks[t], s.jobs) && AttemptsOk(s.tasks[t]);
      ClaimFindsPending(s, w, t);
      ClaimMarks(s, w, t);
    }
  }

  lemma ClaimMarks(s: State, w: nat, t: nat)
    requires Linked(s) && CanClaim(s, w, t) && TaskLinked(s.tasks[t], s.jobs) && s.tasks[t].attempts == 0
    requires s.tasks[t].job.Some? ==> s.jobs[s.tasks[t].job.value].status == Pending
    ensures
      var s' := Step(s, Claim(w, t));
      && Marked(s, s', t, Running, 1) && |s'.tasks| == |s.tasks| && |s'.jobs| == |s.jobs| && s'.runs == s.runs
      && s'.workers == s.workers[w := Some(t)]
      && (s.tasks[t].job.Some? ==> s'.jobs[s.tasks[t].job.value].result == s.jobs[s.tasks[t].job.value].result)
  {
  }

  /** A failure marks task, job and discovery row failed, whatever the job's status, and frees the worker. */
  lemma FailTakes(s: State, w: nat)
    requires Inv(s) && w < |s.workers| && s.workers[w].Some?
    ensures
      var s', t := Step(s, Fail(w)), s.workers[w].value;
      && TaskLinked(s.tasks[t], s.jobs) && Marked(s, s', t, Failed, 1)
      && |s'.tasks| == |s.tasks| && |s'.jobs| == |s.jobs| && s'.runs == s.runs && s'.workers == s.workers[w := None]
      && (s.tasks[t].job.Some? ==> s'.jobs[s.tasks[t].job.value].result == s.jobs[s.tasks[t].job.value].result)
  {
    HeldJob(s, w);
    FailMarks(s, w);
  }

  lemma FailMarks(s: State, w: nat)
    requires Linked(s) && w < |s.workers| && s.workers[w].Some? && HeldOk(s, s.workers[w].value)
    ensures
      var s', t := Step(s, Fail(w)), s.workers[w].value;
      && Marked(s, s', t, Failed, 1)
      && |s'.tasks| == |s.tasks| && |s'.jobs| == |s.jobs| && s'.runs == s.runs && s'.workers == s.workers[w := None]
      && (s.tasks[t].job.Some? ==> s'.jobs[s.tasks[t].job.value].result == s.jobs[s.tasks[t].job.value].result)
  {
  }

  /** A completion frees the worker; if the job was cancelled meanwhile that is all, otherwise task, job and
      discovery row become completed. */
  lemma CompleteTakes(s: State, w: nat, promoted: seq<nat>, snapshot: bool)
    requires Inv(s) && w < |s.workers| && s.workers[w].Some?
    ensures
      var s', t := Step(s, Complete(w, promoted, snapshot)), s.workers[w].value;
      && TaskLinked(s.tasks[t], s.jobs)
      && if s.tasks[t].job.Some? && s.jobs[s.tasks[t].job.value].status == Cancelled
         then s' == s.(workers := s.workers[w := None])
         else Marked(s, s', t, Completed, 1) && s'.workers == s.workers[w := None]
  {
    HeldJob(s, w);
    CompleteMarks(s, w, promoted, snapshot);
  }

  lemma CompleteMarks(s: State, w: nat, promoted: seq<nat>, snapshot: bool)
    requires Linked(s) && w < |s.workers| && s.workers[w].Some? && HeldOk(s, s.workers[w].value)
    requires
      var task := s.tasks[s.workers[w].value];
      task.job.Some? && s.jobs[task.job.value].status == Cancelled ==> task.kind != Recompute
    ensures
      var s', t := Step(s, Complete(w, promoted, snapshot)), s.workers[w].value;
      if s.tasks[t].job.Some? && s.jobs[s.tasks[t].job.value].status == Cancelled
      then s' == s.(workers := s.workers[w := None])
      else Marked(s, s', t, Completed, 1) && s'.workers == s.workers[w := None]
  {
    var t := s.workers[w].value;
    var task := s.tasks[t];
    var s' := Step(s, Complete(w, promoted, snapshot));
    if task.job.Some? && s.jobs[task.job.value].status == Cancelled {
      assert s.tasks[t := task.(status := Cancelled)] == s.tasks;
    } else if task.kind == Discovery {
      forall i | 0 <= i < |s.jobs|
        ensures |s'.jobs| >= |s.jobs|
        ensures s'.jobs[i] ==
                if task.job == Some(i) then s.jobs[i].(status := Completed, result := s'.jobs[i].result)
                else s.jobs[i]
      {
        DiscoveryJobs(s, t, task.job.value, promoted, i);
      }
    }
  }

  // ----- A request and the scan it leads to -----

  /** One step on, keeping the invariant. */
  ghost function Next(s: State, e: Event): (r: State)
    requires Inv(s)
    ensures Inv(r) && r == Step(s, e)
  {
    StepInv(s, e);
    Step(s, e)
  }

  /** What a job keeps over every run. */
  lemma {:induction false} JobKeeps(s: State, events: seq<Event>, j: nat)
    requires Inv(s) && j < |s.jobs|
    ensures
      var s' := Exec(s, events);
      && |s.jobs| <= |s'.jobs|
      && s'.jobs[j] == s.jobs[j].(status := s'.jobs[j].status, result := s'.jobs[j].result)
    decreases |events|
  {
    if events != [] {
      StepInv(s, events[0]);
      StepMoves(s, events[0], j);
      JobKeeps(Step(s, events[0]), events[1..], j);
    }
  }

  /** A discovery request with its flags, in any run that goes on until a worker completes its job uncancelled
      and then in any way: the job has a scan in its name if and only if the request asked for one and targets
      were promoted, there is only one, it has exactly those targets, and it asks for an availability check if
      and only if the request did. */
  lemma RequestDecidesScan(k: nat, before: seq<Event>, scope: Scope, autoScan: bool, autoCheck: bool,
      between: seq<Event>, w: nat, promoted: seq<nat>, snapshot: bool, later: seq<Event>)
    requires
      var s := Exec(Init(k), before);
      forall e :: 0 <= e < |s.discoveries| && s.discoveries[e].scope == scope ==> !Active(s.discoveries[e].status)
    requires
      var s := Exec(Init(k), before);
      var held := Exec(Next(s, CreateDiscovery(scope, autoScan, autoCheck)), between);
      && w < |held.workers| && held.workers[w].Some? && held.tasks[held.workers[w].value].job == Some(|s.jobs|)
      && |s.jobs| < |held.jobs| && held.jobs[|s.jobs|].status != Cancelled
    ensures
      var s := Exec(Init(k), before);
      var held := Exec(Next(s, CreateDiscovery(scope, autoScan, autoCheck)), between);
      var end, n := Exec(Next(held, Complete(w, promoted, snapshot)), later), |s.jobs|;
      && n < |end.jobs| && end.jobs[n].status == Completed
      && ((exists c :: 0 <= c < |end.jobs| && end.jobs[c].origin == Some(n)) <==> autoScan && promoted != [])
      && (forall c :: 0 <= c < |end.jobs| && end.jobs[c].origin == Some(n) ==>
            c == |held.jobs| && end.jobs[c].kind == Scan && end.jobs[c].targets == promoted
            && end.jobs[c].autoCheck == autoCheck)
  {
    var s, e := Exec(Init(k), before), CreateDiscovery(scope, autoScan, autoCheck);
    ExecSpawns(Init(k), before);
    StepInv(s, e);
    StepSpawns(s, e);
    var d := CreateDiscoveryTakes(s, scope, autoScan, autoCheck);
    var created := Step(s, e);
    JobKeeps(created, between, |s.jobs|);
    ExecSpawns(created, between);
    CompletedScan(Exec(created, between), w, promoted, snapshot, |s.jobs|, later);
  }

  /** What a completed discovery's result says about its scan. */
  function FollowUpOf(job: Job, promoted: seq<nat>, c: nat): JobResult {
    if !job.autoScan then Discovered(None)
    else Discovered(Some(FollowUp(|promoted|, if promoted != [] then Some(c) else None)))
  }

  lemma CompletedRecord(s: State, w: nat, promoted: seq<nat>, snapshot: bool, n: nat)
    requires Inv(s) && n < |s.jobs| && s.jobs[n].kind == Discovery && s.jobs[n].status != Cancelled
    requires w < |s.workers| && s.workers[w].Some? && s.tasks[s.workers[w].value].job == Some(n)
    ensures
      var done := Step(s, Complete(w, promoted, snapshot));
      && n < |done.jobs| && done.jobs[n].kind == Discovery && done.jobs[n].status == Completed
      && done.jobs[n].result == FollowUpOf(s.jobs[n], promoted, |s.jobs|)
      && (s.jobs[n].autoScan && promoted != [] ==>
            && |s.jobs| < |done.jobs| && done.jobs[|s.jobs|].kind == Scan && done.jobs[|s.jobs|].origin == Some(n)
            && done.jobs[|s.jobs|].targets == promoted && done.jobs[|s.jobs|].autoCheck == s.jobs[n].autoCheck)
  {
    HeldJob(s, w);
    assert PayloadRowExists(s, s.tasks[s.workers[w].value]);
  }

  /** The scan in a completed discovery's name is the one its result names, now and after any run. */
  lemma LaterScan(done: State, later: seq<Event>, n: nat, c: nat)
    requires Inv(done) && Spawns(done)
    requires n < |done.jobs| && done.jobs[n].kind == Discovery && done.jobs[n].status == Completed
    ensures
      var end := Exec(done, later);
      && n < |end.jobs| && end.jobs[n] == done.jobs[n] && done.jobs[n].result.Discovered?
      && ((c < |end.jobs| && end.jobs[c].origin == Some(n)) <==>
          (done.jobs[n].result.followUp.Some? && done.jobs[n].result.followUp.value.scanJob == Some(c)))
  {
    var end := Exec(done, later);
    FinishedForGood(done, later, n);
    ExecSpawns(done, later);
    assert FollowedUp(end.jobs, n);
    if c < |end.jobs| {
      assert ChildRecorded(end.jobs, c);
    }
  }

  lemma CompletedScan(s: State, w: nat, promoted: seq<nat>, snapshot: bool, n: nat, later: seq<Event>)
    requires Inv(s) && Spawns(s) && n < |s.jobs| && s.jobs[n].kind == Discovery && s.jobs[n].status != Cancelled
    requires w < |s.workers| && s.workers[w].Some? && s.tasks[s.workers[w].value].job == Some(n)
    ensures
      var end := Exec(Next(s, Complete(w, promoted, snapshot)), later);
      && n < |end.jobs| && end.jobs[n].status == Completed
      && ((exists c :: 0 <= c < |end.jobs| && end.jobs[c].origin == Some(n)) <==> s.jobs[n].autoScan && promoted != [])
      && (forall c :: 0 <= c < |end.jobs| && end.jobs[c].origin == Some(n) ==>
            c == |s.jobs| && end.jobs[c].kind == Scan && end.jobs[c].targets == promoted
            && end.jobs[c].autoCheck == s.jobs[n].autoCheck)
  {
    var e := Complete(w, promoted, snapshot);
    var done := Next(s, e);
    StepSpawns(s, e);
    CompletedRecord(s, w, promoted, snapshot, n);
    if s.jobs[n].autoScan && promoted != [] {
      JobKeeps(done, later, |s.jobs|);
    }
    forall c: nat
      ensures
        (c < |Exec(done, later).jobs| && Exec(done, later).jobs[c].origin == Some(n)) <==>
        (s.jobs[n].autoScan && promoted != [] && c == |s.jobs|)
    {
      LaterScan(done, later, n, c);
    }
    LaterScan(done, later, n, |s.jobs|);
  }
}
