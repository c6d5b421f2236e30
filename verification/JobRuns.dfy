/** Safety over whole runs: any interleaving of requests and any number of workers. */
module JobRuns {
  import opened Basics
  import opened JobRows
  import opened JobInvariants

  /** The state after a list of events. */
  ghost function Exec(s: State, events: seq<Event>): (r: State)
    requires Inv(s)
    ensures Inv(r)
    decreases |events|
  {
    if events == [] then s else (StepInv(s, events[0]); Exec(Step(s, events[0]), events[1..]))
  }

  /** At every transaction boundary of every run, a task and its job agree,
      no task has been tried twice, and no two workers hold the same task. */
  lemma RunsAgree(n: nat, events: seq<Event>)
    ensures
      var s := Exec(Init(n), events);
      && Linked(s)
      && (forall t :: 0 <= t < |s.tasks| && s.tasks[t].job.Some? ==>
            s.tasks[t].status == AsTask(s.jobs[s.tasks[t].job.value].status))
      && (forall t :: 0 <= t < |s.tasks| ==> s.tasks[t].attempts <= 1)
      && (forall v, w :: 0 <= v < w < |s.workers| && s.workers[v].Some? ==> s.workers[v] != s.workers[w])
      && (forall j :: 0 <= j < |s.jobs| ==> HasTask(s.tasks, j))
  {
    var s := Exec(Init(n), events);
    forall t | 0 <= t < |s.tasks| ensures s.tasks[t].attempts <= 1 {
      assert AttemptsOk(s.tasks[t]);
    }
  }

  // ----- How a job's status may move -----

  /** The only status changes, for a job of this kind. */
  predicate May(kind: Kind, a: Status, b: Status) {
    || a == b
    || (a == Pending && (b == Running || b == Cancelled))
    || (a == Running && (b == Completed || b == Failed || (b == Cancelled && kind != Recompute)))
    || (a == Cancelled && b == Failed && kind != Recompute)
  }

  /** A late failure: the worker's task belongs to a job that was cancelled meanwhile. */
  predicate LateFailure(s: State, e: Event, j: nat)
    requires Linked(s) && j < |s.jobs|
  {
    && e.Fail? && e.worker < |s.workers| && s.workers[e.worker].Some?
    && s.tasks[s.workers[e.worker].value].job == Some(j)
    && s.jobs[j].status == Cancelled
  }

  /** Job j keeps everything but its status and, on completion, its result;
      it leaves Cancelled by a late failure and by nothing else. */
  predicate JobMoves(s: State, s': State, e: Event, j: nat)
    requires Linked(s) && j < |s.jobs|
  {
    && |s'.jobs| >= |s.jobs|
    && May(s.jobs[j].kind, s.jobs[j].status, s'.jobs[j].status)
    && s'.jobs[j] == s.jobs[j].(status := s'.jobs[j].status, result := s'.jobs[j].result)
    && (s'.jobs[j].result != s.jobs[j].result ==> s.jobs[j].status == Running && s'.jobs[j].status == Completed)
    && (s.jobs[j].status == Cancelled ==> (s'.jobs[j].status != Cancelled <==> LateFailure(s, e, j)))
  }

  /** The job behind a worker is running, or was cancelled under it and is not a recompute. */
  lemma HeldJob(s: State, w: nat)
    requires Inv(s) && w < |s.workers| && s.workers[w].Some?
    ensures var t := s.workers[w].value; TaskLinked(s.tasks[t], s.jobs) && HeldOk(s, t)
    ensures
      var task := s.tasks[s.workers[w].value];
      task.job.Some? ==>
        var job := s.jobs[task.job.value];
        job.status == Running || (job.status == Cancelled && job.kind != Recompute)
  {
    var t := s.workers[w].value;
    assert TaskLinked(s.tasks[t], s.jobs) && InFlight(s.tasks[t]) && AttemptsOk(s.tasks[t]);
  }

  lemma CompleteMovesJob(s: State, w: nat, promoted: seq<nat>, snapshot: bool, j: nat)
    requires Linked(s) && j < |s.jobs| && w < |s.workers| && s.workers[w].Some? && HeldOk(s, s.workers[w].value)
    ensures JobMoves(s, DoComplete(s, w, promoted, snapshot), Complete(w, promoted, snapshot), j)
  {
    var t := s.workers[w].value;
    if s.tasks[t].kind == Discovery {
      DiscoveryJobs(s, t, s.tasks[t].job.value, promoted, j);
    }
  }

  /** What completing a discovery does to job i. */
  lemma DiscoveryJobs(s: State, t: nat, j: nat, promoted: seq<nat>, i: nat)
    requires t < |s.tasks| && j < |s.jobs| && i < |s.jobs|
    ensures
      var s' := CompleteDiscovery(s, t, j, promoted);
      && |s'.jobs| >= |s.jobs|
      && s'.jobs[i] == if i == j && s.jobs[j].status != Cancelled
                       then s.jobs[j].(status := Completed, result := s'.jobs[j].result) else s.jobs[i]
  {
    if s.jobs[j].status != Cancelled {
      var s1 := WithDiscoveryStatus(WithTaskStatus(s, t, Completed), s.tasks[t].resource, Completed);
      var spawned := SpawnScan(s1, j, promoted).0;
      assert spawned.jobs[i] == spawned.jobs[..|s.jobs|][i] == s.jobs[i];
    }
  }

  lemma RequestMovesJob(s: State, e: Event, j: nat)
    requires Linked(s) && j < |s.jobs| && s.jobs[j].status != Queued && !e.IsWorker()
    ensures JobMoves(s, Step(s, e), e, j)
  {
  }

  lemma ClaimMovesJob(s: State, w: nat, t: nat, j: nat)
    requires Linked(s) && j < |s.jobs| && CanClaim(s, w, t)
    requires s.tasks[t].job.Some? ==> s.jobs[s.tasks[t].job.value].status == Pending
    ensures JobMoves(s, DoClaim(s, w, t), Claim(w, t), j)
  {
  }

  lemma FailMovesJob(s: State, w: nat, j: nat)
    requires Linked(s) && j < |s.jobs| && w < |s.workers| && s.workers[w].Some? && HeldOk(s, s.workers[w].value)
    ensures JobMoves(s, DoFail(s, w), Fail(w), j)
  {
  }

  lemma StepMoves(s: State, e: Event, j: nat)
    requires Inv(s) && j < |s.jobs|
    ensures JobMoves(s, Step(s, e), e, j)
  {
    assert e.IsWorker() || s.jobs[j].status != Queued;
    match e {
      case Claim(w, t) =>
        if CanClaim(s, w, t) {
          ClaimFindsPending(s, w, t);
          ClaimMovesJob(s, w, t, j);
        }
      case Complete(w, promoted, snapshot) =>
        if w < |s.workers| && s.workers[w].Some? {
          HeldJob(s, w);
          CompleteMovesJob(s, w, promoted, snapshot, j);
        }
      case Fail(w) =>
        if w < |s.workers| && s.workers[w].Some? {
          HeldJob(s, w);
          FailMovesJob(s, w, j);
        }
      case Abandon(w) =>
      case _ => RequestMovesJob(s, e, j);
    }
  }

  /** Completed and Failed are never left, with the result kept; Cancelled ends only in Failed,
      and a cancelled recompute stays cancelled although its completion does not look. */
  lemma {:induction false} FinishedForGood(s: State, events: seq<Event>, j: nat)
    requires Inv(s) && j < |s.jobs|
    ensures
      var s' := Exec(s, events);
      && j < |s'.jobs| && s'.jobs[j].kind == s.jobs[j].kind
      && (s.jobs[j].status == Completed || s.jobs[j].status == Failed ==> s'.jobs[j] == s.jobs[j])
      && (s.jobs[j].status == Cancelled ==> s'.jobs[j].status == Cancelled || s'.jobs[j].status == Failed)
      && (s.jobs[j].status == Cancelled && s.jobs[j].kind == Recompute ==> s'.jobs[j] == s.jobs[j])
    decreases |events|
  {
    if events != [] {
      StepInv(s, events[0]);
      StepMoves(s, events[0], j);
      FinishedForGood(Step(s, events[0]), events[1..], j);
    }
  }
}
