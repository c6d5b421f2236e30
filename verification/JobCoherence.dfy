/** Discovery rows against their jobs: what holds unless a cancelled worker fails late,
    and exactly which failure breaks it. */
module JobCoherence {
  import opened Basics
  import opened JobRows
  import opened JobInvariants
  import opened JobRuns

  /** Each row shows its current job's status, and an active discovery job is its row's current one. */
  predicate Coherent(s: State)
    requires Linked(s) && Payloads(s)
  {
    && (forall d :: 0 <= d < |s.discoveries| ==> s.discoveries[d].status == s.jobs[s.discoveries[d].job].status)
    && (forall j :: 0 <= j < |s.jobs| && s.jobs[j].kind == Discovery && Active(s.jobs[j].status) ==>
          s.discoveries[s.jobs[j].resource].job == j)
  }

  /** The failing worker's discovery row has moved on to another job, which has not failed. */
  predicate FailsOverNewer(s: State, e: Event)
    requires Linked(s) && Payloads(s)
  {
    && e.Fail? && e.worker < |s.workers| && s.workers[e.worker].Some?
    && var task := s.tasks[s.workers[e.worker].value];
       && task.kind == Discovery
       && PayloadRowExists(s, task)
       && var current := s.discoveries[task.resource].job;
          task.job != Some(current) && s.jobs[current].status != Failed
  }

  lemma CreatedCoherent(s: State, s': State, scope: Scope, d: nat)
    requires Linked(s) && Payloads(s) && RowsOwned(s) && Coherent(s) && Linked(s') && Payloads(s')
        && Created(s, s', scope, d)
    ensures Coherent(s')
  {
    forall j | 0 <= j < |s.jobs| && s.jobs[j].kind == Discovery && Active(s.jobs[j].status)
      ensures s.jobs[j].resource != d
    {
      assert s.discoveries[s.jobs[j].resource].job == j;
    }
  }

  lemma CreateCoherent(s: State, scope: Scope, autoScan: bool, autoCheck: bool)
    requires Inv(s) && Coherent(s) && Inv(DoCreateDiscovery(s, scope, autoScan, autoCheck))
    ensures Coherent(DoCreateDiscovery(s, scope, autoScan, autoCheck))
  {
    if Creates(s, scope) {
      var d := CreatedRow(s, scope, autoScan, autoCheck);
      CreatedCoherent(s, DoCreateDiscovery(s, scope, autoScan, autoCheck), scope, d);
    }
  }

  /** A cancellation marks the job, and the row whose current job it is. */
  lemma CancelEffect(s: State, j: nat, d: nat)
    requires j < |s.jobs| && Cancellable(s.jobs[j]) && d < |s.discoveries|
    requires s.discoveries[d].job == j ==> s.jobs[j].kind == Discovery && s.jobs[j].resource == d
    requires forall e :: 0 <= e < |s.discoveries| && s.discoveries[e].job == j ==> s.jobs[j].resource == e
    ensures
      var s' := DoCancel(s, j);
      && s'.jobs == s.jobs[j := s.jobs[j].(status := Cancelled)] && |s'.discoveries| == |s.discoveries|
      && s'.discoveries[d] == if s.discoveries[d].job == j then s.discoveries[d].(status := Cancelled)
         else s.discoveries[d]
  {
  }

  lemma CancelCoherent(s: State, j: nat)
    requires Inv(s) && Coherent(s) && Inv(DoCancel(s, j))
    ensures Coherent(DoCancel(s, j))
  {
    if j < |s.jobs| && Cancellable(s.jobs[j]) {
      forall d | 0 <= d < |s.discoveries|
        ensures
          var s' := DoCancel(s, j);
          && s'.jobs == s.jobs[j := s.jobs[j].(status := Cancelled)] && |s'.discoveries| == |s.discoveries|
          && s'.discoveries[d] == if s.discoveries[d].job == j then s.discoveries[d].(status := Cancelled)
             else s.discoveries[d]
      {
        CancelEffect(s, j, d);
      }
    }
  }

  lemma ClaimCoherent(s: State, w: nat, t: nat)
    requires Inv(s) && Coherent(s) && Inv(DoClaim(s, w, t)) && CanClaim(s, w, t)
    ensures Coherent(DoClaim(s, w, t))
  {
    ClaimFindsPending(s, w, t);
    var s' := DoClaim(s, w, t);
    var task := s.tasks[t];
    assert TaskLinked(task, s.jobs);
    forall d | 0 <= d < |s.discoveries|
      ensures s'.discoveries[d].status == s'.jobs[s'.discoveries[d].job].status
    {
      if task.kind == Discovery && (d == task.resource || s.discoveries[d].job == task.job.value) {
        assert s.discoveries[d].job == task.job.value;
      }
    }
  }

  /** What a completion does to jobs and discovery rows, at one job and one row. */
  lemma CompleteEffect(s: State, w: nat, promoted: seq<nat>, snapshot: bool)
    requires Linked(s) && w < |s.workers| && s.workers[w].Some? && HeldOk(s, s.workers[w].value)
    ensures
      var s', task := DoComplete(s, w, promoted, snapshot), s.tasks[s.workers[w].value];
      && |s'.jobs| >= |s.jobs| && (forall j :: |s.jobs| <= j < |s'.jobs| ==> s'.jobs[j].kind == Scan)
      && (forall j :: 0 <= j < |s.jobs| && task.job != Some(j) ==> s'.jobs[j] == s.jobs[j])
      && s'.discoveries == if Ends(s, task) && task.kind == Discovery then Ended(s.discoveries, task.resource)
         else s.discoveries
  {
    var t := s.workers[w].value;
    var task := s.tasks[t];
    if task.kind == Discovery && Ends(s, task) {
      var s1 := WithDiscoveryStatus(WithTaskStatus(s, t, Completed), task.resource, Completed);
      SpawnEffect(s1, task.job.value, promoted);
    }
  }

  lemma SpawnEffect(s: State, j: nat, promoted: seq<nat>)
    requires j < |s.jobs|
    ensures
      var s' := SpawnScan(s, j, promoted).0;
      && |s'.jobs| >= |s.jobs| && (forall i :: 0 <= i < |s.jobs| ==> s'.jobs[i] == s.jobs[i])
      && (forall i :: |s.jobs| <= i < |s'.jobs| ==> s'.jobs[i].kind == Scan) && s'.discoveries == s.discoveries
  {
  }

  /** Its own job completes, or stays as it was cancelled. */
  lemma CompletedJob(s: State, w: nat, promoted: seq<nat>, snapshot: bool)
    requires Linked(s) && w < |s.workers| && s.workers[w].Some? && HeldOk(s, s.workers[w].value)
    requires s.tasks[s.workers[w].value].job.Some?
    ensures
      var s', task := DoComplete(s, w, promoted, snapshot), s.tasks[s.workers[w].value];
      var j := task.job.value;
      && j < |s'.jobs|
      && if Ends(s, task) then s'.jobs[j] == s.jobs[j].(status := Completed, result := s'.jobs[j].result)
         else s'.jobs[j] == s.jobs[j]
  {
    var t := s.workers[w].value;
    var task := s.tasks[t];
    if task.kind == Discovery && Ends(s, task) {
      var s1 := WithDiscoveryStatus(WithTaskStatus(s, t, Completed), task.resource, Completed);
      SpawnEffect(s1, task.job.value, promoted);
    }
  }

  /** The completion of this task completes a job. */
  predicate Ends(s: State, task: Task)
    requires TaskLinked(task, s.jobs)
  {
    task.job.Some? && (s.jobs[task.job.value].status == Cancelled ==> task.kind == Recompute)
  }

  function Ended(rows: seq<DiscoveryRow>, d: nat): seq<DiscoveryRow> {
    if d < |rows| then rows[d := rows[d].(status := Completed)] else rows
  }

  /** Rows stay coherent with jobs when job j completes, and its row with it. */
  lemma RowsFollow(s: State, s': State, j: nat)
    requires Inv(s) && Coherent(s) && Linked(s')
    requires j < |s.jobs| <= |s'.jobs| && s'.jobs[j].status == Completed && Active(s.jobs[j].status)
    requires forall i :: 0 <= i < |s.jobs| && i != j ==> s'.jobs[i] == s.jobs[i]
    requires s'.discoveries == if s.jobs[j].kind == Discovery then Ended(s.discoveries, s.jobs[j].resource)
        else s.discoveries
    ensures forall d :: 0 <= d < |s'.discoveries| ==> s'.discoveries[d].status == s'.jobs[s'.discoveries[d].job].status
  {
  }

  /** Jobs that are still active have kept their rows. */
  lemma ActiveKeepRows(s: State, s': State)
    requires Inv(s) && Coherent(s) && Linked(s') && Payloads(s')
    requires |s.jobs| <= |s'.jobs| && |s'.discoveries| == |s.discoveries|
    requires forall i :: 0 <= i < |s.jobs| ==>
               s'.jobs[i].kind == s.jobs[i].kind && s'.jobs[i].resource == s.jobs[i].resource
               && (Active(s'.jobs[i].status) ==> Active(s.jobs[i].status))
    requires forall i :: |s.jobs| <= i < |s'.jobs| ==> s'.jobs[i].kind != Discovery
    requires forall d :: 0 <= d < |s.discoveries| ==> s'.discoveries[d].job == s.discoveries[d].job
    ensures forall j :: 0 <= j < |s'.jobs| && s'.jobs[j].kind == Discovery && Active(s'.jobs[j].status) ==>
              s'.discoveries[s'.jobs[j].resource].job == j
  {
  }

  lemma CompleteCoherent(s: State, w: nat, promoted: seq<nat>, snapshot: bool)
    requires Inv(s) && Coherent(s) && Inv(DoComplete(s, w, promoted, snapshot))
    requires w < |s.workers| && s.workers[w].Some?
    ensures Coherent(DoComplete(s, w, promoted, snapshot))
  {
    HeldJob(s, w);
    var s' := DoComplete(s, w, promoted, snapshot);
    var task := s.tasks[s.workers[w].value];
    CompleteEffect(s, w, promoted, snapshot);
    if task.job.Some? {
      CompletedJob(s, w, promoted, snapshot);
    }
    ActiveKeepRows(s, s');
    if Ends(s, task) {
      RowsFollow(s, s', task.job.value);
    }
  }

  lemma FailCoherent(s: State, w: nat)
    requires Inv(s) && Coherent(s) && Inv(DoFail(s, w)) && w < |s.workers| && s.workers[w].Some?
    ensures Coherent(DoFail(s, w)) <==> !FailsOverNewer(s, Fail(w))
  {
    HeldJob(s, w);
    var s' := DoFail(s, w);
    var task := s.tasks[s.workers[w].value];
    assert PayloadRowExists(s, task);
    if FailsOverNewer(s, Fail(w)) {
      assert s'.discoveries[task.resource].status == Failed != s'.jobs[s'.discoveries[task.resource].job].status;
    } else {
      forall d | 0 <= d < |s.discoveries|
        ensures s'.discoveries[d].status == s'.jobs[s'.discoveries[d].job].status
      {
      }
    }
  }

  /** From a coherent state one event leads to a coherent state unless it is such a failure, and only then. */
  lemma StepCoherent(s: State, e: Event)
    requires Inv(s) && Coherent(s)
    ensures Inv(Step(s, e))
    ensures Coherent(Step(s, e)) <==> !FailsOverNewer(s, e)
  {
    StepInv(s, e);
    match e {
      case CreateDiscovery(scope, autoScan, autoCheck) => CreateCoherent(s, scope, autoScan, autoCheck);
      case Cancel(j) => CancelCoherent(s, j);
      case Claim(w, t) =>
        if CanClaim(s, w, t) {
          ClaimCoherent(s, w, t);
        }
      case Complete(w, promoted, snapshot) =>
        if w < |s.workers| && s.workers[w].Some? {
          CompleteCoherent(s, w, promoted, snapshot);
        }
      case Fail(w) =>
        if w < |s.workers| && s.workers[w].Some? {
          FailCoherent(s, w);
        }
      case CreateScan(_) =>
      case CreateRecompute =>
      case CreateRun =>
      case QueueRun(_) =>
      case Abandon(_) =>
    }
  }

  // ----- Whole runs -----

  /** No event of the run is a failure over a newer job. */
  ghost predicate Guarded(s: State, events: seq<Event>)
    requires Inv(s)
    decreases |events|
  {
    events == [] ||
    (StepInv(s, events[0]); !FailsOverNewer(s, events[0]) && Guarded(Step(s, events[0]), events[1..]))
  }

  lemma {:induction false} GuardedRunsCoherent(s: State, events: seq<Event>)
    requires Inv(s) && Coherent(s) && Guarded(s, events)
    ensures Coherent(Exec(s, events))
    decreases |events|
  {
    if events != [] {
      StepCoherent(s, events[0]);
      GuardedRunsCoherent(Step(s, events[0]), events[1..]);
    }
  }

  /** Two active discovery jobs never share a scope. */
  predicate OneActivePerScope(s: State)
    requires Linked(s) && Payloads(s)
  {
    forall i, j :: 0 <= i < j < |s.jobs| && s.jobs[i].kind == Discovery && s.jobs[j].kind == Discovery
                   && Active(s.jobs[i].status) && Active(s.jobs[j].status) ==>
                   s.discoveries[s.jobs[i].resource].scope != s.discoveries[s.jobs[j].resource].scope
  }

  lemma CoherentOneActive(s: State)
    requires Inv(s) && Coherent(s)
    ensures OneActivePerScope(s)
  {
    forall i, j | 0 <= i < j < |s.jobs| && s.jobs[i].kind == Discovery && s.jobs[j].kind == Discovery
                  && Active(s.jobs[i].status) && Active(s.jobs[j].status)
      ensures s.discoveries[s.jobs[i].resource].scope != s.discoveries[s.jobs[j].resource].scope
    {
      assert s.jobs[i].resource != s.jobs[j].resource;
    }
  }

  /** A request finds its scope's row inactive while a job on that row is active. */
  predicate ReopensActive(s: State, e: Event)
    requires Linked(s) && Payloads(s)
  {
    && e.CreateDiscovery?
    && var found := LatestFor(s.discoveries, e.scope, |s.discoveries|);
       && found.Some? && !Active(s.discoveries[found.value].status) && ActiveOn(s, found.value)
  }

  /** An active discovery job has row d as its resource. */
  predicate ActiveOn(s: State, d: nat) {
    exists j :: 0 <= j < |s.jobs| && s.jobs[j].kind == Discovery && Active(s.jobs[j].status) && s.jobs[j].resource == d
  }

  /** No other event adds a discovery job or touches a scope. */
  lemma ScopesStay(s: State, e: Event)
    requires Inv(s) && !e.CreateDiscovery?
    ensures
      var s' := Step(s, e);
      && |s'.discoveries| == |s.discoveries|
      && (forall d :: 0 <= d < |s.discoveries| ==> s'.discoveries[d].scope == s.discoveries[d].scope)
      && (forall j :: |s.jobs| <= j < |s'.jobs| ==> s'.jobs[j].kind != Discovery)
  {
    if e.Complete? {
      if e.worker < |s.workers| && s.workers[e.worker].Some? {
        HeldJob(s, e.worker);
        CompleteEffect(s, e.worker, e.promoted, e.snapshot);
      }
    } else {
      OtherScopesStay(s, e);
    }
  }

  lemma OtherScopesStay(s: State, e: Event)
    requires Linked(s) && !e.CreateDiscovery? && !e.Complete?
    ensures
      var s' := Step(s, e);
      && |s'.discoveries| == |s.discoveries|
      && (forall d :: 0 <= d < |s.discoveries| ==> s'.discoveries[d].scope == s.discoveries[d].scope)
      && (forall j :: |s.jobs| <= j < |s'.jobs| ==> s'.jobs[j].kind != Discovery)
  {
  }

  lemma NoNewActive(s: State, s': State)
    requires Linked(s) && Payloads(s) && OneActivePerScope(s) && Linked(s') && Payloads(s')
    requires |s.jobs| <= |s'.jobs| && |s'.discoveries| == |s.discoveries|
    requires forall i :: 0 <= i < |s.jobs| ==>
               s'.jobs[i].kind == s.jobs[i].kind && s'.jobs[i].resource == s.jobs[i].resource
               && (Active(s'.jobs[i].status) ==> Active(s.jobs[i].status))
    requires forall i :: |s.jobs| <= i < |s'.jobs| ==> s'.jobs[i].kind != Discovery
    requires forall d :: 0 <= d < |s.discoveries| ==> s'.discoveries[d].scope == s.discoveries[d].scope
    ensures OneActivePerScope(s')
  {
  }

  lemma QuietOneActive(s: State, e: Event)
    requires Inv(s) && OneActivePerScope(s) && !e.CreateDiscovery? && Inv(Step(s, e))
    ensures OneActivePerScope(Step(s, e))
  {
    var s' := Step(s, e);
    ScopesStay(s, e);
    NeverReactivated(s, e);
    NoNewActive(s, s');
  }

  /** No job becomes active again. */
  lemma NeverReactivated(s: State, e: Event)
    requires Inv(s)
    ensures |Step(s, e).jobs| >= |s.jobs|
    ensures forall i :: 0 <= i < |s.jobs| ==>
              var now := Step(s, e).jobs[i];
              now.kind == s.jobs[i].kind && now.resource == s.jobs[i].resource
              && (Active(now.status) ==> Active(s.jobs[i].status))
  {
    forall i | 0 <= i < |s.jobs|
      ensures |Step(s, e).jobs| >= |s.jobs|
      ensures
        var now := Step(s, e).jobs[i];
        now.kind == s.jobs[i].kind && now.resource == s.jobs[i].resource
        && (Active(now.status) ==> Active(s.jobs[i].status))
    {
      StepMoves(s, e, i);
    }
  }

  lemma CreatedOneActive(s: State, s': State, scope: Scope, d: nat)
    requires Linked(s) && Payloads(s) && RowsOwned(s) && OneActivePerScope(s)
    requires Linked(s') && Payloads(s') && Created(s, s', scope, d)
    ensures OneActivePerScope(s') <==> !ActiveOn(s, d)
  {
    var n := |s.jobs|;
    if ActiveOn(s, d) {
      var j :| 0 <= j < n && s.jobs[j].kind == Discovery && Active(s.jobs[j].status) && s.jobs[j].resource == d;
      assert s'.jobs[j] == s.jobs[j];
      assert s'.discoveries[s'.jobs[j].resource].scope == s'.discoveries[s'.jobs[n].resource].scope;
    } else {
      forall j | 0 <= j < n && s.jobs[j].kind == Discovery && Active(s.jobs[j].status)
        ensures s'.discoveries[s.jobs[j].resource].scope == s.discoveries[s.jobs[j].resource].scope != scope
      {
        assert s.jobs[j].resource != d;
      }
    }
  }

  /** From a state with at most one active discovery job per scope, one event leads to such a state unless it
      is such a request, and only then. */
  lemma StepOneActive(s: State, e: Event)
    requires Inv(s) && OneActivePerScope(s)
    ensures Inv(Step(s, e))
    ensures OneActivePerScope(Step(s, e)) <==> !ReopensActive(s, e)
  {
    StepInv(s, e);
    if !e.CreateDiscovery? {
      QuietOneActive(s, e);
    } else if Creates(s, e.scope) {
      var d := CreatedRow(s, e.scope, e.autoScan, e.autoCheck);
      CreatedOneActive(s, Step(s, e), e.scope, d);
      NewRowIdle(s);
    }
  }

  /** No job has a row that does not exist yet. */
  lemma NewRowIdle(s: State)
    requires Linked(s) && Payloads(s)
    ensures !ActiveOn(s, |s.discoveries|)
  {
  }

  /** A coherent state has no such request. */
  lemma CoherentNeverReopens(s: State, e: Event)
    requires Inv(s) && Coherent(s)
    ensures !ReopensActive(s, e)
  {
  }

  ghost predicate NeverReopens(s: State, events: seq<Event>)
    requires Inv(s)
    decreases |events|
  {
    events == [] ||
    (StepInv(s, events[0]); !ReopensActive(s, events[0]) && NeverReopens(Step(s, events[0]), events[1..]))
  }

  /** Over every run, late failures included: without such a request no scope ever has two active jobs. */
  lemma {:induction false} RunsOneActive(s: State, events: seq<Event>)
    requires Inv(s) && OneActivePerScope(s) && NeverReopens(s, events)
    ensures OneActivePerScope(Exec(s, events))
    decreases |events|
  {
    if events != [] {
      StepOneActive(s, events[0]);
      RunsOneActive(Step(s, events[0]), events[1..]);
    }
  }

  /** The failing worker's job, if it has one. */
  predicate FailsUncancelled(s: State, e: Event)
    requires Linked(s)
  {
    e.Fail? && e.worker < |s.workers| && s.workers[e.worker].Some? ==>
      var job := s.tasks[s.workers[e.worker].value].job;
      TaskLinked(s.tasks[s.workers[e.worker].value], s.jobs) && (job.Some? ==> s.jobs[job.value].status != Cancelled)
  }

  /** A worker that fails only a job nobody cancelled cannot fail over a newer one. */
  lemma UncancelledIsGuarded(s: State, e: Event)
    requires Inv(s) && Coherent(s) && FailsUncancelled(s, e)
    ensures !FailsOverNewer(s, e)
  {
    if FailsOverNewer(s, e) {
      HeldJob(s, e.worker);
      assert false;
    }
  }

  ghost predicate NoLateFailure(s: State, events: seq<Event>)
    requires Inv(s)
    decreases |events|
  {
    events == [] ||
    (StepInv(s, events[0]); FailsUncancelled(s, events[0]) && NoLateFailure(Step(s, events[0]), events[1..]))
  }

  lemma {:induction false} NoLateFailureGuarded(s: State, events: seq<Event>)
    requires Inv(s) && Coherent(s) && NoLateFailure(s, events)
    ensures Guarded(s, events)
    decreases |events|
  {
    if events != [] {
      UncancelledIsGuarded(s, events[0]);
      StepCoherent(s, events[0]);
      NoLateFailureGuarded(Step(s, events[0]), events[1..]);
    }
  }

  /** The protocol's promise for discoveries, over every run in which no cancelled job's worker fails:
      across cancels, re-runs and superseded workers that still complete. */
  lemma DiscoveriesStayCoherent(n: nat, events: seq<Event>)
    requires NoLateFailure(Init(n), events)
    ensures var s := Exec(Init(n), events); Coherent(s) && OneActivePerScope(s)
  {
    NoLateFailureGuarded(Init(n), events);
    GuardedRunsCoherent(Init(n), events);
    CoherentOneActive(Exec(Init(n), events));
  }

  // ----- The exception, with a run that shows it -----

  ghost function LateRun(scope: Scope): seq<Event> {
    [CreateDiscovery(scope, true, true), Claim(0, 0), Cancel(0), CreateDiscovery(scope, true, true), Fail(0)]
  }

  /** The states that run goes through. */
  ghost function LateState(scope: Scope, k: nat): State {
    var job := NewJob(Discovery, 0).(autoScan := true, autoCheck := true);
    var task := QueuedFor(Discovery, Some(0), 0);
    match k
    case 0 => Init(1)
    case 1 => State([job], [task], [DiscoveryRow(scope, 0, Pending)], [], [None])
    case 2 => State([job.(status := Running)], [task.(status := Running, attempts := 1)],
                    [DiscoveryRow(scope, 0, Running)], [], [Some(0)])
    case 3 => State([job.(status := Cancelled)], [task.(status := Cancelled, attempts := 1)],
                    [DiscoveryRow(scope, 0, Cancelled)], [], [Some(0)])
    case 4 => State([job.(status := Cancelled), job],
        [task.(status := Cancelled, attempts := 1), task.(job := Some(1))],
                    [DiscoveryRow(scope, 1, Pending)], [], [Some(0)])
    case _ => State([job.(status := Failed), job], [task.(status := Failed, attempts := 1), task.(job := Some(1))],
                    [DiscoveryRow(scope, 1, Failed)], [], [None])
  }

  lemma LateStep(scope: Scope, k: nat)
    requires k < 5 && Linked(LateState(scope, k))
    ensures Step(LateState(scope, k), LateRun(scope)[k]) == LateState(scope, k + 1)
  {
    var s := LateState(scope, k);
    if k == 0 {
      assert LatestFor(s.discoveries, scope, 0) == None;
    } else if k == 3 {
      assert LatestFor(s.discoveries, scope, 1) == Some(0);
    } else if k == 2 {
      assert RowOfJob(s.discoveries, 0, 1) == Some(0);
      assert CancelTasks(s.tasks, 0) == LateState(scope, 3).tasks;
    }
  }

  lemma {:induction false} LateExec(scope: Scope, k: nat)
    requires k <= 5 && Inv(LateState(scope, k))
    ensures Exec(LateState(scope, k), LateRun(scope)[k..]) == LateState(scope, 5)
    decreases 5 - k
  {
    if k < 5 {
      LateStep(scope, k);
      StepInv(LateState(scope, k), LateRun(scope)[k]);
      LateExec(scope, k + 1);
      assert LateRun(scope)[k..][1..] == LateRun(scope)[k + 1..];
    }
  }

  /** Cancel a running discovery, ask for it again, and let the superseded worker fail: the row shows
      Failed while its job is pending, and one more request gives the scope a second active job. */
  lemma LateFailureBreaks(scope: Scope)
    ensures
      var s := Exec(Init(1), LateRun(scope));
      !Coherent(s) && !OneActivePerScope(Exec(s, [CreateDiscovery(scope, true, true)]))
  {
    LateExec(scope, 0);
    assert LateRun(scope)[0..] == LateRun(scope);
    var s := Exec(Init(1), LateRun(scope));
    assert s.discoveries[0].status != s.jobs[s.discoveries[0].job].status;
    var again := CreateDiscovery(scope, true, true);
    StepInv(s, again);
    var s' := Step(s, again);
    assert Exec(s, [again]) == s';
    assert s'.jobs[1] == s.jobs[1] && s'.jobs[2].kind == Discovery && s'.jobs[2].resource == 0;
  }
}
