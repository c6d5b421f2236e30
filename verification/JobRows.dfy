/** The rows that the job protocol moves, and every transaction as one step on them.

    Each `transaction.atomic()` block is indivisible.  What a worker does between its claim
    and its completion or failure is an outcome it holds in its slot of `workers`.
    Tables only grow, so a row's id is its index. */
module JobRows {

  import opened Basics

  /** Job rows use Pending and never Queued; task rows use Queued and never Pending. */
  datatype Status = Pending | Queued | Running | Completed | Failed | Cancelled

  /** The three job kinds; Performance names the task that has no job. */
  datatype Kind = Scan | Discovery | Recompute | Performance

  /** The four columns that identify a discovery request. */
  datatype Scope = Scope(scopeType: string, scopeValue: string, executor: string, agent: Option<nat>)

  datatype FollowUp = FollowUp(targetCount: nat, scanJob: Option<nat>)

  datatype JobResult =
    | NoResult
    | Discovered(followUp: Option<FollowUp>)
    | Scanned(run: Option<nat>)
    | Recomputed

  /** `resource` is the discovery row of a discovery job; `origin` the discovery job that spawned a scan. */
  datatype Job = Job(kind: Kind, status: Status, resource: nat, autoScan: bool, autoCheck: bool,
                     origin: Option<nat>, targets: seq<nat>, result: JobResult)

  /** `resource` is the payload's discovery id or run id. */
  datatype Task = Task(kind: Kind, job: Option<nat>, resource: nat, status: Status, attempts: nat)

  datatype DiscoveryRow = DiscoveryRow(scope: Scope, job: nat, status: Status)

  /** A performance run and the scan job that requested it, if any. */
  datatype RunRow = RunRow(scan: Option<nat>)

  datatype State = State(jobs: seq<Job>, tasks: seq<Task>, discoveries: seq<DiscoveryRow>,
                         runs: seq<RunRow>, workers: seq<Option<nat>>)

  datatype Event =
    | CreateDiscovery(scope: Scope, autoScan: bool, autoCheck: bool)
    | CreateScan(scanTargets: seq<nat>)
    | CreateRecompute
    | CreateRun
    | QueueRun(run: nat)
    | Cancel(job: nat)
    | Claim(worker: nat, task: nat)
    | Complete(worker: nat, promoted: seq<nat>, snapshot: bool)
    | Fail(worker: nat)
    | Abandon(worker: nat)
  {
    /** Events that a client's request starts; the rest are the workers' own. */
    predicate IsCreate() {
      CreateDiscovery? || CreateScan? || CreateRecompute? || CreateRun? || QueueRun?
    }

    predicate IsWorker() {
      Claim? || Complete? || Fail? || Abandon?
    }
  }

  predicate Active(s: Status) {
    s == Pending || s == Running
  }

  /** A task's foreign key, and the link between its name and its job. */
  predicate TaskLinked(task: Task, jobs: seq<Job>) {
    if task.job.None? then task.kind == Performance
    else task.job.value < |jobs| && task.kind == jobs[task.job.value].kind != Performance
  }

  predicate Linked(s: State) {
    && (forall t :: 0 <= t < |s.tasks| ==> TaskLinked(s.tasks[t], s.jobs))
    && (forall d :: 0 <= d < |s.discoveries| ==> s.discoveries[d].job < |s.jobs|)
    && (forall w :: 0 <= w < |s.workers| && s.workers[w].Some? ==> s.workers[w].value < |s.tasks|)
  }

  function NewJob(kind: Kind, resource: nat): Job {
    Job(kind, Pending, resource, false, false, None, [], NoResult)
  }

  function QueuedFor(kind: Kind, job: Option<nat>, resource: nat): Task {
    Task(kind, job, resource, Queued, 0)
  }

  function WithJobStatus(s: State, j: nat, status: Status): State
    requires j < |s.jobs|
  {
    s.(jobs := s.jobs[j := s.jobs[j].(status := status)])
  }

  function WithTaskStatus(s: State, t: nat, status: Status): State
    requires t < |s.tasks|
  {
    s.(tasks := s.tasks[t := s.tasks[t].(status := status)])
  }

  /** No change when the row does not exist, as the completions and failures tolerate. */
  function WithDiscoveryStatus(s: State, d: nat, status: Status): State {
    if d < |s.discoveries| then s.(discoveries := s.discoveries[d := s.discoveries[d].(status := status)]) else s
  }

  function Release(s: State, w: nat): State
    requires w < |s.workers|
  {
    s.(workers := s.workers[w := None])
  }

  /** The newest row with this scope among the first n. */
  function LatestFor(rows: seq<DiscoveryRow>, scope: Scope, n: nat): (r: Option<nat>)
    requires n <= |rows|
    ensures r.Some? ==> r.value < n && rows[r.value].scope == scope
    ensures forall i :: (if r.Some? then r.value + 1 else 0) <= i < n ==> rows[i].scope != scope
  {
    if n == 0 then None
    else if rows[n - 1].scope == scope then Some(n - 1)
    else LatestFor(rows, scope, n - 1)
  }

  function DoCreateDiscovery(s: State, scope: Scope, autoScan: bool, autoCheck: bool): State {
    var found := LatestFor(s.discoveries, scope, |s.discoveries|);
    if found.Some? && Active(s.discoveries[found.value].status) then s
    else
      var j := |s.jobs|;
      var d := if found.Some? then found.value else |s.discoveries|;
      var rows := if found.Some?
                  then s.discoveries[d := s.discoveries[d].(job := j, status := Pending)]
                  else s.discoveries + [DiscoveryRow(scope, j, Pending)];
      s.(jobs := s.jobs + [NewJob(Discovery, d).(autoScan := autoScan, autoCheck := autoCheck)],
         discoveries := rows,
         tasks := s.tasks + [QueuedFor(Discovery, Some(j), d)])
  }

  function DoCreateScan(s: State, targets: seq<nat>): State {
    s.(jobs := s.jobs + [NewJob(Scan, 0).(targets := targets)],
       tasks := s.tasks + [QueuedFor(Scan, Some(|s.jobs|), 0)])
  }

  function DoCreateRecompute(s: State): State {
    s.(jobs := s.jobs + [NewJob(Recompute, 0)],
       tasks := s.tasks + [QueuedFor(Recompute, Some(|s.jobs|), 0)])
  }

  function DoAddRun(s: State, scan: Option<nat>): State {
    s.(runs := s.runs + [RunRow(scan)])
  }

  function DoQueueTask(s: State, r: nat): State {
    s.(tasks := s.tasks + [QueuedFor(Performance, None, r)])
  }

  /** A client's run that has no task yet. */
  predicate Unqueued(runs: seq<RunRow>, tasks: seq<Task>, r: nat) {
    && r < |runs| && runs[r].scan.None?
    && forall t :: 0 <= t < |tasks| && tasks[t].job.None? ==> tasks[t].resource != r
  }

  /** A client's request writes the run first and queues it, if at all, in a second transaction, once. */
  function DoQueueRun(s: State, r: nat): State {
    if Unqueued(s.runs, s.tasks, r) then DoQueueTask(s, r) else s
  }

  /** A scan's completion does both in its own transaction. */
  function DoCreateRun(s: State, scan: Option<nat>): State {
    DoQueueTask(DoAddRun(s, scan), |s.runs|)
  }

  function CancelTask(t: Task, j: nat): Task {
    if t.job == Some(j) && (t.status == Queued || t.status == Running) then t.(status := Cancelled) else t
  }

  function CancelTasks(tasks: seq<Task>, j: nat): (r: seq<Task>)
    ensures |r| == |tasks|
    ensures forall i :: 0 <= i < |tasks| ==> r[i] == CancelTask(tasks[i], j)
  {
    seq(|tasks|, i requires 0 <= i < |tasks| => CancelTask(tasks[i], j))
  }

  /** The discovery row whose current job is j: the reverse side of the one-to-one column. */
  function RowOfJob(rows: seq<DiscoveryRow>, j: nat, n: nat): (r: Option<nat>)
    requires n <= |rows|
    ensures r.Some? ==> r.value < n && rows[r.value].job == j
    ensures r.None? ==> forall i :: 0 <= i < n ==> rows[i].job != j
  {
    if n == 0 then None
    else if rows[n - 1].job == j then Some(n - 1)
    else RowOfJob(rows, j, n - 1)
  }

  /** A cancelled discovery job takes its row along, if the row is still attached to it. */
  function SyncCancelled(s: State, j: nat): State
    requires j < |s.jobs|
  {
    if s.jobs[j].kind != Discovery then s
    else
      match RowOfJob(s.discoveries, j, |s.discoveries|)
      case None => s
      case Some(d) => WithDiscoveryStatus(s, d, Cancelled)
  }

  /** Finished jobs and running recomputes refuse. */
  predicate Cancellable(job: Job) {
    && job.status != Completed
    && job.status != Failed
    && !(job.kind == Recompute && job.status == Running)
  }

  function DoCancel(s: State, j: nat): State {
    if j >= |s.jobs| || !Cancellable(s.jobs[j]) then s
    else
      var s1 := WithJobStatus(s, j, Cancelled);
      SyncCancelled(s1.(tasks := CancelTasks(s1.tasks, j)), j)
  }

  /** The row that the payload names and the claim insists on. */
  predicate PayloadRowExists(s: State, task: Task) {
    && (task.kind == Discovery ==> task.resource < |s.discoveries|)
    && (task.kind == Performance ==> task.resource < |s.runs|)
  }

  /** A claim of a task that is not queued, or whose payload row is gone, leaves everything as it was. */
  predicate CanClaim(s: State, w: nat, t: nat) {
    && w < |s.workers| && s.workers[w] == None
    && t < |s.tasks| && s.tasks[t].status == Queued
    && PayloadRowExists(s, s.tasks[t])
  }

  function DoClaim(s: State, w: nat, t: nat): State
    requires Linked(s)
  {
    if !CanClaim(s, w, t) then s
    else
      var task := s.tasks[t];
      var s1 := s.(tasks := s.tasks[t := task.(status := Running, attempts := task.attempts + 1)]);
      if task.job.Some? && s.jobs[task.job.value].status == Cancelled then WithTaskStatus(s1, t, Cancelled)
      else
        var s2 := if task.job.Some? then WithJobStatus(s1, task.job.value, Running) else s1;
        var s3 := if task.kind == Discovery then WithDiscoveryStatus(s2, task.resource, Running) else s2;
        s3.(workers := s3.workers[w := Some(t)])
  }

  /** The scan that a completed discovery queues, when asked to and when something was promoted. */
  function SpawnScan(s: State, j: nat, promoted: seq<nat>): (r: (State, JobResult))
    requires j < |s.jobs|
    ensures |r.0.jobs| >= |s.jobs| && r.0.jobs[..|s.jobs|] == s.jobs
  {
    if !s.jobs[j].autoScan then (s, Discovered(None))
    else if promoted == [] then (s, Discovered(Some(FollowUp(0, None))))
    else
      var child := NewJob(Scan, 0).(origin := Some(j), targets := promoted, autoCheck := s.jobs[j].autoCheck);
      (s.(jobs := s.jobs + [child], tasks := s.tasks + [QueuedFor(Scan, Some(|s.jobs|), 0)]),
       Discovered(Some(FollowUp(|promoted|, Some(|s.jobs|)))))
  }

  /** The performance run that a completed scan queues, when asked to and when a snapshot was stored. */
  function SpawnRun(s: State, j: nat, snapshot: bool): (r: (State, JobResult))
    requires j < |s.jobs|
    ensures r.0.jobs == s.jobs
  {
    if s.jobs[j].autoCheck && snapshot then (DoCreateRun(s, Some(j)), Scanned(Some(|s.runs|)))
    else (s, Scanned(None))
  }

  function Finish(s: State, j: nat, result: JobResult): State
    requires j < |s.jobs|
  {
    s.(jobs := s.jobs[j := s.jobs[j].(status := Completed, result := result)])
  }

  function CompleteDiscovery(s: State, t: nat, j: nat, promoted: seq<nat>): State
    requires t < |s.tasks| && j < |s.jobs|
  {
    if s.jobs[j].status == Cancelled then WithTaskStatus(s, t, Cancelled)
    else
      var d := s.tasks[t].resource;
      var s1 := WithDiscoveryStatus(WithTaskStatus(s, t, Completed), d, Completed);
      if d < |s.discoveries| then
        var spawned := SpawnScan(s1, j, promoted);
        Finish(spawned.0, j, spawned.1)
      else Finish(s1, j, Discovered(None))
  }

  function CompleteScan(s: State, t: nat, j: nat, snapshot: bool): State
    requires t < |s.tasks| && j < |s.jobs|
  {
    if s.jobs[j].status == Cancelled then WithTaskStatus(s, t, Cancelled)
    else
      var spawned := SpawnRun(WithTaskStatus(s, t, Completed), j, snapshot);
      Finish(spawned.0, j, spawned.1)
  }

  /** No cancellation check here: a running recompute cannot be cancelled. */
  function CompleteRecompute(s: State, t: nat, j: nat): State
    requires t < |s.tasks| && j < |s.jobs|
  {
    Finish(WithTaskStatus(s, t, Completed), j, Recomputed)
  }

  function DoComplete(s: State, w: nat, promoted: seq<nat>, snapshot: bool): State
    requires Linked(s)
  {
    if w >= |s.workers| || s.workers[w].None? then s
    else
      var t := s.workers[w].value;
      var task := s.tasks[t];
      var done :=
        match task.kind
        case Discovery => CompleteDiscovery(s, t, task.job.value, promoted)
        case Scan => CompleteScan(s, t, task.job.value, snapshot)
        case Recompute => CompleteRecompute(s, t, task.job.value)
        case Performance => WithTaskStatus(s, t, Completed);
      Release(done, w)
  }

  /** No failure step looks at the job's status. */
  function DoFail(s: State, w: nat): State
    requires Linked(s)
  {
    if w >= |s.workers| || s.workers[w].None? then s
    else
      var t := s.workers[w].value;
      var task := s.tasks[t];
      var s1 := WithTaskStatus(s, t, Failed);
      var s2 := if task.kind == Discovery then WithDiscoveryStatus(s1, task.resource, Failed) else s1;
      var s3 := if task.job.Some? then WithJobStatus(s2, task.job.value, Failed) else s2;
      Release(s3, w)
  }

  /** A worker that dies, or whose completing transaction rolls back, just lets go. */
  function DoAbandon(s: State, w: nat): State {
    if w < |s.workers| then Release(s, w) else s
  }

  function Step(s: State, e: Event): State
    requires Linked(s)
  {
    match e
    case CreateDiscovery(scope, autoScan, autoCheck) => DoCreateDiscovery(s, scope, autoScan, autoCheck)
    case CreateScan(targets) => DoCreateScan(s, targets)
    case CreateRecompute => DoCreateRecompute(s)
    case CreateRun => DoAddRun(s, None)
    case QueueRun(r) => DoQueueRun(s, r)
    case Cancel(j) => DoCancel(s, j)
    case Claim(w, t) => DoClaim(s, w, t)
    case Complete(w, promoted, snapshot) => DoComplete(s, w, promoted, snapshot)
    case Fail(w) => DoFail(s, w)
    case Abandon(w) => DoAbandon(s, w)
  }
}
