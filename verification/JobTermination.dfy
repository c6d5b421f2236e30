/** Payloads run at most once, and without new requests the workers come to rest. */
module JobTermination {
  import opened Basics
  import opened JobRows
  import opened JobInvariants
  import opened JobRuns

  // ----- A weight for the work that is left -----

  function Sum(xs: seq<nat>): nat {
    if xs == [] then 0 else Sum(xs[..|xs| - 1]) + xs[|xs| - 1]
  }

  lemma {:induction false} SumUpdate(xs: seq<nat>, i: nat, x: nat)
    requires i < |xs|
    ensures Sum(xs[i := x]) + xs[i] == Sum(xs) + x
  {
    var n := |xs| - 1;
    if i < n {
      SumUpdate(xs[..n], i, x);
      assert xs[i := x][..n] == xs[..n][i := x];
    } else {
      assert xs[i := x][..n] == xs[..n];
    }
  }

  lemma SumAppend(xs: seq<nat>, x: nat)
    ensures Sum(xs + [x]) == Sum(xs) + x
  {
    assert (xs + [x])[..|xs|] == xs;
  }

  lemma {:induction false} SumPositive(xs: seq<nat>) returns (i: nat)
    requires Sum(xs) > 0
    ensures i < |xs| && xs[i] > 0
  {
    i := |xs| - 1;
    if xs[i] == 0 {
      i := SumPositive(xs[..i]);
    }
  }

  /** A queued discovery may still run, spawn a scan, and that a performance run. */
  function QueuedWeight(kind: Kind): nat {
    match kind
    case Discovery => 6
    case Scan => 4
    case Recompute => 2
    case Performance => 2
  }

  function TaskWeight(t: Task): nat {
    if t.status == Queued then QueuedWeight(t.kind) else 0
  }

  function SlotWeight(slot: Option<nat>, tasks: seq<Task>): nat {
    if slot.Some? && slot.value < |tasks| then QueuedWeight(tasks[slot.value].kind) - 1 else 0
  }

  function TaskWeights(tasks: seq<Task>): seq<nat> {
    seq(|tasks|, i requires 0 <= i < |tasks| => TaskWeight(tasks[i]))
  }

  function SlotWeights(workers: seq<Option<nat>>, tasks: seq<Task>): seq<nat> {
    seq(|workers|, i requires 0 <= i < |workers| => SlotWeight(workers[i], tasks))
  }

  function Measure(s: State): nat {
    Sum(TaskWeights(s.tasks)) + Sum(SlotWeights(s.workers, s.tasks))
  }

  lemma TaskMoves(tasks: seq<Task>, tasks': seq<Task>, t: nat)
    requires t < |tasks| == |tasks'| && forall u :: 0 <= u < |tasks| && u != t ==> tasks'[u] == tasks[u]
    ensures Sum(TaskWeights(tasks')) + TaskWeight(tasks[t]) == Sum(TaskWeights(tasks)) + TaskWeight(tasks'[t])
  {
    SumUpdate(TaskWeights(tasks), t, TaskWeight(tasks'[t]));
    assert TaskWeights(tasks') == TaskWeights(tasks)[t := TaskWeight(tasks'[t])];
  }

  /** Slots weigh the same as long as the tasks in them keep their kinds. */
  lemma SlotsFrame(workers: seq<Option<nat>>, tasks: seq<Task>, tasks': seq<Task>)
    requires |tasks| <= |tasks'| && forall t :: 0 <= t < |tasks| ==> tasks'[t].kind == tasks[t].kind
    requires forall w :: 0 <= w < |workers| && workers[w].Some? ==> workers[w].value < |tasks|
    ensures SlotWeights(workers, tasks') == SlotWeights(workers, tasks)
  {
  }

  lemma SlotsMove(workers: seq<Option<nat>>, tasks: seq<Task>, w: nat, slot: Option<nat>)
    requires w < |workers|
    ensures Sum(SlotWeights(workers[w := slot], tasks)) + SlotWeight(workers[w], tasks)
            == Sum(SlotWeights(workers, tasks)) + SlotWeight(slot, tasks)
  {
    SumUpdate(SlotWeights(workers, tasks), w, SlotWeight(slot, tasks));
    assert SlotWeights(workers[w := slot], tasks) == SlotWeights(workers, tasks)[w := SlotWeight(slot, tasks)];
  }

  /** The measure after one task and one slot moved. */
  lemma PairMeasure(s: State, s': State, t: nat, w: nat)
    requires Linked(s) && PairMoves(s, s', t) && SlotMoves(s, s', t, w)
    ensures s'.workers == s.workers ==> Measure(s') + TaskWeight(s.tasks[t]) == Measure(s) + TaskWeight(s'.tasks[t])
    ensures s'.workers != s.workers ==>
              && w < |s.workers| && w < |s'.workers|
              && Measure(s') + TaskWeight(s.tasks[t]) + SlotWeight(s.workers[w], s.tasks)
                 == Measure(s) + TaskWeight(s'.tasks[t]) + SlotWeight(s'.workers[w], s.tasks)
  {
    TaskMoves(s.tasks, s'.tasks, t);
    SlotsFrame(s.workers, s.tasks, s'.tasks);
    if s'.workers != s.workers {
      SlotsMove(s.workers, s'.tasks, w, s'.workers[w]);
    }
  }

  lemma QueueMeasure(s: State, s': State)
    requires |s'.tasks| == |s.tasks| + 1 && s'.tasks[..|s.tasks|] == s.tasks && s'.workers == s.workers
    requires forall w :: 0 <= w < |s.workers| && s.workers[w].Some? ==> s.workers[w].value < |s.tasks|
    ensures Measure(s') == Measure(s) + TaskWeight(s'.tasks[|s.tasks|])
  {
    var task := s'.tasks[|s.tasks|];
    assert s'.tasks == s.tasks + [task];
    assert TaskWeights(s'.tasks) == TaskWeights(s.tasks) + [TaskWeight(task)];
    SumAppend(TaskWeights(s.tasks), TaskWeight(task));
    SlotsFrame(s.workers, s.tasks, s'.tasks);
  }

  lemma ClaimMeasure(s: State, w: nat, t: nat)
    requires Inv(s) && CanClaim(s, w, t)
    ensures Measure(DoClaim(s, w, t)) < Measure(s)
  {
    ClaimFindsPending(s, w, t);
    ClaimMoves(s, w, t);
    PairMeasure(s, DoClaim(s, w, t), t, w);
  }

  lemma CompleteDiscoveryMeasure(s: State, w: nat, promoted: seq<nat>, snapshot: bool)
    requires Linked(s) && w < |s.workers| && s.workers[w].Some? && HeldOk(s, s.workers[w].value)
    requires s.tasks[s.workers[w].value].kind == Discovery
    ensures Measure(DoComplete(s, w, promoted, snapshot)) < Measure(s)
  {
    CompleteDiscoveryMoves(s, w, promoted, snapshot);
    var s' := DoComplete(s, w, promoted, snapshot);
    var mid := WithoutSpawn(s, s');
    PairMeasure(s, mid, s.workers[w].value, w);
    if s' != mid {
      QueueMeasure(mid, s');
    }
  }

  lemma CompleteScanMeasure(s: State, w: nat, promoted: seq<nat>, snapshot: bool)
    requires Linked(s) && w < |s.workers| && s.workers[w].Some? && HeldOk(s, s.workers[w].value)
    requires s.tasks[s.workers[w].value].kind == Scan
    ensures Measure(DoComplete(s, w, promoted, snapshot)) < Measure(s)
  {
    CompleteScanMoves(s, w, promoted, snapshot);
    var s' := DoComplete(s, w, promoted, snapshot);
    var mid := WithoutSpawn(s, s');
    PairMeasure(s, mid, s.workers[w].value, w);
    if s' != mid {
      QueueMeasure(mid, s');
    }
  }

  lemma CompleteMeasure(s: State, w: nat, promoted: seq<nat>, snapshot: bool)
    requires Inv(s) && w < |s.workers| && s.workers[w].Some?
    ensures Measure(DoComplete(s, w, promoted, snapshot)) < Measure(s)
  {
    HeldJob(s, w);
    match s.tasks[s.workers[w].value].kind {
      case Discovery => CompleteDiscoveryMeasure(s, w, promoted, snapshot);
      case Scan => CompleteScanMeasure(s, w, promoted, snapshot);
      case _ =>
        CompleteLastMoves(s, w, promoted, snapshot);
        PairMeasure(s, DoComplete(s, w, promoted, snapshot), s.workers[w].value, w);
    }
  }

  /** Every worker event that changes anything uses up weight. */
  lemma WorkerStepDecreases(s: State, e: Event)
    requires Inv(s) && e.IsWorker() && Step(s, e) != s
    ensures Measure(Step(s, e)) < Measure(s)
  {
    match e {
      case Claim(w, t) => ClaimMeasure(s, w, t);
      case Complete(w, promoted, snapshot) => CompleteMeasure(s, w, promoted, snapshot);
      case Fail(w) =>
        HeldJob(s, w);
        FailMeasure(s, w);
      case Abandon(w) =>
        assert s.workers[w := None] != s.workers;
        AbandonMeasure(s, w);
    }
  }

  lemma FailMeasure(s: State, w: nat)
    requires Linked(s) && w < |s.workers| && s.workers[w].Some? && HeldOk(s, s.workers[w].value)
    ensures Measure(DoFail(s, w)) < Measure(s)
  {
    FailMoves(s, w);
    PairMeasure(s, DoFail(s, w), s.workers[w].value, w);
  }

  lemma AbandonMeasure(s: State, w: nat)
    requires Linked(s) && w < |s.workers| && s.workers[w].Some?
    ensures Measure(DoAbandon(s, w)) < Measure(s)
  {
    SlotsMove(s.workers, s.tasks, w, None);
  }

  /** A cancellation never adds work. */
  lemma CancelMeasure(s: State, j: nat)
    requires Inv(s)
    ensures Measure(DoCancel(s, j)) <= Measure(s)
  {
    if j < |s.jobs| && Cancellable(s.jobs[j]) {
      assert HasTask(s.tasks, j);
      var t :| 0 <= t < |s.tasks| && s.tasks[t].job == Some(j);
      CancelTaskMeasure(s, j, t);
    }
  }

  lemma CancelTaskMeasure(s: State, j: nat, t: nat)
    requires Linked(s) && j < |s.jobs| && Cancellable(s.jobs[j])
    requires t < |s.tasks| && s.tasks[t].job == Some(j)
    requires forall u :: 0 <= u < |s.tasks| && u != t ==> s.tasks[u].job != Some(j)
    requires AttemptsOk(s.tasks[t]) && s.tasks[t].status == AsTask(s.jobs[j].status)
    ensures Measure(DoCancel(s, j)) <= Measure(s)
  {
    CancelMoves(s, j, t);
    var s' := DoCancel(s, j);
    assert s'.workers == s.workers && s'.tasks[t].status == Cancelled;
    PairMeasure(s, s', t, 0);
  }

  /** How many worker events of the run changed something. */
  ghost function Effective(s: State, events: seq<Event>): nat
    requires Inv(s)
    decreases |events|
  {
    if events == [] then 0
    else
      StepInv(s, events[0]);
      (if events[0].IsWorker() && Step(s, events[0]) != s then 1 else 0) + Effective(Step(s, events[0]), events[1..])
  }

  lemma StepMeasure(s: State, e: Event)
    requires Inv(s) && !e.IsCreate()
    ensures Measure(Step(s, e)) + (if e.IsWorker() && Step(s, e) != s then 1 else 0) <= Measure(s)
  {
    if e.Cancel? {
      CancelMeasure(s, e.job);
    } else if Step(s, e) != s {
      WorkerStepDecreases(s, e);
    }
  }

  /** With no new requests (cancellations allowed) a run has at most Measure(s) effective worker events,
      however long it is. */
  lemma {:induction false} PipelineTerminates(s: State, events: seq<Event>)
    requires Inv(s) && forall i :: 0 <= i < |events| ==> !events[i].IsCreate()
    ensures Effective(s, events) + Measure(Exec(s, events)) <= Measure(s)
    decreases |events|
  {
    if events != [] {
      StepInv(s, events[0]);
      StepMeasure(s, events[0]);
      PipelineTerminates(Step(s, events[0]), events[1..]);
    }
  }

  lemma {:induction false} IdleSlots(workers: seq<Option<nat>>, tasks: seq<Task>)
    requires forall w :: 0 <= w < |workers| ==> workers[w].None?
    ensures Sum(SlotWeights(workers, tasks)) == 0
  {
    if workers != [] {
      var n := |workers| - 1;
      IdleSlots(workers[..n], tasks);
      assert SlotWeights(workers, tasks)[..n] == SlotWeights(workers[..n], tasks);
    }
  }

  lemma QueuedSomewhere(s: State) returns (t: nat)
    requires Linked(s) && Payloads(s) && Measure(s) > 0 && forall w :: 0 <= w < |s.workers| ==> s.workers[w].None?
    ensures t < |s.tasks| && s.tasks[t].status == Queued && PayloadRowExists(s, s.tasks[t])
  {
    IdleSlots(s.workers, s.tasks);
    t := SumPositive(TaskWeights(s.tasks));
  }

  /** Nor can it stall: while work is left, a worker can finish what it holds or claim something. */
  lemma PipelineProgresses(s: State) returns (e: Event)
    requires Inv(s) && Measure(s) > 0 && |s.workers| > 0
    ensures (e.Claim? || e.Complete?) && Step(s, e) != s
  {
    if w :| 0 <= w < |s.workers| && s.workers[w].Some? {
      e := Complete(w, [], false);
      CompleteMeasure(s, w, [], false);
    } else {
      var t := QueuedSomewhere(s);
      e := Claim(0, t);
      ClaimMeasure(s, 0, t);
    }
  }

  // ----- Each payload runs at most once -----

  /** The event hands task t to a worker, which then runs its payload. */
  predicate Starts(s: State, e: Event, t: nat)
    requires Linked(s)
  {
    e.Claim? && e.task == t && CanClaim(s, e.worker, t) && DoClaim(s, e.worker, t).workers[e.worker] == Some(t)
  }

  ghost function StartCount(s: State, events: seq<Event>, t: nat): nat
    requires Inv(s)
    decreases |events|
  {
    if events == [] then 0
    else
      StepInv(s, events[0]);
      (if Starts(s, events[0], t) then 1 else 0) + StartCount(Step(s, events[0]), events[1..], t)
  }

  function AttemptsOf(s: State, t: nat): nat {
    if t < |s.tasks| then s.tasks[t].attempts else 0
  }

  lemma AttemptsGrow(s: State, e: Event, t: nat)
    requires Linked(s)
    ensures AttemptsOf(s, t) + (if Starts(s, e, t) then 1 else 0) <= AttemptsOf(Step(s, e), t)
  {
    match e {
      case Claim(w, u) =>
        if CanClaim(s, w, u) {
          assert TaskLinked(s.tasks[u], s.jobs);
        }
      case Complete(w, promoted, snapshot) => CompleteKeepsAttempts(s, w, promoted, snapshot, t);
      case _ =>
    }
  }

  lemma CompleteKeepsAttempts(s: State, w: nat, promoted: seq<nat>, snapshot: bool, t: nat)
    requires Linked(s)
    ensures AttemptsOf(s, t) <= AttemptsOf(DoComplete(s, w, promoted, snapshot), t)
  {
    if w < |s.workers| && s.workers[w].Some? {
      assert TaskLinked(s.tasks[s.workers[w].value], s.jobs);
    }
  }

  /** However many workers pick the same queue head, in whatever order. */
  lemma {:induction false} PayloadRunsOnce(s: State, events: seq<Event>, t: nat)
    requires Inv(s)
    ensures AttemptsOf(s, t) + StartCount(s, events, t) <= 1
    decreases |events|
  {
    if t < |s.tasks| {
      assert AttemptsOk(s.tasks[t]);
    }
    if events != [] {
      StepInv(s, events[0]);
      AttemptsGrow(s, events[0], t);
      PayloadRunsOnce(Step(s, events[0]), events[1..], t);
    }
  }
}
