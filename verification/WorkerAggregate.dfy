/** The `Worker` aggregate: the object that carries a worker's state and the job it works on. */
module WorkerAggregate {
  import opened Wrappers
  import opened WorkerStates

  type Timestamp = int

  datatype WorkerError = InvalidWorkerStateTransition(current: WorkerState, requested: WorkerState)

  datatype WorkerRecord = WorkerRecord(
    state: WorkerState,
    currentJob: Option<string>,
    jobsExecuted: nat,
    jobCompletedAt: Option<Timestamp>,
    lastHeartbeat: Timestamp,
    updatedAt: Timestamp)

  datatype Operation =
    | MarkReady
    | AssignJob(jobId: string)
    | CompleteJob
    | MarkTerminating
    | MarkFailed
    | UpdateHeartbeat(beat: Timestamp)

  function NewRecord(now: Timestamp): WorkerRecord {
    WorkerRecord(Creating, None, 0, None, now, now)
  }

  function TransitionTo(w: WorkerRecord, target: WorkerState, now: Timestamp): Result<WorkerRecord, WorkerError> {
    if CanTransitionTo(w.state, target) then Ok(w.(state := target, updatedAt := now))
    else Err(InvalidWorkerStateTransition(w.state, target))
  }

  /** What one operation at time `now` makes of a record, or why it is refused. */
  function Perform(w: WorkerRecord, op: Operation, now: Timestamp): Result<WorkerRecord, WorkerError> {
    match op
    case MarkReady =>
      if w.state.Ready? then Ok(w)
      else
        (match TransitionTo(w, Ready, now)
         case Ok(v) => Ok(v.(lastHeartbeat := v.updatedAt))
         case Err(e) => Err(e))
    case AssignJob(jobId) =>
      (match TransitionTo(w, Busy, now)
       case Ok(v) => Ok(v.(currentJob := Some(jobId)))
       case Err(e) => Err(e))
    case CompleteJob =>
      if w.currentJob.None? then Err(InvalidWorkerStateTransition(w.state, Terminated))
      else
        (match TransitionTo(w, Terminated, now)
         case Ok(v) => Ok(v.(currentJob := None, jobsExecuted := v.jobsExecuted + 1, jobCompletedAt := Some(v.updatedAt)))
         case Err(e) => Err(e))
    case MarkTerminating =>
      if w.state.Terminated? then Ok(w) else TransitionTo(w, Terminated, now)
    case MarkFailed => TransitionTo(w, Terminated, now)
    case UpdateHeartbeat(beat) => Ok(w.(lastHeartbeat := beat, updatedAt := now))
  }

  function After(w: WorkerRecord, op: Operation, now: Timestamp): WorkerRecord {
    match Perform(w, op, now)
    case Ok(v) => v
    case Err(_) => w
  }

  /** The class does to its fields what `Perform` does to the record. */
  class Worker {
    var state: WorkerState
    var currentJob: Option<string>
    var jobsExecuted: nat
    var jobCompletedAt: Option<Timestamp>
    var lastHeartbeat: Timestamp
    var updatedAt: Timestamp

    ghost function View(): WorkerRecord
      reads this
    {
      WorkerRecord(state, currentJob, jobsExecuted, jobCompletedAt, lastHeartbeat, updatedAt)
    }

    static ghost predicate Does(
      before: WorkerRecord, op: Operation, now: Timestamp, after: WorkerRecord, r: Result<(), WorkerError>)
    {
      match Perform(before, op, now)
      case Ok(v) => after == v && r == Ok(())
      case Err(e) => after == before && r == Err(e)
    }

    constructor (now: Timestamp)
      ensures View() == NewRecord(now)
      ensures state == Creating && currentJob == None && jobsExecuted == 0 && jobCompletedAt == None
      ensures lastHeartbeat == now && updatedAt == now
    {
      state, currentJob, jobsExecuted, jobCompletedAt := Creating, None, 0, None;
      lastHeartbeat, updatedAt := now, now;
    }

    method Transition(target: WorkerState, now: Timestamp) returns (r: Result<(), WorkerError>)
      modifies this`state, this`updatedAt
      ensures match TransitionTo(old(View()), target, now)
              case Ok(v) => View() == v && r == Ok(())
              case Err(e) => View() == old(View()) && r == Err(e)
    {
      var currentState := state;
      if !CanTransitionTo(currentState, target) {
        return Err(InvalidWorkerStateTransition(currentState, target));
      }
      state := target;
      updatedAt := now;
      return Ok(());
    }

    method MarkReady(now: Timestamp) returns (r: Result<(), WorkerError>)
      modifies this
      ensures Does(old(View()), Operation.MarkReady, now, View(), r)
    {
      if state == Ready { return Ok(()); }
      r := Transition(Ready, now);
      if r.Err? { return; }
      lastHeartbeat := updatedAt;
    }

    method AssignJob(jobId: string, now: Timestamp) returns (r: Result<(), WorkerError>)
      modifies this
      ensures Does(old(View()), Operation.AssignJob(jobId), now, View(), r)
    {
      r := Transition(Busy, now);
      if r.Err? { return; }
      currentJob := Some(jobId);
    }

    method CompleteJob(now: Timestamp) returns (r: Result<(), WorkerError>)
      modifies this
      ensures Does(old(View()), Operation.CompleteJob, now, View(), r)
    {
      if currentJob.None? { return Err(InvalidWorkerStateTransition(state, Terminated)); }
      r := Transition(Terminated, now);
      if r.Err? { return; }
      currentJob := None;
      jobsExecuted := jobsExecuted + 1;
      jobCompletedAt := Some(updatedAt);
    }

    method MarkTerminating(now: Timestamp) returns (r: Result<(), WorkerError>)
      modifies this
      ensures Does(old(View()), Operation.MarkTerminating, now, View(), r)
    {
      if state == Terminated { return Ok(()); }
      r := Transition(Terminated, now);
    }

    method MarkFailed(now: Timestamp) returns (r: Result<(), WorkerError>)
      modifies this
      ensures Does(old(View()), Operation.MarkFailed, now, View(), r)
    {
      r := Transition(Terminated, now);
    }

    /** The clock is read once for the heartbeat and again for the update. */
    method UpdateHeartbeat(beat: Timestamp, now: Timestamp)
      modifies this
      ensures Does(old(View()), Operation.UpdateHeartbeat(beat), now, View(), Ok(()))
    {
      lastHeartbeat := beat;
      updatedAt := now;
    }
  }

  // ---------- whole lives ----------

  datatype Call = Call(op: Operation, now: Timestamp)

  function AfterAll(w: WorkerRecord, calls: seq<Call>): WorkerRecord {
    if calls == [] then w
    else
      var c := calls[|calls| - 1];
      After(AfterAll(w, calls[..|calls| - 1]), c.op, c.now)
  }

  /** The jobs accepted by `assign_job`, in order. */
  function JobsTaken(w: WorkerRecord, calls: seq<Call>): seq<string> {
    if calls == [] then []
    else
      var init, c := calls[..|calls| - 1], calls[|calls| - 1];
      JobsTaken(w, init) +
        (if c.op.AssignJob? && Perform(AfterAll(w, init), c.op, c.now).Ok? then [c.op.jobId] else [])
  }

  /**
   A worker takes at most one job in its life, and never loses it: the job is the one recorded as
   current, or it was executed and the worker is terminated.
   */
  lemma {:induction false} JobsConserved(now: Timestamp, calls: seq<Call>)
    ensures var w := AfterAll(NewRecord(now), calls); var taken := JobsTaken(NewRecord(now), calls);
            && |taken| <= 1
            && (w.currentJob.Some? ==> taken == [w.currentJob.value])
            && w.jobsExecuted + (if w.currentJob.Some? then 1 else 0) == |taken|
            && (w.state.Creating? || w.state.Ready? ==> taken == [])
            && (w.state.Busy? ==> w.currentJob.Some?)
            && (w.jobsExecuted == 1 ==> w.state.Terminated?)
            && (w.jobCompletedAt.Some? <==> w.jobsExecuted == 1)
  {
    if calls != [] {
      JobsConserved(now, calls[..|calls| - 1]);
    }
  }

  predicate Stops(op: Operation) { op.MarkTerminating? || op.MarkFailed? }

  /** One of the calls stops the worker while it is busy. */
  ghost predicate StoppedWhileBusy(w: WorkerRecord, calls: seq<Call>) {
    exists i :: 0 <= i < |calls| && AfterAll(w, calls[..i]).state.Busy? && Stops(calls[i].op)
  }

  lemma StoppedWhileBusyLast(w: WorkerRecord, calls: seq<Call>)
    requires calls != []
    ensures var init := calls[..|calls| - 1];
            (StoppedWhileBusy(w, calls)
             <==> StoppedWhileBusy(w, init) || (AfterAll(w, init).state.Busy? && Stops(calls[|calls| - 1].op)))
  {
    var init := calls[..|calls| - 1];
    if i :| 0 <= i < |calls| && AfterAll(w, calls[..i]).state.Busy? && Stops(calls[i].op) {
      if i < |init| {
        assert init[..i] == calls[..i];
      }
    }
    if i :| 0 <= i < |init| && AfterAll(w, init[..i]).state.Busy? && Stops(init[i].op) {
      assert calls[..i] == init[..i];
      assert Stops(calls[i].op);
    }
  }

  lemma OrphanedByOne(w: WorkerRecord, op: Operation, now: Timestamp)
    requires w.currentJob.Some? <==> w.state.Busy? || Orphaned(w)
    ensures Orphaned(After(w, op, now)) <==> Orphaned(w) || (w.state.Busy? && Stops(op))
  {
  }

  /** A terminated worker that still names a job. */
  predicate Orphaned(w: WorkerRecord) { w.state.Terminated? && w.currentJob.Some? }

  /**
   A terminated worker still names a job exactly when it was stopped while it worked on it; then that
   job was taken and never completed.
   */
  lemma {:induction false} OrphanedJob(now: Timestamp, calls: seq<Call>)
    ensures Orphaned(AfterAll(NewRecord(now), calls)) <==> StoppedWhileBusy(NewRecord(now), calls)
    ensures var w := AfterAll(NewRecord(now), calls);
            Orphaned(w) ==> w.jobsExecuted == 0 && JobsTaken(NewRecord(now), calls) == [w.currentJob.value]
  {
    JobsConserved(now, calls);
    if calls != [] {
      var init, c := calls[..|calls| - 1], calls[|calls| - 1];
      OrphanedJob(now, init);
      JobsConserved(now, init);
      OrphanedByOne(AfterAll(NewRecord(now), init), c.op, c.now);
      StoppedWhileBusyLast(NewRecord(now), calls);
    }
  }
}
