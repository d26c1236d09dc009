/** Which call set each field of a worker last. */
module WorkerFields {
  import opened Wrappers
  import opened WorkerStates
  import opened WorkerAggregate

  // ---------- acceptance ----------

  /** Exactly when each operation is accepted. */
  lemma AcceptedWhen(w: WorkerRecord, op: Operation, now: Timestamp)
    ensures Perform(w, op, now).Ok? <==>
      match op
      case MarkReady => w.state.Creating? || w.state.Ready?
      case AssignJob(_) => w.state.Ready?
      case CompleteJob => w.currentJob.Some? && !w.state.Terminated?
      case MarkTerminating => true
      case MarkFailed => !w.state.Terminated?
      case UpdateHeartbeat(_) => true
  {
  }

  /** A refused operation names the state and the one asked for, and a completion without a job asks for the end too. */
  lemma RefusalsSay(w: WorkerRecord, op: Operation, now: Timestamp)
    requires Perform(w, op, now).Err?
    ensures Perform(w, op, now).error ==
            InvalidWorkerStateTransition(w.state, if op.MarkReady? then Ready else if op.AssignJob? then Busy else Terminated)
  {
  }

  /** A worker says it can accept a job exactly when it would. */
  lemma CanAcceptExactly(w: WorkerRecord, jobId: string, now: Timestamp)
    ensures CanAcceptJobs(w.state) <==> Perform(w, AssignJob(jobId), now).Ok?
  {
  }

  // ---------- what each call writes ----------

  /** The operation finds the worker where it is asked to go, and leaves it alone. */
  predicate Idle(w: WorkerRecord, c: Call) {
    (c.op.MarkReady? && w.state == Ready) || (c.op.MarkTerminating? && w.state == Terminated)
  }

  function StateWrites(w: WorkerRecord, c: Call): Write<WorkerState> {
    match c.op
    case MarkReady => Sets(Ready)
    case AssignJob(_) => Sets(Busy)
    case CompleteJob => Sets(Terminated)
    case MarkTerminating => Sets(Terminated)
    case MarkFailed => Sets(Terminated)
    case UpdateHeartbeat(_) => Untouched
  }

  function JobWrites(w: WorkerRecord, c: Call): Write<Option<string>> {
    match c.op
    case AssignJob(jobId) => Sets(Some(jobId))
    case CompleteJob => Sets(None)
    case _ => Untouched
  }

  function CompletionWrites(w: WorkerRecord, c: Call): Write<Option<Timestamp>> {
    if c.op.CompleteJob? then Sets(Some(c.now)) else Untouched
  }

  function HeartbeatWrites(w: WorkerRecord, c: Call): Write<Timestamp> {
    if Idle(w, c) then Untouched
    else
      match c.op
      case MarkReady => Sets(c.now)
      case UpdateHeartbeat(beat) => Sets(beat)
      case _ => Untouched
  }

  function UpdateWrites(w: WorkerRecord, c: Call): Write<Timestamp> {
    if Idle(w, c) then Untouched else Sets(c.now)
  }

  // ---------- the last write stands ----------

  predicate Accepted(w: WorkerRecord, calls: seq<Call>, k: nat)
    requires k < |calls|
  {
    Perform(AfterAll(w, calls[..k]), calls[k].op, calls[k].now).Ok?
  }

  ghost predicate Tells<T>(field: WorkerRecord -> T, writes: (WorkerRecord, Call) -> Write<T>) {
    forall w: WorkerRecord, c: Call | Perform(w, c.op, c.now).Ok? ::
      field(Perform(w, c.op, c.now).value) == Written(writes(w, c), field(w))
  }

  /** Call `k` is the last accepted one that writes the field. */
  ghost predicate LastWriter<T>(writes: (WorkerRecord, Call) -> Write<T>, w: WorkerRecord, calls: seq<Call>, k: nat) {
    && k < |calls| && Accepted(w, calls, k) && writes(AfterAll(w, calls[..k]), calls[k]).Sets?
    && forall i | k < i < |calls| && Accepted(w, calls, i) :: writes(AfterAll(w, calls[..i]), calls[i]).Untouched?
  }

  ghost predicate NoWriter<T>(writes: (WorkerRecord, Call) -> Write<T>, w: WorkerRecord, calls: seq<Call>) {
    forall i | 0 <= i < |calls| && Accepted(w, calls, i) :: writes(AfterAll(w, calls[..i]), calls[i]).Untouched?
  }

  /** One more call: an accepted one writes what its table says, a refused one nothing. */
  lemma OneMoreTells<T>(
    field: WorkerRecord -> T, writes: (WorkerRecord, Call) -> Write<T>, w: WorkerRecord, calls: seq<Call>, n: nat)
    requires Tells(field, writes) && n < |calls|
    ensures field(AfterAll(w, calls[..n + 1])) ==
            Written(if Accepted(w, calls, n) then writes(AfterAll(w, calls[..n]), calls[n]) else Untouched,
                    field(AfterAll(w, calls[..n])))
  {
    assert calls[..n + 1][..n] == calls[..n];
  }

  lemma {:induction false} StandsUpTo<T>(
    field: WorkerRecord -> T, writes: (WorkerRecord, Call) -> Write<T>, w: WorkerRecord, calls: seq<Call>, k: nat, n: nat)
    requires Tells(field, writes) && LastWriter(writes, w, calls, k) && k < n <= |calls|
    ensures field(AfterAll(w, calls[..n])) == writes(AfterAll(w, calls[..k]), calls[k]).value
  {
    OneMoreTells(field, writes, w, calls, n - 1);
    if k < n - 1 { StandsUpTo(field, writes, w, calls, k, n - 1); }
  }

  lemma LastWriteStands<T>(
    field: WorkerRecord -> T, writes: (WorkerRecord, Call) -> Write<T>, w: WorkerRecord, calls: seq<Call>, k: nat)
    requires Tells(field, writes) && LastWriter(writes, w, calls, k)
    ensures field(AfterAll(w, calls)) == writes(AfterAll(w, calls[..k]), calls[k]).value
  {
    StandsUpTo(field, writes, w, calls, k, |calls|);
    assert calls[..|calls|] == calls;
  }

  lemma {:induction false} StaysUpTo<T>(
    field: WorkerRecord -> T, writes: (WorkerRecord, Call) -> Write<T>, w: WorkerRecord, calls: seq<Call>, n: nat)
    requires Tells(field, writes) && NoWriter(writes, w, calls) && n <= |calls|
    ensures field(AfterAll(w, calls[..n])) == field(w)
  {
    if n > 0 {
      OneMoreTells(field, writes, w, calls, n - 1);
      StaysUpTo(field, writes, w, calls, n - 1);
    }
  }

  lemma UnwrittenStays<T>(
    field: WorkerRecord -> T, writes: (WorkerRecord, Call) -> Write<T>, w: WorkerRecord, calls: seq<Call>)
    requires Tells(field, writes) && NoWriter(writes, w, calls)
    ensures field(AfterAll(w, calls)) == field(w)
  {
    StaysUpTo(field, writes, w, calls, |calls|);
    assert calls[..|calls|] == calls;
  }

  // ---------- the fields ----------

  const StateField := (w: WorkerRecord) => w.state
  const JobField := (w: WorkerRecord) => w.currentJob
  const CompletionField := (w: WorkerRecord) => w.jobCompletedAt
  const HeartbeatField := (w: WorkerRecord) => w.lastHeartbeat
  const UpdateField := (w: WorkerRecord) => w.updatedAt

  lemma FieldsTell()
    ensures Tells(StateField, StateWrites) && Tells(JobField, JobWrites) && Tells(CompletionField, CompletionWrites)
    ensures Tells(HeartbeatField, HeartbeatWrites) && Tells(UpdateField, UpdateWrites)
  {
  }

  /** State and job are those of the last accepted call that sets them. */
  lemma StateAndJobAreLast(w: WorkerRecord, calls: seq<Call>, k: nat)
    ensures LastWriter(StateWrites, w, calls, k) ==> AfterAll(w, calls).state == StateWrites(AfterAll(w, calls[..k]), calls[k]).value
    ensures LastWriter(JobWrites, w, calls, k) ==> AfterAll(w, calls).currentJob == JobWrites(AfterAll(w, calls[..k]), calls[k]).value
    ensures NoWriter(StateWrites, w, calls) ==> AfterAll(w, calls).state == w.state
    ensures NoWriter(JobWrites, w, calls) ==> AfterAll(w, calls).currentJob == w.currentJob
  {
    FieldsTell();
    if LastWriter(StateWrites, w, calls, k) { LastWriteStands(StateField, StateWrites, w, calls, k); }
    if LastWriter(JobWrites, w, calls, k) { LastWriteStands(JobField, JobWrites, w, calls, k); }
    if NoWriter(StateWrites, w, calls) { UnwrittenStays(StateField, StateWrites, w, calls); }
    if NoWriter(JobWrites, w, calls) { UnwrittenStays(JobField, JobWrites, w, calls); }
  }

  /** Each time is that of the last accepted call that sets it. */
  lemma TimesAreLast(w: WorkerRecord, calls: seq<Call>, k: nat)
    ensures LastWriter(CompletionWrites, w, calls, k) ==> AfterAll(w, calls).jobCompletedAt == Some(calls[k].now)
    ensures LastWriter(HeartbeatWrites, w, calls, k) ==>
              AfterAll(w, calls).lastHeartbeat == HeartbeatWrites(AfterAll(w, calls[..k]), calls[k]).value
    ensures LastWriter(UpdateWrites, w, calls, k) ==> AfterAll(w, calls).updatedAt == calls[k].now
    ensures NoWriter(CompletionWrites, w, calls) ==> AfterAll(w, calls).jobCompletedAt == w.jobCompletedAt
    ensures NoWriter(HeartbeatWrites, w, calls) ==> AfterAll(w, calls).lastHeartbeat == w.lastHeartbeat
    ensures NoWriter(UpdateWrites, w, calls) ==> AfterAll(w, calls).updatedAt == w.updatedAt
  {
    FieldsTell();
    if LastWriter(CompletionWrites, w, calls, k) { LastWriteStands(CompletionField, CompletionWrites, w, calls, k); }
    if LastWriter(HeartbeatWrites, w, calls, k) { LastWriteStands(HeartbeatField, HeartbeatWrites, w, calls, k); }
    if LastWriter(UpdateWrites, w, calls, k) { LastWriteStands(UpdateField, UpdateWrites, w, calls, k); }
    if NoWriter(CompletionWrites, w, calls) { UnwrittenStays(CompletionField, CompletionWrites, w, calls); }
    if NoWriter(HeartbeatWrites, w, calls) { UnwrittenStays(HeartbeatField, HeartbeatWrites, w, calls); }
    if NoWriter(UpdateWrites, w, calls) { UnwrittenStays(UpdateField, UpdateWrites, w, calls); }
  }
}
