/**
 Which call set each field of a job last. The tables say what a call writes into a field when it is
 accepted; a field holds what the last accepted call wrote that writes it, and else what it held at the
 start.
 */
module JobFields {
  import opened Wrappers
  import opened JobStates
  import opened JobAggregate
  import JobResults

  // ---------- what each call writes ----------

  /** The state a call asks for. */
  function StateWrites(c: Call): Write<JobState> {
    match c.op
    case Queue => Untouched
    case SubmitToProvider(_, _) => Sets(Scheduled)
    case AssignToProvider(_, _) => Sets(Assigned)
    case MarkRunning => Sets(Running)
    case Complete(Success(_, _, _)) => Sets(Succeeded)
    case Complete(Failed(_, _, _)) => Sets(JobState.Failed)
    case Complete(Cancelled) => Sets(JobState.Cancelled)
    case Complete(Timeout) => Sets(JobState.Timeout)
    case Fail(_) => Sets(JobState.Failed)
    case Cancel => Sets(JobState.Cancelled)
    case TimeOut => Sets(JobState.Timeout)
    case PrepareRetry => Sets(Pending)
    case SetState(target) => Sets(target)
    case SetAttempts(_) => Untouched
  }

  function ProviderWrites(c: Call): Write<Option<string>> {
    match c.op
    case AssignToProvider(provider, _) => Sets(Some(provider))
    case SubmitToProvider(provider, _) => Sets(Some(provider))
    case PrepareRetry => Sets(None)
    case _ => Untouched
  }

  function ContextWrites(c: Call): Write<Option<ExecutionContext>> {
    match c.op
    case AssignToProvider(_, context) => Sets(Some(context))
    case SubmitToProvider(_, context) => Sets(Some(context))
    case PrepareRetry => Sets(None)
    case _ => Untouched
  }

  function StartWrites(c: Call): Write<Option<Timestamp>> {
    match c.op
    case SubmitToProvider(_, _) => Sets(Some(c.now))
    case MarkRunning => Sets(Some(c.now))
    case PrepareRetry => Sets(None)
    case _ => Untouched
  }

  function CompletionWrites(c: Call): Write<Option<Timestamp>> {
    match c.op
    case Complete(_) => Sets(Some(c.now))
    case Fail(_) => Sets(Some(c.now))
    case Cancel => Sets(Some(c.now))
    case TimeOut => Sets(Some(c.now))
    case PrepareRetry => Sets(None)
    case _ => Untouched
  }

  function ResultWrites(c: Call): Write<Option<JobResults.JobResult>> {
    match c.op
    case Complete(result) => Sets(Some(result))
    case TimeOut => Sets(Some(JobResults.Timeout))
    case PrepareRetry => Sets(None)
    case _ => Untouched
  }

  function MessageWrites(c: Call): Write<Option<string>> {
    match c.op
    case Fail(message) => Sets(Some(message))
    case PrepareRetry => Sets(None)
    case _ => Untouched
  }

  // ---------- the last write stands ----------

  predicate Accepted(j: JobRecord, calls: seq<Call>, k: nat)
    requires k < |calls|
  {
    Perform(AfterAll(j, calls[..k]), calls[k].op, calls[k].now).Ok?
  }

  /** Every accepted call leaves in the field what the table says. */
  ghost predicate Tells<T>(field: JobRecord -> T, writes: Call -> Write<T>) {
    forall j: JobRecord, c: Call | Perform(j, c.op, c.now).Ok? ::
      field(Perform(j, c.op, c.now).value) == Written(writes(c), field(j))
  }

  /** Call `k` is the last accepted one that writes the field. */
  ghost predicate LastWriter<T>(writes: Call -> Write<T>, j: JobRecord, calls: seq<Call>, k: nat) {
    && k < |calls| && Accepted(j, calls, k) && writes(calls[k]).Sets?
    && forall i | k < i < |calls| && Accepted(j, calls, i) :: writes(calls[i]).Untouched?
  }

  ghost predicate NoWriter<T>(writes: Call -> Write<T>, j: JobRecord, calls: seq<Call>) {
    forall i | 0 <= i < |calls| && Accepted(j, calls, i) :: writes(calls[i]).Untouched?
  }

  /** One more call: an accepted one writes what its table says, a refused one nothing. */
  lemma OneMoreTells<T>(field: JobRecord -> T, writes: Call -> Write<T>, j: JobRecord, calls: seq<Call>, n: nat)
    requires Tells(field, writes) && n < |calls|
    ensures field(AfterAll(j, calls[..n + 1])) ==
            Written(if Accepted(j, calls, n) then writes(calls[n]) else Untouched, field(AfterAll(j, calls[..n])))
  {
    assert calls[..n + 1][..n] == calls[..n];
  }

  lemma {:induction false} StandsUpTo<T>(
    field: JobRecord -> T, writes: Call -> Write<T>, j: JobRecord, calls: seq<Call>, k: nat, n: nat)
    requires Tells(field, writes) && LastWriter(writes, j, calls, k) && k < n <= |calls|
    ensures field(AfterAll(j, calls[..n])) == writes(calls[k]).value
  {
    OneMoreTells(field, writes, j, calls, n - 1);
    if k < n - 1 { StandsUpTo(field, writes, j, calls, k, n - 1); }
  }

  lemma LastWriteStands<T>(field: JobRecord -> T, writes: Call -> Write<T>, j: JobRecord, calls: seq<Call>, k: nat)
    requires Tells(field, writes) && LastWriter(writes, j, calls, k)
    ensures field(AfterAll(j, calls)) == writes(calls[k]).value
  {
    StandsUpTo(field, writes, j, calls, k, |calls|);
    assert calls[..|calls|] == calls;
  }

  lemma {:induction false} StaysUpTo<T>(
    field: JobRecord -> T, writes: Call -> Write<T>, j: JobRecord, calls: seq<Call>, n: nat)
    requires Tells(field, writes) && NoWriter(writes, j, calls) && n <= |calls|
    ensures field(AfterAll(j, calls[..n])) == field(j)
  {
    if n > 0 {
      OneMoreTells(field, writes, j, calls, n - 1);
      StaysUpTo(field, writes, j, calls, n - 1);
    }
  }

  lemma UnwrittenStays<T>(field: JobRecord -> T, writes: Call -> Write<T>, j: JobRecord, calls: seq<Call>)
    requires Tells(field, writes) && NoWriter(writes, j, calls)
    ensures field(AfterAll(j, calls)) == field(j)
  {
    StaysUpTo(field, writes, j, calls, |calls|);
    assert calls[..|calls|] == calls;
  }

  // ---------- the fields ----------

  const StateField := (j: JobRecord) => j.state
  const ProviderField := (j: JobRecord) => j.selectedProvider
  const ContextField := (j: JobRecord) => j.executionContext
  const StartField := (j: JobRecord) => j.startedAt
  const CompletionField := (j: JobRecord) => j.completedAt
  const ResultField := (j: JobRecord) => j.result
  const MessageField := (j: JobRecord) => j.errorMessage

  lemma StateTells()
    ensures Tells(StateField, StateWrites)
  {
  }

  lemma ProviderTells()
    ensures Tells(ProviderField, ProviderWrites) && Tells(ContextField, ContextWrites)
  {
  }

  lemma TimesTell()
    ensures Tells(StartField, StartWrites) && Tells(CompletionField, CompletionWrites)
  {
  }

  lemma OutcomeTells()
    ensures Tells(ResultField, ResultWrites) && Tells(MessageField, MessageWrites)
  {
  }

  /** The state is the one asked for by the last accepted call that asks for one. */
  lemma StateIsLast(j: JobRecord, calls: seq<Call>, k: nat)
    ensures LastWriter(StateWrites, j, calls, k) ==> AfterAll(j, calls).state == StateWrites(calls[k]).value
    ensures NoWriter(StateWrites, j, calls) ==> AfterAll(j, calls).state == j.state
  {
    StateTells();
    if LastWriter(StateWrites, j, calls, k) { LastWriteStands(StateField, StateWrites, j, calls, k); }
    if NoWriter(StateWrites, j, calls) { UnwrittenStays(StateField, StateWrites, j, calls); }
  }

  /** Provider and context are those of the last accepted assign or submit since the last accepted retry. */
  lemma ProviderIsLast(j: JobRecord, calls: seq<Call>, k: nat)
    ensures LastWriter(ProviderWrites, j, calls, k) ==> AfterAll(j, calls).selectedProvider == ProviderWrites(calls[k]).value
    ensures LastWriter(ContextWrites, j, calls, k) ==> AfterAll(j, calls).executionContext == ContextWrites(calls[k]).value
    ensures NoWriter(ProviderWrites, j, calls) ==> AfterAll(j, calls).selectedProvider == j.selectedProvider
    ensures NoWriter(ContextWrites, j, calls) ==> AfterAll(j, calls).executionContext == j.executionContext
  {
    ProviderTells();
    if LastWriter(ProviderWrites, j, calls, k) { LastWriteStands(ProviderField, ProviderWrites, j, calls, k); }
    if LastWriter(ContextWrites, j, calls, k) { LastWriteStands(ContextField, ContextWrites, j, calls, k); }
    if NoWriter(ProviderWrites, j, calls) { UnwrittenStays(ProviderField, ProviderWrites, j, calls); }
    if NoWriter(ContextWrites, j, calls) { UnwrittenStays(ContextField, ContextWrites, j, calls); }
  }

  /** The start is the time of the last accepted submit or start, the completion that of the last end, since the last retry. */
  lemma TimesAreLast(j: JobRecord, calls: seq<Call>, k: nat)
    ensures LastWriter(StartWrites, j, calls, k) ==> AfterAll(j, calls).startedAt == StartWrites(calls[k]).value
    ensures LastWriter(CompletionWrites, j, calls, k) ==> AfterAll(j, calls).completedAt == CompletionWrites(calls[k]).value
    ensures NoWriter(StartWrites, j, calls) ==> AfterAll(j, calls).startedAt == j.startedAt
    ensures NoWriter(CompletionWrites, j, calls) ==> AfterAll(j, calls).completedAt == j.completedAt
  {
    TimesTell();
    if LastWriter(StartWrites, j, calls, k) { LastWriteStands(StartField, StartWrites, j, calls, k); }
    if LastWriter(CompletionWrites, j, calls, k) { LastWriteStands(CompletionField, CompletionWrites, j, calls, k); }
    if NoWriter(StartWrites, j, calls) { UnwrittenStays(StartField, StartWrites, j, calls); }
    if NoWriter(CompletionWrites, j, calls) { UnwrittenStays(CompletionField, CompletionWrites, j, calls); }
  }

  /** The result is that of the last accepted completion or timeout, the message that of the last failure, since the last retry. */
  lemma OutcomeIsLast(j: JobRecord, calls: seq<Call>, k: nat)
    ensures LastWriter(ResultWrites, j, calls, k) ==> AfterAll(j, calls).result == ResultWrites(calls[k]).value
    ensures LastWriter(MessageWrites, j, calls, k) ==> AfterAll(j, calls).errorMessage == MessageWrites(calls[k]).value
    ensures NoWriter(ResultWrites, j, calls) ==> AfterAll(j, calls).result == j.result
    ensures NoWriter(MessageWrites, j, calls) ==> AfterAll(j, calls).errorMessage == j.errorMessage
  {
    OutcomeTells();
    if LastWriter(ResultWrites, j, calls, k) { LastWriteStands(ResultField, ResultWrites, j, calls, k); }
    if LastWriter(MessageWrites, j, calls, k) { LastWriteStands(MessageField, MessageWrites, j, calls, k); }
    if NoWriter(ResultWrites, j, calls) { UnwrittenStays(ResultField, ResultWrites, j, calls); }
    if NoWriter(MessageWrites, j, calls) { UnwrittenStays(MessageField, MessageWrites, j, calls); }
  }

  /** After `set_attempts` the counter is what was set, plus the failures, timeouts and retries since. */
  lemma AttemptsSinceSet(j: JobRecord, calls: seq<Call>, n: nat, now: Timestamp, later: seq<Call>)
    requires Never(later, OverridesAttempts)
    ensures var changed := AfterAll(j, calls + [Call(SetAttempts(n), now)]);
            AfterAll(j, calls + [Call(SetAttempts(n), now)] + later).attempts
            == n + Count(changed, later, Strikes) + Count(changed, later, Retries)
  {
    var first := calls + [Call(SetAttempts(n), now)];
    assert first[..|first| - 1] == calls;
    AfterAllConcat(j, first, later);
    AttemptsAccount(AfterAll(j, first), later);
  }

  /** A refused call names the job, its state and the state asked for; a refused retry names the limit. */
  lemma RefusalsSay(j: JobRecord, c: Call)
    requires Perform(j, c.op, c.now).Err?
    ensures Perform(j, c.op, c.now).error ==
            if c.op.PrepareRetry? then MaxAttemptsExceeded(j.id, j.maxAttempts)
            else InvalidStateTransition(j.id, j.state, if c.op.Queue? then Pending else StateWrites(c).value)
  {
  }
}
