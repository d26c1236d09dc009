/**
 The `Job` aggregate: the object that holds a job's state, moves it under the guard, and counts its
 attempts. `Perform` says what each operation does to the record of its fields; the class does it in
 place; the lemmas say what any sequence of operations keeps.
 */
module JobAggregate {
  import opened Wrappers
  import opened JobStates
  import JobResults

  type Timestamp = int

  datatype ExecutionContext = ExecutionContext(jobId: string, providerId: string, providerExecutionId: string)

  datatype JobError =
    | InvalidStateTransition(jobId: string, from: JobState, target: JobState)
    | MaxAttemptsExceeded(jobId: string, maxAttempts: nat)

  /** The fields the operations read or write. */
  datatype JobRecord = JobRecord(
    id: string,
    state: JobState,
    selectedProvider: Option<string>,
    executionContext: Option<ExecutionContext>,
    attempts: nat,
    maxAttempts: nat,
    startedAt: Option<Timestamp>,
    completedAt: Option<Timestamp>,
    result: Option<JobResults.JobResult>,
    errorMessage: Option<string>,
    allowRetry: bool)

  datatype Operation =
    | Queue
    | SubmitToProvider(provider: string, context: ExecutionContext)
    | AssignToProvider(provider: string, context: ExecutionContext)
    | MarkRunning
    | Complete(result: JobResults.JobResult)
    | Fail(message: string)
    | Cancel
    | TimeOut
    | PrepareRetry
    | SetState(target: JobState)
    | SetAttempts(attempts: nat)

  function NewRecord(id: string, allowRetry: bool): JobRecord {
    JobRecord(id, Pending, None, None, 0, 3, None, None, None, None, allowRetry)
  }

  /** The state a finished execution leads to. */
  function StateOf(result: JobResults.JobResult): JobState {
    match result
    case Success(_, _, _) => Succeeded
    case Failed(_, _, _) => Failed
    case Cancelled => Cancelled
    case Timeout => Timeout
  }

  predicate CanRetry(j: JobRecord) {
    j.attempts < j.maxAttempts && (j.state.Failed? || j.state.Timeout?) && j.allowRetry
  }

  predicate CanBeCancelled(j: JobRecord) {
    j.state.Pending? || j.state.Scheduled? || j.state.Running?
  }

  /** What one operation at time `now` makes of a record, or why it is refused. */
  function Perform(j: JobRecord, op: Operation, now: Timestamp): Result<JobRecord, JobError> {
    match op
    case Queue =>
      if j.state.Pending? then Ok(j) else Err(InvalidStateTransition(j.id, j.state, Pending))
    case SubmitToProvider(provider, context) =>
      if CanTransitionTo(j.state, Scheduled) then
        Ok(j.(state := Scheduled, selectedProvider := Some(provider), executionContext := Some(context),
              startedAt := Some(now)))
      else Err(InvalidStateTransition(j.id, j.state, Scheduled))
    case AssignToProvider(provider, context) =>
      if j.state.Pending? || j.state.Assigned? then
        Ok(j.(state := Assigned, selectedProvider := Some(provider), executionContext := Some(context)))
      else Err(InvalidStateTransition(j.id, j.state, Assigned))
    case MarkRunning =>
      if CanTransitionTo(j.state, Running) then Ok(j.(state := Running, startedAt := Some(now)))
      else Err(InvalidStateTransition(j.id, j.state, Running))
    case Complete(result) =>
      if CanTransitionTo(j.state, StateOf(result)) then
        Ok(j.(state := StateOf(result), completedAt := Some(now), result := Some(result)))
      else Err(InvalidStateTransition(j.id, j.state, StateOf(result)))
    case Fail(message) =>
      if CanTransitionTo(j.state, Failed) then
        Ok(j.(state := Failed, completedAt := Some(now), errorMessage := Some(message), attempts := j.attempts + 1))
      else Err(InvalidStateTransition(j.id, j.state, Failed))
    case Cancel =>
      if CanTransitionTo(j.state, Cancelled) then Ok(j.(state := Cancelled, completedAt := Some(now)))
      else Err(InvalidStateTransition(j.id, j.state, Cancelled))
    case TimeOut =>
      if CanTransitionTo(j.state, Timeout) then
        Ok(j.(state := Timeout, completedAt := Some(now), result := Some(JobResults.Timeout), attempts := j.attempts + 1))
      else Err(InvalidStateTransition(j.id, j.state, Timeout))
    case PrepareRetry =>
      if CanRetry(j) then
        Ok(j.(state := Pending, selectedProvider := None, executionContext := None, startedAt := None,
              completedAt := None, result := None, errorMessage := None, attempts := j.attempts + 1))
      else Err(MaxAttemptsExceeded(j.id, j.maxAttempts))
    case SetState(target) =>
      if CanTransitionTo(j.state, target) then Ok(j.(state := target))
      else Err(InvalidStateTransition(j.id, j.state, target))
    case SetAttempts(n) => Ok(j.(attempts := n))
  }

  /** The record after an operation; a refused one leaves it as it was. */
  function After(j: JobRecord, op: Operation, now: Timestamp): JobRecord {
    match Perform(j, op, now)
    case Ok(k) => k
    case Err(_) => j
  }

  /** The class does to its fields what `Perform` does to the record. */
  class Job {
    const id: string
    const allowRetry: bool
    const maxAttempts: nat
    var state: JobState
    var selectedProvider: Option<string>
    var executionContext: Option<ExecutionContext>
    var attempts: nat
    var startedAt: Option<Timestamp>
    var completedAt: Option<Timestamp>
    var result: Option<JobResults.JobResult>
    var errorMessage: Option<string>

    ghost function View(): JobRecord
      reads this
    {
      JobRecord(id, state, selectedProvider, executionContext, attempts, maxAttempts, startedAt, completedAt,
                result, errorMessage, allowRetry)
    }

    /** How an operation's answer relates the fields before and after it. */
    static ghost predicate Does(before: JobRecord, op: Operation, now: Timestamp, after: JobRecord, r: Result<(), JobError>) {
      match Perform(before, op, now)
      case Ok(k) => after == k && r == Ok(())
      case Err(e) => after == before && r == Err(e)
    }

    constructor (id: string, allowRetry: bool)
      ensures View() == NewRecord(id, allowRetry)
      ensures this.id == id && this.allowRetry == allowRetry && state == Pending && attempts == 0 && maxAttempts == 3
      ensures selectedProvider == None && executionContext == None && startedAt == None
      ensures completedAt == None && result == None && errorMessage == None
    {
      this.id, this.allowRetry, maxAttempts := id, allowRetry, 3;
      state, attempts := Pending, 0;
      selectedProvider, executionContext, startedAt, completedAt, result, errorMessage := None, None, None, None, None, None;
    }

    /** Rebuilds the object from persisted fields, whatever they are. */
    constructor Hydrate(j: JobRecord)
      ensures View() == j
    {
      id, allowRetry, maxAttempts := j.id, j.allowRetry, j.maxAttempts;
      state, attempts := j.state, j.attempts;
      selectedProvider, executionContext := j.selectedProvider, j.executionContext;
      startedAt, completedAt, result, errorMessage := j.startedAt, j.completedAt, j.result, j.errorMessage;
    }

    method Queue() returns (r: Result<(), JobError>)
      ensures Does(View(), Operation.Queue, 0, View(), r)
    {
      if state == Pending { return Ok(()); }
      return Err(InvalidStateTransition(id, state, Pending));
    }

    method SubmitToProvider(provider: string, context: ExecutionContext, now: Timestamp) returns (r: Result<(), JobError>)
      modifies this
      ensures Does(old(View()), Operation.SubmitToProvider(provider, context), now, View(), r)
    {
      var newState := Scheduled;
      if !CanTransitionTo(state, newState) { return Err(InvalidStateTransition(id, state, newState)); }
      state := newState;
      selectedProvider := Some(provider);
      executionContext := Some(context);
      startedAt := Some(now);
      return Ok(());
    }

    method AssignToProvider(provider: string, context: ExecutionContext, now: Timestamp) returns (r: Result<(), JobError>)
      modifies this
      ensures Does(old(View()), Operation.AssignToProvider(provider, context), now, View(), r)
    {
      match state {
        case Pending =>
          state := Assigned;
          selectedProvider := Some(provider);
          executionContext := Some(context);
          return Ok(());
        case Assigned =>
          selectedProvider := Some(provider);
          executionContext := Some(context);
          return Ok(());
        case _ =>
          return Err(InvalidStateTransition(id, state, Assigned));
      }
    }

    method MarkRunning(now: Timestamp) returns (r: Result<(), JobError>)
      modifies this
      ensures Does(old(View()), Operation.MarkRunning, now, View(), r)
    {
      var newState := Running;
      if !CanTransitionTo(state, newState) { return Err(InvalidStateTransition(id, state, newState)); }
      state := newState;
      startedAt := Some(now);
      return Ok(());
    }

    method Complete(outcome: JobResults.JobResult, now: Timestamp) returns (r: Result<(), JobError>)
      modifies this
      ensures Does(old(View()), Operation.Complete(outcome), now, View(), r)
    {
      var newState := match outcome
        case Success(_, _, _) => Succeeded
        case Failed(_, _, _) => JobState.Failed
        case Cancelled => JobState.Cancelled
        case Timeout => JobState.Timeout;
      if !CanTransitionTo(state, newState) { return Err(InvalidStateTransition(id, state, newState)); }
      state := newState;
      completedAt := Some(now);
      result := Some(outcome);
      return Ok(());
    }

    method Fail(message: string, now: Timestamp) returns (r: Result<(), JobError>)
      modifies this
      ensures Does(old(View()), Operation.Fail(message), now, View(), r)
    {
      var newState := JobState.Failed;
      if !CanTransitionTo(state, newState) { return Err(InvalidStateTransition(id, state, newState)); }
      state := newState;
      completedAt := Some(now);
      errorMessage := Some(message);
      attempts := attempts + 1;
      return Ok(());
    }

    method Cancel(now: Timestamp) returns (r: Result<(), JobError>)
      modifies this
      ensures Does(old(View()), Operation.Cancel, now, View(), r)
    {
      var newState := JobState.Cancelled;
      if !CanTransitionTo(state, newState) { return Err(InvalidStateTransition(id, state, newState)); }
      state := newState;
      completedAt := Some(now);
      return Ok(());
    }

    method Timeout(now: Timestamp) returns (r: Result<(), JobError>)
      modifies this
      ensures Does(old(View()), Operation.TimeOut, now, View(), r)
    {
      var newState := JobState.Timeout;
      if !CanTransitionTo(state, newState) { return Err(InvalidStateTransition(id, state, newState)); }
      state := newState;
      completedAt := Some(now);
      result := Some(JobResults.Timeout);
      attempts := attempts + 1;
      return Ok(());
    }

    method PrepareRetry(now: Timestamp) returns (r: Result<(), JobError>)
      modifies this
      ensures Does(old(View()), Operation.PrepareRetry, now, View(), r)
    {
      var canRetry := attempts < maxAttempts && (state == JobState.Failed || state == JobState.Timeout) && allowRetry;
      assert canRetry == CanRetry(View());
      if !canRetry { return Err(MaxAttemptsExceeded(id, maxAttempts)); }
      state := Pending;
      selectedProvider, executionContext := None, None;
      startedAt, completedAt := None, None;
      result, errorMessage := None, None;
      attempts := attempts + 1;
      return Ok(());
    }

    method SetState(target: JobState, now: Timestamp) returns (r: Result<(), JobError>)
      modifies this
      ensures Does(old(View()), Operation.SetState(target), now, View(), r)
    {
      if !CanTransitionTo(state, target) { return Err(InvalidStateTransition(id, state, target)); }
      state := target;
      return Ok(());
    }

    method SetAttempts(n: nat)
      modifies this
      ensures View() == old(View()).(attempts := n)
    {
      attempts := n;
    }
  }

  // ---------- one operation ----------

  predicate RetryEdge(a: JobState, b: JobState) {
    (a.Failed? || a.Timeout?) && b.Pending?
  }

  /**
   Every accepted operation moves the state along the guard, leaves it, or is a retry, which goes
   back from a terminal state against the guard.
   */
  lemma OperationsFollowGuard(j: JobRecord, op: Operation, now: Timestamp)
    requires Perform(j, op, now).Ok?
    ensures var a, b := j.state, Perform(j, op, now).value.state;
            || a == b
            || CanTransitionTo(a, b)
            || (op.PrepareRetry? && RetryEdge(a, b) && IsTerminal(a) && !CanTransitionTo(a, b))
  {
  }

  /** Exactly when each operation is accepted. */
  lemma AcceptedWhen(j: JobRecord, op: Operation, now: Timestamp)
    ensures Perform(j, op, now).Ok? <==>
      match op
      case Queue => j.state.Pending?
      case SubmitToProvider(_, _) => j.state.Pending?
      case AssignToProvider(_, _) => j.state.Pending? || j.state.Assigned?
      case MarkRunning => IsScheduled(j.state)
      case Complete(Success(_, _, _)) => j.state.Running?
      case Complete(Failed(_, _, _)) => !IsTerminal(j.state)
      case Complete(Cancelled) => !IsTerminal(j.state)
      case Complete(Timeout) => !IsTerminal(j.state) && !j.state.ManualInterventionRequired?
      case Fail(_) => !IsTerminal(j.state)
      case Cancel => !IsTerminal(j.state)
      case TimeOut => !IsTerminal(j.state) && !j.state.ManualInterventionRequired?
      case PrepareRetry => (j.state.Failed? || j.state.Timeout?) && j.attempts < j.maxAttempts && j.allowRetry
      case SetState(target) => CanTransitionTo(j.state, target)
      case SetAttempts(_) => true
  {
  }

  /**
   `can_be_cancelled` is not the condition under which `cancel` succeeds: it misses exactly the
   assigned jobs and the jobs parked with an operator.
   */
  lemma CancelPredicateMisses(j: JobRecord, now: Timestamp)
    ensures CanBeCancelled(j) ==> Perform(j, Cancel, now).Ok?
    ensures Perform(j, Cancel, now).Ok? && !CanBeCancelled(j)
       <==> j.state.Assigned? || j.state.ManualInterventionRequired?
  {
  }

  // ---------- sequences of operations ----------

  datatype Call = Call(op: Operation, now: Timestamp)

  function AfterAll(j: JobRecord, calls: seq<Call>): JobRecord {
    if calls == [] then j
    else
      var c := calls[|calls| - 1];
      After(AfterAll(j, calls[..|calls| - 1]), c.op, c.now)
  }

  /** One if the operation is accepted and `p` holds of it and of the records around it, else zero. */
  function Scores(before: JobRecord, c: Call, p: (JobRecord, Operation, JobRecord) -> bool): nat {
    match Perform(before, c.op, c.now)
    case Ok(after) => if p(before, c.op, after) then 1 else 0
    case Err(_) => 0
  }

  /** How many accepted calls satisfy `p`. */
  function Count(j: JobRecord, calls: seq<Call>, p: (JobRecord, Operation, JobRecord) -> bool): nat {
    if calls == [] then 0
    else
      var init := calls[..|calls| - 1];
      Count(j, init, p) + Scores(AfterAll(j, init), calls[|calls| - 1], p)
  }

  predicate Moves(j: JobRecord, op: Operation, k: JobRecord) { j.state != k.state }

  predicate Retries(j: JobRecord, op: Operation, k: JobRecord) { op.PrepareRetry? }

  predicate Strikes(j: JobRecord, op: Operation, k: JobRecord) { op.Fail? || op.TimeOut? }

  predicate EntersManual(j: JobRecord, op: Operation, k: JobRecord) {
    !j.state.ManualInterventionRequired? && k.state.ManualInterventionRequired?
  }

  ghost predicate Never(calls: seq<Call>, p: Operation -> bool) {
    forall i | 0 <= i < |calls| :: !p(calls[i].op)
  }

  predicate OverridesAttempts(op: Operation) { op.SetAttempts? }

  predicate ForcesState(op: Operation) { op.SetState? }

  lemma NeverPrefix(calls: seq<Call>, p: Operation -> bool)
    requires calls != [] && Never(calls, p)
    ensures Never(calls[..|calls| - 1], p) && !p(calls[|calls| - 1].op)
  {
    var init := calls[..|calls| - 1];
    forall i | 0 <= i < |init| ensures !p(init[i].op) { assert init[i] == calls[i]; }
  }

  lemma {:induction false} FixedFields(j: JobRecord, calls: seq<Call>)
    ensures var k := AfterAll(j, calls); k.id == j.id && k.maxAttempts == j.maxAttempts && k.allowRetry == j.allowRetry
  {
    if calls != [] { FixedFields(j, calls[..|calls| - 1]); }
  }

  lemma StepCost(j: JobRecord, c: Call)
    ensures Scores(j, c, Moves) + Rank(After(j, c.op, c.now).state)
         <= Rank(j.state) + 4 * Scores(j, c, EntersManual) + 4 * Scores(j, c, Retries)
  {
  }

  /**
   State changes are paid for by rank: four more steps for every entry into manual intervention and
   four for every retry.
   */
  lemma {:induction false} StepBudget(j: JobRecord, calls: seq<Call>)
    ensures Count(j, calls, Moves) + Rank(AfterAll(j, calls).state)
         <= Rank(j.state) + 4 * Count(j, calls, EntersManual) + 4 * Count(j, calls, Retries)
  {
    if calls != [] {
      var init := calls[..|calls| - 1];
      StepBudget(j, init);
      StepCost(AfterAll(j, init), calls[|calls| - 1]);
    }
  }

  /** The counter counts failures, timeouts and retries together. */
  lemma {:induction false} AttemptsAccount(j: JobRecord, calls: seq<Call>)
    requires Never(calls, OverridesAttempts)
    ensures AfterAll(j, calls).attempts == j.attempts + Count(j, calls, Strikes) + Count(j, calls, Retries)
  {
    if calls != [] {
      NeverPrefix(calls, OverridesAttempts);
      AttemptsAccount(j, calls[..|calls| - 1]);
    }
  }

  /** One while a failure or a timeout stands. */
  function Owed(j: JobRecord): nat {
    if j.state.Failed? || j.state.Timeout? then 1 else 0
  }

  /** The limit that bounds the counter, for a record that may already be past its own. */
  function Limit(j: JobRecord): nat {
    if j.attempts <= j.maxAttempts then j.maxAttempts else j.attempts
  }

  /** Retries stop at the limit; the counter overshoots it by at most the last failure. */
  lemma {:induction false} RetriesBounded(j: JobRecord, calls: seq<Call>)
    requires Never(calls, OverridesAttempts)
    ensures j.attempts + Count(j, calls, Retries) <= Limit(j)
    ensures AfterAll(j, calls).attempts <= Limit(j) + Owed(AfterAll(j, calls))
  {
    AttemptsAccount(j, calls);
    if calls != [] {
      NeverPrefix(calls, OverridesAttempts);
      var init := calls[..|calls| - 1];
      FixedFields(j, init);
      AttemptsAccount(j, init);
      RetriesBounded(j, init);
    }
  }

  /** A new job changes state at most 15 times, plus four times per entry into manual intervention. */
  lemma NewJobStepBound(id: string, allowRetry: bool, calls: seq<Call>)
    requires Never(calls, OverridesAttempts)
    ensures Count(NewRecord(id, allowRetry), calls, Moves)
         <= 15 + 4 * Count(NewRecord(id, allowRetry), calls, EntersManual)
  {
    StepBudget(NewRecord(id, allowRetry), calls);
    RetriesBounded(NewRecord(id, allowRetry), calls);
  }

  // ---------- what a limit of attempts allows ----------

  predicate EndsWithoutStrike(op: Operation) {
    match op
    case Complete(Failed(_, _, _)) => true
    case Complete(Timeout) => true
    case SetState(target) => target.Failed? || target.Timeout?
    case SetAttempts(_) => true
    case _ => false
  }

  lemma StrikeStep(j: JobRecord, c: Call)
    requires !EndsWithoutStrike(c.op)
    ensures var k := After(j, c.op, c.now);
            k.attempts + Owed(j) == j.attempts + 2 * Scores(j, c, Retries) + Owed(k)
    ensures Scores(j, c, Retries) == 1 ==> j.attempts < j.maxAttempts && Owed(j) == 1
  {
  }

  /**
   When every failure is reported through `fail` or `timeout`, failing and retrying both raise the
   counter, so a limit of `m` attempts allows only half as many retries.
   */
  lemma {:induction false} StrikesHalveRetries(j: JobRecord, calls: seq<Call>)
    requires Never(calls, EndsWithoutStrike) && !IsTerminal(j.state)
    ensures var k := AfterAll(j, calls); var r := Count(j, calls, Retries);
            && k.attempts == j.attempts + 2 * r + Owed(k)
            && (r > 0 ==> 2 * r + j.attempts <= j.maxAttempts)
  {
    if calls != [] {
      NeverPrefix(calls, EndsWithoutStrike);
      var init := calls[..|calls| - 1];
      FixedFields(j, init);
      StrikesHalveRetries(j, init);
      StrikeStep(AfterAll(j, init), calls[|calls| - 1]);
    }
  }

  /** With the default limit of three, at most one of the failures so reported is retried, whatever is called. */
  lemma DefaultLimitAllowsOneRetry(id: string, allowRetry: bool, calls: seq<Call>)
    requires Never(calls, EndsWithoutStrike)
    ensures Count(NewRecord(id, allowRetry), calls, Retries) <= 1
  {
    StrikesHalveRetries(NewRecord(id, allowRetry), calls);
  }

  // ---------- the bounds are reached ----------

  lemma {:induction false} AfterAllConcat(j: JobRecord, xs: seq<Call>, ys: seq<Call>)
    ensures AfterAll(j, xs + ys) == AfterAll(AfterAll(j, xs), ys)
  {
    if ys == [] {
      assert xs + ys == xs;
    } else {
      assert (xs + ys)[..|xs + ys| - 1] == xs + ys[..|ys| - 1];
      AfterAllConcat(j, xs, ys[..|ys| - 1]);
    }
  }

  lemma {:induction false} CountConcat(
    j: JobRecord, xs: seq<Call>, ys: seq<Call>, p: (JobRecord, Operation, JobRecord) -> bool)
    ensures Count(j, xs + ys, p) == Count(j, xs, p) + Count(AfterAll(j, xs), ys, p)
  {
    if ys == [] {
      assert xs + ys == xs;
    } else {
      var init := ys[..|ys| - 1];
      assert (xs + ys)[..|xs + ys| - 1] == xs + init;
      CountConcat(j, xs, init, p);
      AfterAllConcat(j, xs, init);
    }
  }

  /** How many calls of each kind a list of calls makes of a job, and the job it leaves. */
  datatype Tally = Tally(moves: nat, retries: nat, manual: nat, after: JobRecord)

  function TallyOf(j: JobRecord, calls: seq<Call>): Tally {
    Tally(Count(j, calls, Moves), Count(j, calls, Retries), Count(j, calls, EntersManual), AfterAll(j, calls))
  }

  lemma TallyConcat(j: JobRecord, xs: seq<Call>, ys: seq<Call>)
    ensures var a, b := TallyOf(j, xs), TallyOf(AfterAll(j, xs), ys);
            TallyOf(j, xs + ys) == Tally(a.moves + b.moves, a.retries + b.retries, a.manual + b.manual, b.after)
  {
    AfterAllConcat(j, xs, ys);
    CountConcat(j, xs, ys, Moves);
    CountConcat(j, xs, ys, Retries);
    CountConcat(j, xs, ys, EntersManual);
  }

  lemma CountOfOne(j: JobRecord, c: Call, p: (JobRecord, Operation, JobRecord) -> bool)
    ensures Count(j, [c], p) == Scores(j, c, p)
    ensures AfterAll(j, [c]) == After(j, c.op, c.now)
  {
    assert [c][..0] == [];
  }

  lemma TallyOfOne(j: JobRecord, c: Call)
    ensures TallyOf(j, [c]) ==
            Tally(Scores(j, c, Moves), Scores(j, c, Retries), Scores(j, c, EntersManual), After(j, c.op, c.now))
  {
    CountOfOne(j, c, Moves);
    CountOfOne(j, c, Retries);
    CountOfOne(j, c, EntersManual);
  }

  /** An attempt that is assigned and runs. */
  function Attempt(provider: string, context: ExecutionContext): seq<Call> {
    [Call(AssignToProvider(provider, context), 0)] + [Call(MarkRunning, 0)]
  }

  lemma TallyOfAttempt(j: JobRecord, provider: string, context: ExecutionContext)
    requires j.state.Pending?
    ensures var t := TallyOf(j, Attempt(provider, context));
            && t.moves == 2 && t.retries == t.manual == 0
            && t.after == After(After(j, AssignToProvider(provider, context), 0), MarkRunning, 0)
            && t.after.state.Running? && t.after.attempts == j.attempts
            && t.after.maxAttempts == j.maxAttempts && t.after.allowRetry == j.allowRetry
  {
    var assign, run := Call(AssignToProvider(provider, context), 0), Call(MarkRunning, 0);
    TallyOfOne(j, assign);
    TallyOfOne(After(j, assign.op, 0), run);
    TallyConcat(j, [assign], [run]);
  }

  /** An attempt and the two calls that bring the job back to `Pending`. */
  function Round(provider: string, context: ExecutionContext, ending: Operation, back: Operation): seq<Call> {
    Attempt(provider, context) + ([Call(ending, 0)] + [Call(back, 0)])
  }

  lemma TallyOfTwo(j: JobRecord, a: Call, b: Call)
    ensures var k := After(j, a.op, a.now);
            TallyOf(j, [a] + [b]) ==
            Tally(Scores(j, a, Moves) + Scores(k, b, Moves), Scores(j, a, Retries) + Scores(k, b, Retries),
                  Scores(j, a, EntersManual) + Scores(k, b, EntersManual), After(k, b.op, b.now))
  {
    TallyOfOne(j, a);
    TallyOfOne(After(j, a.op, a.now), b);
    TallyConcat(j, [a], [b]);
  }

  lemma TallyOfRetryRound(j: JobRecord, provider: string, context: ExecutionContext, failure: JobResults.JobResult)
    requires j.state.Pending? && j.allowRetry && failure.Failed? && j.attempts < j.maxAttempts
    ensures var t := TallyOf(j, Round(provider, context, Complete(failure), PrepareRetry));
            && t.moves == 4 && t.retries == 1 && t.manual == 0
            && t.after.state.Pending? && t.after.attempts == j.attempts + 1
            && t.after.maxAttempts == j.maxAttempts && t.after.allowRetry == j.allowRetry
  {
    TallyOfAttempt(j, provider, context);
    var k := TallyOf(j, Attempt(provider, context)).after;
    var fail, retry := Call(Complete(failure), 0), Call(PrepareRetry, 0);
    TallyOfTwo(k, fail, retry);
    TallyConcat(j, Attempt(provider, context), [fail] + [retry]);
  }

  lemma TallyOfOperatorRound(j: JobRecord, provider: string, context: ExecutionContext)
    requires j.state.Pending?
    ensures var t := TallyOf(j, Round(provider, context, SetState(ManualInterventionRequired), SetState(Pending)));
            && t.moves == 4 && t.retries == 0 && t.manual == 1
            && t.after.state.Pending? && t.after.attempts == j.attempts
  {
    TallyOfAttempt(j, provider, context);
    var k := TallyOf(j, Attempt(provider, context)).after;
    var call, back := Call(SetState(ManualInterventionRequired), 0), Call(SetState(Pending), 0);
    TallyOfTwo(k, call, back);
    TallyConcat(j, Attempt(provider, context), [call] + [back]);
  }

  /** `n` such rounds. */
  function Rounds(n: nat, provider: string, context: ExecutionContext, ending: Operation, back: Operation): seq<Call> {
    if n == 0 then [] else Rounds(n - 1, provider, context, ending, back) + Round(provider, context, ending, back)
  }

  /**
   Failures reported through `complete` do not raise the counter: then every attempt up to the limit
   is retried, and every round makes four state changes.
   */
  lemma {:induction false} RoundsReachBounds(
    j: JobRecord, n: nat, provider: string, context: ExecutionContext, failure: JobResults.JobResult)
    requires j.state.Pending? && j.allowRetry && failure.Failed? && j.attempts + n <= j.maxAttempts
    ensures var t := TallyOf(j, Rounds(n, provider, context, Complete(failure), PrepareRetry));
            && t.retries == n && t.moves == 4 * n && t.manual == 0
            && t.after.state.Pending? && t.after.attempts == j.attempts + n
            && t.after.maxAttempts == j.maxAttempts && t.after.allowRetry == j.allowRetry
  {
    if n > 0 {
      var rounds := Rounds(n - 1, provider, context, Complete(failure), PrepareRetry);
      RoundsReachBounds(j, n - 1, provider, context, failure);
      TallyOfRetryRound(AfterAll(j, rounds), provider, context, failure);
      TallyConcat(j, rounds, Round(provider, context, Complete(failure), PrepareRetry));
    }
  }

  lemma {:induction false} OperatorRounds(j: JobRecord, k: nat, provider: string, context: ExecutionContext)
    requires j.state.Pending?
    ensures var t := TallyOf(j, Rounds(k, provider, context, SetState(ManualInterventionRequired), SetState(Pending)));
            t.retries == 0 && t.moves == 4 * k && t.manual == k && t.after.state.Pending?
  {
    if k > 0 {
      var call, back := SetState(ManualInterventionRequired), SetState(Pending);
      var rounds := Rounds(k - 1, provider, context, call, back);
      var round := Round(provider, context, call, back);
      assert Rounds(k, provider, context, call, back) == rounds + round;
      OperatorRounds(j, k - 1, provider, context);
      TallyOfOperatorRound(TallyOf(j, rounds).after, provider, context);
      TallyConcat(j, rounds, round);
    }
  }

  lemma TallyOfSuccess(j: JobRecord, provider: string, context: ExecutionContext, success: JobResults.JobResult)
    requires j.state.Pending? && success.Success?
    ensures var t := TallyOf(j, Attempt(provider, context) + [Call(Complete(success), 0)]);
            t.moves == 3 && t.retries == t.manual == 0 && t.after.state.Succeeded?
  {
    TallyOfAttempt(j, provider, context);
    TallyOfOne(TallyOf(j, Attempt(provider, context)).after, Call(Complete(success), 0));
    TallyConcat(j, Attempt(provider, context), [Call(Complete(success), 0)]);
  }

  /** Three retried attempts, `k` rounds through an operator, and a success. */
  function LongestLife(
    k: nat, provider: string, context: ExecutionContext, failure: JobResults.JobResult, success: JobResults.JobResult): seq<Call>
  {
    Rounds(3, provider, context, Complete(failure), PrepareRetry)
    + (Rounds(k, provider, context, SetState(ManualInterventionRequired), SetState(Pending))
       + (Attempt(provider, context) + [Call(Complete(success), 0)]))
  }

  /** The bound of NewJobStepBound is reached for every number of manual interventions. */
  lemma LongestLifeReachesBound(
    id: string, k: nat, provider: string, context: ExecutionContext,
    failure: JobResults.JobResult, success: JobResults.JobResult)
    requires failure.Failed? && success.Success?
    ensures var t := TallyOf(NewRecord(id, true), LongestLife(k, provider, context, failure, success));
            t.moves == 15 + 4 * k && t.manual == k && t.after.state.Succeeded?
    ensures Never(LongestLife(k, provider, context, failure, success), OverridesAttempts)
  {
    var j := NewRecord(id, true);
    var retried := Rounds(3, provider, context, Complete(failure), PrepareRetry);
    var parked := Rounds(k, provider, context, SetState(ManualInterventionRequired), SetState(Pending));
    var last := Attempt(provider, context) + [Call(Complete(success), 0)];
    RoundsReachBounds(j, 3, provider, context, failure);
    OperatorRounds(AfterAll(j, retried), k, provider, context);
    TallyOfSuccess(AfterAll(AfterAll(j, retried), parked), provider, context, success);
    TallyConcat(AfterAll(j, retried), parked, last);
    TallyConcat(j, retried, parked + last);
    RoundsNeverOverride(3, provider, context, Complete(failure), PrepareRetry);
    RoundsNeverOverride(k, provider, context, SetState(ManualInterventionRequired), SetState(Pending));
  }

  lemma {:induction false} RoundsNeverOverride(
    n: nat, provider: string, context: ExecutionContext, ending: Operation, back: Operation)
    requires !OverridesAttempts(ending) && !OverridesAttempts(back)
    ensures Never(Rounds(n, provider, context, ending, back), OverridesAttempts)
  {
    if n > 0 { RoundsNeverOverride(n - 1, provider, context, ending, back); }
  }

  /** `n` failures reported through `fail`, each of them retried. */
  function StrikeRounds(n: nat, message: string): seq<Call> {
    if n == 0 then [] else StrikeRounds(n - 1, message) + ([Call(Fail(message), 0)] + [Call(PrepareRetry, 0)])
  }

  /** The bound of StrikesHalveRetries is reached: half of what the limit leaves can be retried. */
  lemma {:induction false} StrikeRoundsReachBound(j: JobRecord, n: nat, message: string)
    requires j.state.Pending? && j.allowRetry && j.attempts + 2 * n <= j.maxAttempts
    ensures var t := TallyOf(j, StrikeRounds(n, message));
            && t.retries == n && t.after.state.Pending? && t.after.attempts == j.attempts + 2 * n
            && t.after.maxAttempts == j.maxAttempts && t.after.allowRetry == j.allowRetry
  {
    if n > 0 {
      var rounds := StrikeRounds(n - 1, message);
      StrikeRoundsReachBound(j, n - 1, message);
      TallyOfTwo(AfterAll(j, rounds), Call(Fail(message), 0), Call(PrepareRetry, 0));
      TallyConcat(j, rounds, [Call(Fail(message), 0)] + [Call(PrepareRetry, 0)]);
    }
  }

  // ---------- the fields agree with the state ----------

  /** What the other fields say about a job whose state was never forced. */
  predicate Consistent(j: JobRecord) {
    match j.state
    case Pending =>
      j.selectedProvider.None? && j.executionContext.None? && j.startedAt.None? && Unfinished(j)
    case Assigned =>
      j.selectedProvider.Some? && j.executionContext.Some? && j.startedAt.None? && Unfinished(j)
    case Scheduled => Dispatched(j) && Unfinished(j)
    case Running => Dispatched(j) && Unfinished(j)
    case Succeeded =>
      Dispatched(j) && j.completedAt.Some? && j.errorMessage.None? && j.result.Some? && j.result.value.Success?
    case Failed =>
      j.completedAt.Some? && (j.errorMessage.None? <==> j.result.Some?) && (j.result.Some? ==> j.result.value.Failed?)
    case Cancelled =>
      j.completedAt.Some? && j.errorMessage.None? && (j.result.Some? ==> j.result.value.Cancelled?)
    case Timeout =>
      j.completedAt.Some? && j.errorMessage.None? && j.result == Some(JobResults.Timeout)
    case ManualInterventionRequired => false
  }

  predicate Unfinished(j: JobRecord) {
    j.completedAt.None? && j.result.None? && j.errorMessage.None?
  }

  predicate Dispatched(j: JobRecord) {
    j.selectedProvider.Some? && j.executionContext.Some? && j.startedAt.Some?
  }

  lemma OperationKeepsConsistent(j: JobRecord, op: Operation, now: Timestamp)
    requires Consistent(j) && !ForcesState(op)
    ensures Consistent(After(j, op, now))
  {
    match op
    case Queue =>
    case SubmitToProvider(_, _) =>
    case AssignToProvider(_, _) =>
    case MarkRunning =>
    case Complete(result) =>
    case Fail(_) =>
    case Cancel =>
    case TimeOut =>
    case PrepareRetry =>
    case SetAttempts(_) =>
  }

  /** The named operations keep the fields in step with the state, through every retry. */
  lemma {:induction false} StaysConsistent(j: JobRecord, calls: seq<Call>)
    requires Consistent(j) && Never(calls, ForcesState)
    ensures Consistent(AfterAll(j, calls))
  {
    if calls != [] {
      NeverPrefix(calls, ForcesState);
      var init := calls[..|calls| - 1];
      StaysConsistent(j, init);
      OperationKeepsConsistent(AfterAll(j, init), calls[|calls| - 1].op, calls[|calls| - 1].now);
    }
  }

  /** So from its creation on, a job whose state is never forced is consistent. */
  lemma NewJobStaysConsistent(id: string, allowRetry: bool, calls: seq<Call>)
    requires Never(calls, ForcesState)
    ensures Consistent(AfterAll(NewRecord(id, allowRetry), calls))
  {
    StaysConsistent(NewRecord(id, allowRetry), calls);
  }

  /**
   Forcing the state leaves the other fields behind: a consistent job stays consistent exactly when
   the request is refused or moves a scheduled job to running.
   */
  lemma ForcingBreaksConsistency(j: JobRecord, target: JobState, now: Timestamp)
    requires Consistent(j)
    ensures Consistent(After(j, SetState(target), now))
       <==> !CanTransitionTo(j.state, target) || (j.state.Scheduled? && target.Running?)
  {
  }
}
