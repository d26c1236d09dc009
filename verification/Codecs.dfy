/** The stored texts and codes of the four state enumerations. */
module Codecs {
  import opened Wrappers
  import opened Texts
  import opened JobStates
  import W = WorkerStates

  datatype ProviderStatus = Active | Maintenance | Disabled | Overloaded | Unhealthy | Degraded

  datatype ExecutionStatus =
    | Submitted
    | Queued
    | ExecutionRunning
    | ExecutionSucceeded
    | ExecutionFailed
    | ExecutionCancelled
    | TimedOut

  // ---------- job states ----------

  function ShowJobState(s: JobState): string {
    match s
    case Pending => "PENDING"
    case Assigned => "ASSIGNED"
    case Scheduled => "SCHEDULED"
    case Running => "RUNNING"
    case Succeeded => "SUCCEEDED"
    case Failed => "FAILED"
    case Cancelled => "CANCELLED"
    case Timeout => "TIMEOUT"
    case ManualInterventionRequired => "MANUAL_INTERVENTION_REQUIRED"
  }

  function ReadJobState(s: string): Result<JobState, string> {
    if s == "PENDING" then Ok(Pending)
    else if s == "ASSIGNED" then Ok(Assigned)
    else if s == "SCHEDULED" then Ok(Scheduled)
    else if s == "RUNNING" then Ok(Running)
    else if s == "SUCCEEDED" then Ok(Succeeded)
    else if s == "FAILED" then Ok(Failed)
    else if s == "CANCELLED" then Ok(Cancelled)
    else if s == "TIMEOUT" then Ok(Timeout)
    else if s == "MANUAL_INTERVENTION_REQUIRED" then Ok(ManualInterventionRequired)
    else Err("Invalid JobState: " + s)
  }

  function JobStateCode(s: JobState): int {
    match s
    case Pending => 0
    case Assigned => 1
    case Scheduled => 2
    case Running => 3
    case Succeeded => 4
    case Failed => 5
    case Cancelled => 6
    case Timeout => 7
    case ManualInterventionRequired => 8
  }

  function JobStateFromCode(v: int): Result<JobState, string> {
    match v
    case 0 => Ok(Pending)
    case 1 => Ok(Assigned)
    case 2 => Ok(Scheduled)
    case 3 => Ok(Running)
    case 4 => Ok(Succeeded)
    case 5 => Ok(Failed)
    case 6 => Ok(Cancelled)
    case 7 => Ok(Timeout)
    case 8 => Ok(ManualInterventionRequired)
    case _ => Err("Invalid JobState value: " + ShowInt(v))
  }

  /** A text is read as a state exactly when it is that state's text. */
  lemma JobStateText(s: string, x: JobState)
    ensures ReadJobState(s) == Ok(x) <==> s == ShowJobState(x)
    ensures ReadJobState(s).Err? ==> ReadJobState(s).error == "Invalid JobState: " + s
  {
  }

  lemma JobStateNumber(v: int, x: JobState)
    ensures JobStateFromCode(v) == Ok(x) <==> v == JobStateCode(x)
    ensures JobStateFromCode(v).Err? ==> JobStateFromCode(v).error == "Invalid JobState value: " + ShowInt(v)
  {
  }

  /** The texts in the order of the codes. */
  const JobStateTexts: seq<string> :=
    ["PENDING", "ASSIGNED", "SCHEDULED", "RUNNING", "SUCCEEDED", "FAILED", "CANCELLED", "TIMEOUT", "MANUAL_INTERVENTION_REQUIRED"]

  lemma JobStateTextsInOrder(x: JobState)
    ensures 0 <= JobStateCode(x) < |JobStateTexts| && ShowJobState(x) == JobStateTexts[JobStateCode(x)]
  {
  }

  // ---------- worker states ----------

  function ShowWorkerState(s: W.WorkerState): string {
    match s
    case Creating => "CREATING"
    case Ready => "READY"
    case Busy => "BUSY"
    case Terminated => "TERMINATED"
  }

  function ReadWorkerState(s: string): Result<W.WorkerState, string> {
    if s == "CREATING" then Ok(W.Creating)
    else if s == "READY" then Ok(W.Ready)
    else if s == "BUSY" then Ok(W.Busy)
    else if s == "TERMINATED" then Ok(W.Terminated)
    else Err("Invalid WorkerState: " + s)
  }

  function WorkerStateFromCode(v: int): Result<W.WorkerState, string> {
    match v
    case 0 => Ok(W.Creating)
    case 1 => Ok(W.Ready)
    case 2 => Ok(W.Busy)
    case 3 => Ok(W.Terminated)
    case _ => Err("Invalid WorkerState value: " + ShowInt(v))
  }

  lemma WorkerStateText(s: string, x: W.WorkerState)
    ensures ReadWorkerState(s) == Ok(x) <==> s == ShowWorkerState(x)
    ensures ReadWorkerState(s).Err? ==> ReadWorkerState(s).error == "Invalid WorkerState: " + s
  {
  }

  lemma WorkerStateNumber(v: int, x: W.WorkerState)
    ensures WorkerStateFromCode(v) == Ok(x) <==> v == W.CodeOf(x)
    ensures WorkerStateFromCode(v).Err? ==> WorkerStateFromCode(v).error == "Invalid WorkerState value: " + ShowInt(v)
  {
  }

  /** The texts in the order of the codes. */
  const WorkerStateTexts: seq<string> :=
    ["CREATING", "READY", "BUSY", "TERMINATED"]

  lemma WorkerStateTextsInOrder(x: W.WorkerState)
    ensures 0 <= W.CodeOf(x) < |WorkerStateTexts| && ShowWorkerState(x) == WorkerStateTexts[W.CodeOf(x)]
  {
  }

  // ---------- provider status ----------

  function ShowProviderStatus(s: ProviderStatus): string {
    match s
    case Active => "ACTIVE"
    case Maintenance => "MAINTENANCE"
    case Disabled => "DISABLED"
    case Overloaded => "OVERLOADED"
    case Unhealthy => "UNHEALTHY"
    case Degraded => "DEGRADED"
  }

  function ReadProviderStatus(s: string): Result<ProviderStatus, string> {
    if s == "ACTIVE" then Ok(Active)
    else if s == "MAINTENANCE" then Ok(Maintenance)
    else if s == "DISABLED" then Ok(Disabled)
    else if s == "OVERLOADED" then Ok(Overloaded)
    else if s == "UNHEALTHY" then Ok(Unhealthy)
    else if s == "DEGRADED" then Ok(Degraded)
    else Err("Invalid ProviderStatus: " + s)
  }

  function ProviderStatusCode(s: ProviderStatus): int {
    match s
    case Active => 0
    case Maintenance => 1
    case Disabled => 2
    case Overloaded => 3
    case Unhealthy => 4
    case Degraded => 5
  }

  function ProviderStatusFromCode(v: int): Result<ProviderStatus, string> {
    match v
    case 0 => Ok(Active)
    case 1 => Ok(Maintenance)
    case 2 => Ok(Disabled)
    case 3 => Ok(Overloaded)
    case 4 => Ok(Unhealthy)
    case 5 => Ok(Degraded)
    case _ => Err("Invalid ProviderStatus value: " + ShowInt(v))
  }

  lemma ProviderStatusText(s: string, x: ProviderStatus)
    ensures ReadProviderStatus(s) == Ok(x) <==> s == ShowProviderStatus(x)
    ensures ReadProviderStatus(s).Err? ==> ReadProviderStatus(s).error == "Invalid ProviderStatus: " + s
  {
  }

  lemma ProviderStatusNumber(v: int, x: ProviderStatus)
    ensures ProviderStatusFromCode(v) == Ok(x) <==> v == ProviderStatusCode(x)
    ensures ProviderStatusFromCode(v).Err? ==> ProviderStatusFromCode(v).error == "Invalid ProviderStatus value: " + ShowInt(v)
  {
  }

  /** The texts in the order of the codes. */
  const ProviderStatusTexts: seq<string> :=
    ["ACTIVE", "MAINTENANCE", "DISABLED", "OVERLOADED", "UNHEALTHY", "DEGRADED"]

  lemma ProviderStatusTextsInOrder(x: ProviderStatus)
    ensures 0 <= ProviderStatusCode(x) < |ProviderStatusTexts| && ShowProviderStatus(x) == ProviderStatusTexts[ProviderStatusCode(x)]
  {
  }

  // ---------- execution status ----------

  function ShowExecutionStatus(s: ExecutionStatus): string {
    match s
    case Submitted => "SUBMITTED"
    case Queued => "QUEUED"
    case ExecutionRunning => "RUNNING"
    case ExecutionSucceeded => "SUCCEEDED"
    case ExecutionFailed => "FAILED"
    case ExecutionCancelled => "CANCELLED"
    case TimedOut => "TIMED_OUT"
  }

  function ReadExecutionStatus(s: string): Result<ExecutionStatus, string> {
    if s == "SUBMITTED" then Ok(Submitted)
    else if s == "QUEUED" then Ok(Queued)
    else if s == "RUNNING" then Ok(ExecutionRunning)
    else if s == "SUCCEEDED" then Ok(ExecutionSucceeded)
    else if s == "FAILED" then Ok(ExecutionFailed)
    else if s == "CANCELLED" then Ok(ExecutionCancelled)
    else if s == "TIMED_OUT" then Ok(TimedOut)
    else Err("Invalid ExecutionStatus: " + s)
  }

  function ExecutionStatusCode(s: ExecutionStatus): int {
    match s
    case Submitted => 0
    case Queued => 1
    case ExecutionRunning => 2
    case ExecutionSucceeded => 3
    case ExecutionFailed => 4
    case ExecutionCancelled => 5
    case TimedOut => 6
  }

  function ExecutionStatusFromCode(v: int): Result<ExecutionStatus, string> {
    match v
    case 0 => Ok(Submitted)
    case 1 => Ok(Queued)
    case 2 => Ok(ExecutionRunning)
    case 3 => Ok(ExecutionSucceeded)
    case 4 => Ok(ExecutionFailed)
    case 5 => Ok(ExecutionCancelled)
    case 6 => Ok(TimedOut)
    case _ => Err("Invalid ExecutionStatus value: " + ShowInt(v))
  }

  lemma ExecutionStatusText(s: string, x: ExecutionStatus)
    ensures ReadExecutionStatus(s) == Ok(x) <==> s == ShowExecutionStatus(x)
    ensures ReadExecutionStatus(s).Err? ==> ReadExecutionStatus(s).error == "Invalid ExecutionStatus: " + s
  {
  }

  lemma ExecutionStatusNumber(v: int, x: ExecutionStatus)
    ensures ExecutionStatusFromCode(v) == Ok(x) <==> v == ExecutionStatusCode(x)
    ensures ExecutionStatusFromCode(v).Err? ==> ExecutionStatusFromCode(v).error == "Invalid ExecutionStatus value: " + ShowInt(v)
  {
  }

  /** The texts in the order of the codes. */
  const ExecutionStatusTexts: seq<string> :=
    ["SUBMITTED", "QUEUED", "RUNNING", "SUCCEEDED", "FAILED", "CANCELLED", "TIMED_OUT"]

  lemma ExecutionStatusTextsInOrder(x: ExecutionStatus)
    ensures 0 <= ExecutionStatusCode(x) < |ExecutionStatusTexts| && ShowExecutionStatus(x) == ExecutionStatusTexts[ExecutionStatusCode(x)]
  {
  }
}
