/**
 A second description of the runs that start in `Pending`, written without the guard: a job makes
 attempts; each attempt gets some way, and then the job is still under way, finished, parked with an
 operator, given up by the operator, or sent back for the next attempt. Runs and histories are in
 one-to-one correspondence.
 */
module JobHistories {
  import opened Runs
  import opened JobStates

  /** How the scheduler placed a job. */
  datatype Placement = ByAssignment | BySchedule

  /** How far one attempt got before it ended or was interrupted. */
  datatype Attempt = Queued | Placed(placement: Placement) | Started(placement: Placement)

  datatype History =
    | Underway(attempt: Attempt)
    | Finished(attempt: Attempt, outcome: JobState)
    | Parked(attempt: Attempt)
    | GivenUp(attempt: Attempt, outcome: JobState)
    | Retried(attempt: Attempt, next: History)

  function PlacementState(p: Placement): JobState {
    match p
    case ByAssignment => Assigned
    case BySchedule => Scheduled
  }

  function AttemptStates(a: Attempt): (r: seq<JobState>)
    ensures r != [] && r[0] == Pending
  {
    match a
    case Queued => [Pending]
    case Placed(p) => [Pending, PlacementState(p)]
    case Started(p) => [Pending, PlacementState(p), Running]
  }

  /** Success needs a started attempt; an operator can only fail or cancel. */
  predicate Valid(h: History) {
    match h
    case Underway(_) => true
    case Finished(a, outcome) => outcome in {Failed, Cancelled, Timeout} || (outcome == Succeeded && a.Started?)
    case Parked(_) => true
    case GivenUp(_, outcome) => outcome in {Failed, Cancelled}
    case Retried(_, next) => Valid(next)
  }

  function States(h: History): (r: seq<JobState>)
    ensures r != [] && r[0] == Pending
  {
    match h
    case Underway(a) => AttemptStates(a)
    case Finished(a, outcome) => AttemptStates(a) + [outcome]
    case Parked(a) => AttemptStates(a) + [ManualInterventionRequired]
    case GivenUp(a, outcome) => AttemptStates(a) + [ManualInterventionRequired, outcome]
    case Retried(a, next) => AttemptStates(a) + [ManualInterventionRequired] + States(next)
  }

  /** The attempt at the head of a run. */
  function FirstAttempt(r: seq<JobState>): (a: Attempt)
    requires IsJobRun(r) && r[0] == Pending
    ensures AttemptStates(a) <= r
  {
    if |r| == 1 || !IsScheduled(r[1]) then Queued
    else
      var p := if r[1] == Assigned then ByAssignment else BySchedule;
      if |r| == 2 || r[2] != Running then Placed(p) else Started(p)
  }

  /** Reads a run back into the history it records. */
  function HistoryOf(r: seq<JobState>): History
    requires IsJobRun(r) && r[0] == Pending
    decreases |r|
  {
    var a := FirstAttempt(r);
    var rest := r[|AttemptStates(a)|..];
    if rest == [] then Underway(a)
    else if rest[0] != ManualInterventionRequired then Finished(a, rest[0])
    else if |rest| == 1 then Parked(a)
    else if rest[1] != Pending then GivenUp(a, rest[1])
    else
      RunSlice(CanTransitionTo, r, |AttemptStates(a)| + 1, |r|);
      assert rest[1..] == r[|AttemptStates(a)| + 1..|r|];
      Retried(a, HistoryOf(rest[1..]))
  }

  lemma AttemptIsRun(a: Attempt)
    ensures IsJobRun(AttemptStates(a))
  {
  }

  /** Every history is a run the guard allows. */
  lemma {:induction false} HistoryIsRun(h: History)
    requires Valid(h)
    ensures IsJobRun(States(h))
  {
    var a := AttemptStates(h.attempt);
    AttemptIsRun(h.attempt);
    match h {
      case Underway(_) =>
      case Finished(_, outcome) =>
        RunAppend(CanTransitionTo, a, outcome);
      case Parked(_) =>
        RunAppend(CanTransitionTo, a, ManualInterventionRequired);
      case GivenUp(_, outcome) =>
        RunAppend(CanTransitionTo, a, ManualInterventionRequired);
        RunAppend(CanTransitionTo, a + [ManualInterventionRequired], outcome);
        assert a + [ManualInterventionRequired] + [outcome] == States(h);
      case Retried(_, next) =>
        HistoryIsRun(next);
        RunAppend(CanTransitionTo, a, ManualInterventionRequired);
        RunConcat(CanTransitionTo, a + [ManualInterventionRequired], States(next));
    }
  }

  /** What follows the head attempt does not continue it. */
  lemma AfterAttempt(r: seq<JobState>)
    requires IsJobRun(r) && r[0] == Pending
    ensures var a := FirstAttempt(r); var n := |AttemptStates(a)|;
            n < |r| ==>
              && CanTransitionTo(Last(AttemptStates(a)), r[n])
              && (r[n] != ManualInterventionRequired ==> Valid(Finished(a, r[n])))
  {
    var n := |AttemptStates(FirstAttempt(r))|;
    if n < |r| {
      assert CanTransitionTo(r[n - 1], r[n - 1 + 1]);
    }
  }

  /** What follows a call for the operator: the end, or another run from `Pending`. */
  lemma AfterManual(r: seq<JobState>, n: nat)
    requires IsJobRun(r) && n + 1 < |r| && r[n] == ManualInterventionRequired
    ensures r[n + 1] == Pending ==> IsJobRun(r[n + 1..])
    ensures r[n + 1] != Pending ==> r[n + 1] in {Failed, Cancelled} && |r| == n + 2
  {
    assert CanTransitionTo(r[n], r[n + 1]);
    if r[n + 1] == Pending {
      RunSlice(CanTransitionTo, r, n + 1, |r|);
      assert r[n + 1..] == r[n + 1..|r|];
    } else {
      TerminalEndsRun(r, n + 1);
    }
  }

  lemma FinishedRunIsHistory(r: seq<JobState>)
    requires IsJobRun(r) && r[0] == Pending
    requires var n := |AttemptStates(FirstAttempt(r))|; n < |r| && r[n] != ManualInterventionRequired
    ensures Valid(HistoryOf(r)) && States(HistoryOf(r)) == r
  {
    var a := FirstAttempt(r);
    var n := |AttemptStates(a)|;
    AfterAttempt(r);
    TerminalEndsRun(r, n);
    assert r[n..] == [r[n]];
    assert HistoryOf(r) == Finished(a, r[n]);
    assert r == AttemptStates(a) + [r[n]];
  }

  lemma InterruptedRunIsHistory(r: seq<JobState>)
    requires IsJobRun(r) && r[0] == Pending
    requires var n := |AttemptStates(FirstAttempt(r))|;
             n < |r| && r[n] == ManualInterventionRequired && (n + 1 == |r| || r[n + 1] != Pending)
    ensures Valid(HistoryOf(r)) && States(HistoryOf(r)) == r
  {
    var a := FirstAttempt(r);
    var n := |AttemptStates(a)|;
    if n + 1 == |r| {
      assert r[n..] == [r[n]];
      assert HistoryOf(r) == Parked(a);
    } else {
      AfterManual(r, n);
      assert r[n..] == [r[n], r[n + 1]];
      assert HistoryOf(r) == GivenUp(a, r[n + 1]);
    }
    assert r == AttemptStates(a) + r[n..];
  }

  lemma RetriedRunIsHistory(r: seq<JobState>)
    requires IsJobRun(r) && r[0] == Pending
    requires var n := |AttemptStates(FirstAttempt(r))|;
             && n + 1 < |r| && r[n] == ManualInterventionRequired && r[n + 1] == Pending && IsJobRun(r[n + 1..])
             && Valid(HistoryOf(r[n + 1..])) && States(HistoryOf(r[n + 1..])) == r[n + 1..]
    ensures Valid(HistoryOf(r)) && States(HistoryOf(r)) == r
  {
    var a := FirstAttempt(r);
    var n := |AttemptStates(a)|;
    HistoryOfRetried(r);
    SplitBehind(r, AttemptStates(a));
  }

  lemma SplitBehind(r: seq<JobState>, front: seq<JobState>)
    requires front <= r && |front| < |r|
    ensures r == front + [r[|front|]] + r[|front| + 1..]
  {
  }

  lemma HistoryOfRetried(r: seq<JobState>)
    requires IsJobRun(r) && r[0] == Pending
    requires var n := |AttemptStates(FirstAttempt(r))|;
             n + 1 < |r| && r[n] == ManualInterventionRequired && r[n + 1] == Pending && IsJobRun(r[n + 1..])
    ensures HistoryOf(r) == Retried(FirstAttempt(r), HistoryOf(r[|AttemptStates(FirstAttempt(r))| + 1..]))
  {
    var n := |AttemptStates(FirstAttempt(r))|;
    assert r[n..][1..] == r[n + 1..];
  }

  /** Every run from `Pending` is the run of the history read from it. */
  lemma {:induction false} RunIsHistory(r: seq<JobState>)
    requires IsJobRun(r) && r[0] == Pending
    ensures Valid(HistoryOf(r)) && States(HistoryOf(r)) == r
    decreases |r|
  {
    var a := FirstAttempt(r);
    var n := |AttemptStates(a)|;
    if n == |r| {
      assert r[n..] == [];
      assert HistoryOf(r) == Underway(a);
    } else if r[n] != ManualInterventionRequired {
      FinishedRunIsHistory(r);
    } else if n + 1 == |r| || r[n + 1] != Pending {
      InterruptedRunIsHistory(r);
    } else {
      AfterManual(r, n);
      RunIsHistory(r[n + 1..]);
      RetriedRunIsHistory(r);
    }
  }

  lemma TerminalEndsRun(r: seq<JobState>, i: nat)
    requires IsJobRun(r) && i < |r| && IsTerminal(r[i])
    ensures i == |r| - 1
  {
    if i < |r| - 1 {
      TerminalIsLast(r, i);
    }
  }

  lemma FirstAttemptOf(a: Attempt, rest: seq<JobState>)
    requires IsJobRun(AttemptStates(a) + rest)
    requires rest == [] || IsTerminal(rest[0]) || rest[0] == ManualInterventionRequired
    ensures FirstAttempt(AttemptStates(a) + rest) == a
    ensures (AttemptStates(a) + rest)[|AttemptStates(a)|..] == rest
  {
  }

  /** Reading back the run of a history returns the history. */
  lemma {:induction false} HistoryReadsBack(h: History)
    requires Valid(h)
    ensures IsJobRun(States(h)) && HistoryOf(States(h)) == h
  {
    HistoryIsRun(h);
    var a := h.attempt;
    match h {
      case Underway(_) =>
        assert States(h) == AttemptStates(a) + [];
        FirstAttemptOf(a, []);
      case Finished(_, outcome) =>
        FirstAttemptOf(a, [outcome]);
      case Parked(_) =>
        FirstAttemptOf(a, [ManualInterventionRequired]);
      case GivenUp(_, outcome) =>
        FirstAttemptOf(a, [ManualInterventionRequired, outcome]);
      case Retried(_, next) =>
        var rest := [ManualInterventionRequired] + States(next);
        assert States(h) == AttemptStates(a) + rest;
        FirstAttemptOf(a, rest);
        assert rest[1..] == States(next);
        HistoryReadsBack(next);
    }
  }

  /** The guard's runs from `Pending` are exactly the histories, each run recording one history. */
  lemma RunsAreHistories(r: seq<JobState>)
    ensures IsJobRun(r) && r[0] == Pending <==> exists h :: Valid(h) && States(h) == r
    ensures forall h, k | Valid(h) && Valid(k) && States(h) == r && States(k) == r :: h == k
  {
    if IsJobRun(r) && r[0] == Pending {
      RunIsHistory(r);
    }
    forall h | Valid(h) && States(h) == r ensures IsJobRun(r) && r[0] == Pending && HistoryOf(r) == h {
      HistoryReadsBack(h);
    }
  }

  function Retries(h: History): nat {
    match h
    case Parked(_) => 1
    case GivenUp(_, _) => 1
    case Retried(_, next) => 1 + Retries(next)
    case _ => 0
  }

  /** The operator was called once per interrupted attempt, and each attempt queued the job once. */
  lemma {:induction false} HistoryVisits(h: History)
    requires Valid(h)
    ensures multiset(States(h))[ManualInterventionRequired] == Retries(h)
    ensures multiset(States(h))[Pending] == Retries(h) + (if EndsInHands(h) then 0 else 1)
  {
    StatesSplit(h);
    AttemptVisits(h.attempt, AfterFirst(h));
    if h.Retried? {
      HistoryVisits(h.next);
      assert multiset(AfterFirst(h)) == multiset{ManualInterventionRequired} + multiset(States(h.next));
    }
  }

  /** The states after the first attempt. */
  function AfterFirst(h: History): seq<JobState> {
    match h
    case Underway(_) => []
    case Finished(_, outcome) => [outcome]
    case Parked(_) => [ManualInterventionRequired]
    case GivenUp(_, outcome) => [ManualInterventionRequired, outcome]
    case Retried(_, next) => [ManualInterventionRequired] + States(next)
  }

  lemma StatesSplit(h: History)
    ensures States(h) == AttemptStates(h.attempt) + AfterFirst(h)
  {
  }

  lemma AttemptVisits(a: Attempt, rest: seq<JobState>)
    ensures multiset(AttemptStates(a) + rest)[ManualInterventionRequired] == multiset(rest)[ManualInterventionRequired]
    ensures multiset(AttemptStates(a) + rest)[Pending] == 1 + multiset(rest)[Pending]
  {
  }

  /** The last attempt was handed to an operator and not taken up again. */
  predicate EndsInHands(h: History) {
    match h
    case Parked(_) => true
    case GivenUp(_, _) => true
    case Retried(_, next) => EndsInHands(next)
    case _ => false
  }
}
