/** The crash-only worker machine and fleets of workers. */
module WorkerStates {
  import opened Runs

  datatype WorkerState = Creating | Ready | Busy | Terminated

  /** The transition guard, branch by branch. */
  predicate CanTransitionTo(s: WorkerState, n: WorkerState) {
    if s == n then false
    else
      match (s, n)
      case (Creating, Ready) => true
      case (Creating, Terminated) => true
      case (Ready, Busy) => true
      case (Ready, Terminated) => true
      case (Busy, Terminated) => true
      case _ => false
  }

  /** The stored code of a state. */
  function CodeOf(s: WorkerState): nat {
    match s
    case Creating => 0
    case Ready => 1
    case Busy => 2
    case Terminated => 3
  }

  predicate CanAcceptJobs(s: WorkerState) { s.Ready? }

  ghost predicate IsWorkerRun(r: seq<WorkerState>) {
    IsRun(CanTransitionTo, r)
  }

  /** A change is allowed exactly when the code grows, by one or straight to the end. */
  lemma GuardIsCodeOrder(s: WorkerState, n: WorkerState)
    ensures CanTransitionTo(s, n) <==> CodeOf(s) < CodeOf(n) && (CodeOf(n) == CodeOf(s) + 1 || n == Terminated)
  {
  }

  lemma {:induction false} CodesIncrease(r: seq<WorkerState>, i: nat, j: nat)
    requires IsWorkerRun(r) && i < j < |r|
    ensures CodeOf(r[i]) + (j - i) <= CodeOf(r[j])
    decreases j
  {
    assert CanTransitionTo(r[j - 1], r[j - 1 + 1]);
    GuardIsCodeOrder(r[j - 1], r[j]);
    if i < j - 1 {
      CodesIncrease(r, i, j - 1);
    }
  }

  /** A worker is never in the same state twice, takes no job after its first, and makes at most three moves. */
  lemma OneJobPerLife(r: seq<WorkerState>)
    requires IsWorkerRun(r)
    ensures |r| <= 4
    ensures forall i, j | 0 <= i < j < |r| :: r[i] != r[j] && (r[i].Busy? ==> !CanAcceptJobs(r[j]))
  {
    if |r| > 1 {
      CodesIncrease(r, 0, |r| - 1);
    }
    forall i, j | 0 <= i < j < |r| ensures r[i] != r[j] && (r[i].Busy? ==> !CanAcceptJobs(r[j])) {
      CodesIncrease(r, i, j);
    }
  }

  /** The way of a worker that is not terminated early. */
  const FullLife: seq<WorkerState> := [Creating, Ready, Busy]

  /** The lives of a new worker: some of the full life, and possibly its end after that. */
  lemma Lives(r: seq<WorkerState>)
    ensures IsWorkerRun(r) && r[0] == Creating
       <==> exists k :: 1 <= k <= 3 && (r == FullLife[..k] || r == FullLife[..k] + [Terminated])
  {
    if IsWorkerRun(r) && r[0] == Creating {
      LifeIsListed(r);
    }
    if k :| 1 <= k <= 3 && (r == FullLife[..k] || r == FullLife[..k] + [Terminated]) {
      ListedIsLife(k);
    }
  }

  lemma ListedIsLife(k: nat)
    requires 1 <= k <= 3
    ensures IsWorkerRun(FullLife[..k]) && IsWorkerRun(FullLife[..k] + [Terminated])
    ensures FullLife[..k][0] == Creating
  {
  }

  lemma {:induction false} CodeIsPosition(r: seq<WorkerState>, i: nat)
    requires IsWorkerRun(r) && r[0] == Creating && i < |r|
    ensures r[i] != Terminated ==> CodeOf(r[i]) == i
    ensures r[i] == Terminated ==> i == |r| - 1
    decreases i
  {
    if i > 0 {
      CodeIsPosition(r, i - 1);
      assert CanTransitionTo(r[i - 1], r[i - 1 + 1]);
    }
    if i < |r| - 1 {
      assert CanTransitionTo(r[i], r[i + 1]);
    }
  }

  lemma LifeIsListed(r: seq<WorkerState>)
    requires IsWorkerRun(r) && r[0] == Creating
    ensures exists k :: 1 <= k <= 3 && (r == FullLife[..k] || r == FullLife[..k] + [Terminated])
  {
    OneJobPerLife(r);
    forall i | 0 <= i < |r| ensures (r[i] == Terminated && i == |r| - 1) || (i < 3 && r[i] == FullLife[i]) {
      CodeIsPosition(r, i);
    }
    if Last(r) == Terminated {
      assert r == FullLife[..|r| - 1] + [Terminated];
    } else {
      assert r == FullLife[..|r|];
    }
  }

  function Remaining(s: WorkerState): nat { 3 - CodeOf(s) }

  function NoCredit(s: WorkerState): nat { 0 }

  lemma {:induction false} NoCredits(qs: seq<Request<string, WorkerState>>)
    ensures Credits(NoCredit, qs) == 0
  {
    if qs != [] {
      NoCredits(qs[..|qs| - 1]);
    }
  }

  lemma {:induction false} TotalAtMost(fleet: map<string, WorkerState>)
    ensures Total(Remaining, fleet) <= 3 * |fleet|
    decreases |fleet|
  {
    if fleet != map[] {
      var id :| id in fleet;
      TotalSplits(Remaining, fleet, id);
      var rest := fleet - {id};
      assert |rest| == |fleet| - 1;
      TotalAtMost(rest);
    }
  }

  /** In any interleaving `n` workers accept at most `3n` changes, whatever states they start in. */
  lemma WorkerFleetBound(fleet: map<string, WorkerState>, qs: seq<Request<string, WorkerState>>)
    ensures |Accepted(CanTransitionTo, fleet, qs)| <= 3 * |fleet|
  {
    forall a, b | CanTransitionTo(a, b) ensures Remaining(b) + 1 <= Remaining(a) + NoCredit(b) {
      GuardIsCodeOrder(a, b);
    }
    AcceptedBound(CanTransitionTo, Remaining, NoCredit, fleet, qs);
    TotalAtMost(fleet);
    NoCredits(Accepted(CanTransitionTo, fleet, qs));
  }

  /**
   Redelivering accepted changes is harmless to workers: whatever is asked again of a worker that has
   been there before is refused.
   */
  lemma {:induction false} PastIsRefused(
    fleet: map<string, WorkerState>, qs: seq<Request<string, WorkerState>>, q: Request<string, WorkerState>)
    requires q in Accepted(CanTransitionTo, fleet, qs)
    ensures var after := Replay(CanTransitionTo, fleet, qs);
            q.id in after && CodeOf(q.target) <= CodeOf(after[q.id])
    ensures Submit(CanTransitionTo, Replay(CanTransitionTo, fleet, qs), q) == Replay(CanTransitionTo, fleet, qs)
  {
    var init, last := qs[..|qs| - 1], Last(qs);
    var before := Replay(CanTransitionTo, fleet, init);
    if q in Accepted(CanTransitionTo, fleet, init) {
      PastIsRefused(fleet, init, q);
      if Accepts(CanTransitionTo, before, last) {
        GuardIsCodeOrder(before[last.id], last.target);
      }
    }
    var after := Replay(CanTransitionTo, fleet, qs);
    GuardIsCodeOrder(after[q.id], q.target);
  }

  /** So replaying any of the accepted changes of a finished log again leaves the fleet as it is. */
  lemma {:induction false} ReplayedPastIsInert(
    fleet: map<string, WorkerState>, qs: seq<Request<string, WorkerState>>, again: seq<Request<string, WorkerState>>)
    requires forall q | q in again :: q in Accepted(CanTransitionTo, fleet, qs)
    ensures Replay(CanTransitionTo, Replay(CanTransitionTo, fleet, qs), again) == Replay(CanTransitionTo, fleet, qs)
  {
    if again != [] {
      var init := again[..|again| - 1];
      forall q | q in init ensures q in Accepted(CanTransitionTo, fleet, qs) { assert q in again; }
      ReplayedPastIsInert(fleet, qs, init);
      assert Last(again) in again;
      PastIsRefused(fleet, qs, Last(again));
    }
  }
}
