/** Many jobs in one repository, their state changes requested in any order. */
module JobFleet {
  import opened Wrappers
  import opened Runs
  import opened JobStates
  import opened JobAggregate

  function StatesOf(jobs: map<string, JobRecord>): map<string, JobState> {
    map id | id in jobs :: jobs[id].state
  }

  /** The repository that keeps its jobs in memory. */
  class InMemoryJobRepository {
    var jobs: map<string, JobRecord>

    constructor ()
      ensures jobs == map[]
    {
      jobs := map[];
    }

    method Save(job: JobRecord)
      modifies this
      ensures jobs == old(jobs)[job.id := job]
    {
      jobs := jobs[job.id := job];
    }

    /** An unknown id is reported as success; a known job answers with its guard. */
    method UpdateState(id: string, newState: JobState) returns (r: Result<(), JobError>)
      modifies this
      ensures StatesOf(jobs) == Submit(CanTransitionTo, old(StatesOf(jobs)), Request(id, newState))
      ensures jobs == if id in old(jobs) && CanTransitionTo(old(jobs)[id].state, newState)
                      then old(jobs)[id := old(jobs)[id].(state := newState)] else old(jobs)
      ensures r.Ok? <==> id !in old(jobs) || CanTransitionTo(old(jobs)[id].state, newState)
      ensures r.Err? ==> jobs == old(jobs) && r.error == InvalidStateTransition(jobs[id].id, jobs[id].state, newState)
    {
      if id in jobs {
        var job := jobs[id];
        if !CanTransitionTo(job.state, newState) {
          return Err(InvalidStateTransition(job.id, job.state, newState));
        }
        jobs := jobs[id := job.(state := newState)];
      }
      return Ok(());
    }
  }

  lemma StepPays(a: JobState, b: JobState)
    requires CanTransitionTo(a, b)
    ensures Rank(b) + 1 <= Rank(a) + ManualCredit(b)
  {
  }

  /** How many of the requests ask for manual intervention. */
  function ManualRequests(qs: seq<Request<string, JobState>>): nat {
    if qs == [] then 0
    else ManualRequests(qs[..|qs| - 1]) + (if Last(qs).target.ManualInterventionRequired? then 1 else 0)
  }

  lemma {:induction false} CreditsAreManual(qs: seq<Request<string, JobState>>)
    ensures Credits(ManualCredit, qs) == 4 * ManualRequests(qs)
  {
    if qs != [] {
      CreditsAreManual(qs[..|qs| - 1]);
    }
  }

  /**
   For any number of pending jobs and any interleaved requests: at most three accepted changes per
   job and four per entry into manual intervention.
   */
  lemma FleetBound(fleet: map<string, JobState>, qs: seq<Request<string, JobState>>)
    requires forall id | id in fleet :: fleet[id] == Pending
    ensures var accepted := Accepted(CanTransitionTo, fleet, qs);
            |accepted| <= 3 * |fleet| + 4 * ManualRequests(accepted)
  {
    forall a, b | CanTransitionTo(a, b) ensures Rank(b) + 1 <= Rank(a) + ManualCredit(b) { StepPays(a, b); }
    AcceptedBound(CanTransitionTo, Rank, ManualCredit, fleet, qs);
    TotalConstant(Rank, fleet, 3);
    CreditsAreManual(Accepted(CanTransitionTo, fleet, qs));
  }

  /** Each job of the fleet goes through a valid run that depends on its own requests only. */
  lemma FleetProjects(fleet: map<string, JobState>, qs: seq<Request<string, JobState>>, id: string)
    requires id in fleet
    ensures var own := [fleet[id]] + TargetsOf(Accepted(CanTransitionTo, fleet, qs), id);
            && IsJobRun(own)
            && own == Trail(CanTransitionTo, fleet[id], TargetsOf(qs, id))
            && id in Replay(CanTransitionTo, fleet, qs)
            && Replay(CanTransitionTo, fleet, qs)[id] == Last(own)
  {
    ReplayProjects(CanTransitionTo, fleet, qs, id);
  }

  /**
   Redelivering a request makes no difference to anything that can follow exactly when the job is
   unknown or its state at that moment does not allow the change.
   */
  lemma FleetRedelivery(fleet: map<string, JobState>, log: seq<Request<string, JobState>>, q: Request<string, JobState>)
    ensures MakesNoDifference(CanTransitionTo, fleet, log, q)
       <==> !Accepts(CanTransitionTo, Replay(CanTransitionTo, fleet, log), q)
  {
    RedeliveryExactly(CanTransitionTo, fleet, log, q);
  }

  /**
   A change that was carried out is carried out again on redelivery only if in between an operator sent
   the job back to `Pending`; nothing else makes a second delivery harmful, whatever was asked.
   */
  lemma RedeliveryNeedsRetry(
    fleet: map<string, JobState>, before: seq<Request<string, JobState>>, q: Request<string, JobState>,
    between: seq<Request<string, JobState>>)
    requires Accepts(CanTransitionTo, Replay(CanTransitionTo, fleet, before), q)
    requires Accepts(CanTransitionTo, Replay(CanTransitionTo, fleet, before + [q] + between), q)
    ensures var r := Trail(CanTransitionTo, q.target, TargetsOf(between, q.id)) + [q.target];
            IsJobRun(r) && exists k :: RetryAt(r, k)
  {
    BetweenDeliveries(CanTransitionTo, fleet, before, q, between);
    var trail := Trail(CanTransitionTo, q.target, TargetsOf(between, q.id));
    RevisitNeedsRetry(trail + [q.target], 0, |trail|);
  }

  /** And after a retry it can be: a redelivered call for the operator parks the job again. */
  lemma RedeliveryAfterRetry()
    ensures var fleet := map["j" := Pending];
            var call, retry := Request("j", ManualInterventionRequired), Request("j", Pending);
            && Replay(CanTransitionTo, fleet, [call, retry]) == fleet
            && Replay(CanTransitionTo, fleet, [call, retry, call]) == map["j" := ManualInterventionRequired]
  {
    var fleet := map["j" := Pending];
    var call, retry := Request("j", ManualInterventionRequired), Request("j", Pending);
    assert [call, retry, call][..2] == [call, retry];
    assert [call, retry][..1] == [call];
    assert [call][..0] == [];
    assert Replay(CanTransitionTo, fleet, [call]) == fleet["j" := ManualInterventionRequired];
    assert Replay(CanTransitionTo, fleet, [call, retry]) == fleet["j" := ManualInterventionRequired]["j" := Pending];
  }
}
