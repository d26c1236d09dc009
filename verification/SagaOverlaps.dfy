/**
 What executions of a saga on the database do not look at: the state that is stored, and each other.
 */
module SagaOverlaps {
  import opened SagaStates
  import opened SagaHistories
  import opened SagaTransactions
  import opened SagaExecutions

  // ---------- the stored state ----------

  ghost predicate SameProgress(a: Database, b: Database) {
    a.rows == b.rows && a.effects == b.effects && a.bodies == b.bodies
  }

  ghost predicate SameRun(a: Execution, b: Execution) {
    SameProgress(a.db, b.db) && a.outcome == b.outcome
  }

  lemma {:induction false} BackIgnoresState(
    c: seq<bool>, s: Script, a: Database, b: Database, done: set<nat>, executed: nat, undone: nat, i: nat)
    requires SameProgress(a, b) && i <= |c|
    ensures SameRun(Back(c, s, a, done, executed, undone, i), Back(c, s, b, done, executed, undone, i))
    decreases i
  {
    if i > 0 && (i - 1 !in done || !c[i - 1]) {
      BackIgnoresState(c, s, a, b, done, executed, undone, i - 1);
    } else if i > 0 && s.undo(i - 1) == Undone(Kept) {
      BackIgnoresState(c, s, UndoStep(a, i - 1, Kept), UndoStep(b, i - 1, Kept), done, executed, undone + 1, i - 1);
    }
  }

  lemma StopIgnoresState(
    c: seq<bool>, s: Script, given: SagaState, other: SagaState, a: Database, b: Database, executed: nat, k: nat)
    requires SameProgress(a, b) && k <= |c|
    ensures SameRun(AtStop(c, s, given, a, executed, k), AtStop(c, s, other, b, executed, k))
  {
    if k < |c| && s.turns(k).Fails? {
      FailureIgnoresState(c, s, Enter(a, Did(k)), Enter(b, Did(k)), executed, s.turns(k).mark);
    }
  }

  lemma FailureIgnoresState(c: seq<bool>, s: Script, a: Database, b: Database, executed: nat, w: Write)
    requires SameProgress(a, b)
    ensures SameRun(AfterFailure(c, s, a, executed, w), AfterFailure(c, s, b, executed, w))
  {
    if w.Kept? && s.reloads {
      BackIgnoresState(c, s, Store(a, Compensating, w), Store(b, Compensating, w), CompletedSteps(a.rows), executed, 0, |c|);
    }
  }

  lemma {:induction false} ForwardIgnoresState(
    c: seq<bool>, s: Script, given: SagaState, other: SagaState, a: Database, b: Database, done: set<nat>,
    executed: nat, i: nat)
    requires SameProgress(a, b) && i <= |c|
    ensures SameRun(Forward(c, s, given, a, done, executed, i), Forward(c, s, other, b, done, executed, i))
    decreases |c| - i
  {
    if i < |c| && i in done {
      ForwardIgnoresState(c, s, given, other, a, b, done, executed, i + 1);
    } else if i < |c| && s.turns(i) == Succeeds(Kept) {
      ForwardIgnoresState(
        c, s, given, other, DoStep(a, i, given, Kept), DoStep(b, i, other, Kept), done, executed + 1, i + 1);
    } else {
      StopIgnoresState(c, s, given, other, a, b, executed, i);
    }
  }

  /**
   Neither the state that is stored nor the state the context carries has any influence on an execution:
   a saga that was compensating, has failed, or was cancelled is executed like a new one.
   */
  lemma StateIsIgnored(c: seq<bool>, s: Script, given: SagaState, other: SagaState, a: Database, b: Database)
    requires SameProgress(a, b)
    ensures SameRun(Execute(c, s, given, a), Execute(c, s, other, b))
  {
    if s.first.Kept? && s.loads {
      ForwardIgnoresState(c, s, given, other, Store(a, given, Kept), Store(b, other, Kept), CompletedSteps(a.rows),
                          CompletedCount(a.rows), 0);
    }
  }

  // ---------- two executions at once ----------

  /**
   An execution by `b` that is overtaken: it has loaded the completed steps when an execution by `a` runs
   from start to end, and goes on with what it had loaded.
   */
  function Overtaken(c: seq<bool>, a: Script, b: Script, given: SagaState, other: SagaState, db: Database): Database {
    var start := Store(db, other, Kept);
    Forward(c, b, other, Execute(c, a, given, start).db, CompletedSteps(db.rows), CompletedCount(db.rows), 0).db
  }

  /** An execution that finds `done` completed commits step `j`. */
  predicate CommitsStep(c: seq<bool>, s: Script, done: set<nat>, j: nat) {
    var k := Stop(c, s, done, 0);
    j !in done && (j < k || (j == k && k < |c| && Commits(s.turns(k))))
  }

  lemma {:induction false} BackCommitsNoStep(
    c: seq<bool>, s: Script, db: Database, done: set<nat>, executed: nat, undone: nat, i: nat, j: nat)
    requires i <= |c|
    ensures multiset(Back(c, s, db, done, executed, undone, i).db.effects)[Did(j)] == multiset(db.effects)[Did(j)]
    decreases i
  {
    if i > 0 && (i - 1 !in done || !c[i - 1]) {
      BackCommitsNoStep(c, s, db, done, executed, undone, i - 1, j);
    } else if i > 0 && s.undo(i - 1) == Undone(Kept) {
      BackCommitsNoStep(c, s, UndoStep(db, i - 1, Kept), done, executed, undone + 1, i - 1, j);
    }
  }

  lemma StopCommits(c: seq<bool>, s: Script, given: SagaState, d: Database, executed: nat, k: nat, j: nat)
    requires k <= |c|
    ensures multiset(AtStop(c, s, given, d, executed, k).db.effects)[Did(j)]
         == multiset(d.effects)[Did(j)] + (if j == k && k < |c| && Commits(s.turns(k)) then 1 else 0)
  {
    if GoesBack(c, s, k) {
      var next := Store(Enter(d, Did(k)), Compensating, Kept);
      BackCommitsNoStep(c, s, next, CompletedSteps(next.rows), executed, 0, |c|, j);
    }
  }

  lemma AdvanceCommits(db: Database, given: SagaState, done: set<nat>, k: nat, j: nat)
    ensures multiset(Advance(db, given, Missing(done, 0, k)).effects)[Did(j)]
         == multiset(db.effects)[Did(j)] + (if j < k && j !in done then 1 else 0)
  {
    MissingOnce(done, 0, k, j);
  }

  /** Which steps an execution commits depends on what it loaded, not on what the tables hold by now. */
  lemma ForwardCommits(
    c: seq<bool>, s: Script, given: SagaState, db: Database, done: set<nat>, count: nat, j: nat)
    ensures multiset(Forward(c, s, given, db, done, count, 0).db.effects)[Did(j)]
         == multiset(db.effects)[Did(j)] + (if CommitsStep(c, s, done, j) then 1 else 0)
  {
    var k := Stop(c, s, done, 0);
    var d, executed := Advance(db, given, Missing(done, 0, k)), count + |Missing(done, 0, k)|;
    assert Forward(c, s, given, db, done, count, 0) == AtStop(c, s, given, d, executed, k) by {
      ForwardIs(c, s, given, db, done, count, 0, k, d, executed);
    }
    StopCommits(c, s, given, d, executed, k, j);
    AdvanceCommits(db, given, done, k, j);
  }

  /** An overtaken execution and the one that overtakes it each commit what they found missing: together, both. */
  lemma OvertakenCommits(
    c: seq<bool>, a: Script, b: Script, given: SagaState, other: SagaState, db: Database, j: nat)
    requires a.first.Kept? && a.loads
    ensures var done := CompletedSteps(db.rows);
            multiset(Overtaken(c, a, b, given, other, db).effects)[Did(j)]
            == multiset(db.effects)[Did(j)]
               + (if CommitsStep(c, a, done, j) then 1 else 0) + (if CommitsStep(c, b, done, j) then 1 else 0)
  {
    var start := Store(db, other, Kept);
    var next := Store(start, given, Kept);
    ForwardCommits(c, a, given, next, CompletedSteps(db.rows), CompletedCount(db.rows), j);
    ForwardCommits(c, b, other, Execute(c, a, given, start).db, CompletedSteps(db.rows), CompletedCount(db.rows), j);
  }

  /** So a step is committed by both exactly when both reach it and commit it; only then is it committed twice. */
  lemma CommittedTwiceExactly(
    c: seq<bool>, a: Script, b: Script, given: SagaState, other: SagaState, db: Database, j: nat)
    requires a.first.Kept? && a.loads
    ensures multiset(Overtaken(c, a, b, given, other, db).effects)[Did(j)] == multiset(db.effects)[Did(j)] + 2
       <==> CommitsStep(c, a, CompletedSteps(db.rows), j) && CommitsStep(c, b, CompletedSteps(db.rows), j)
  {
    OvertakenCommits(c, a, b, given, other, db, j);
  }

  /** Two executions that meet nothing but success, one overtaken by the other, commit every missing step twice. */
  lemma OverlapIsUnsound(c: seq<bool>, a: Script, b: Script, given: SagaState, other: SagaState, db: Database, j: nat)
    requires Sound(c, db) && a.first.Kept? && a.loads && j < |c| && j !in CompletedSteps(db.rows)
    requires Stop(c, a, CompletedSteps(db.rows), 0) == Stop(c, b, CompletedSteps(db.rows), 0) == |c|
    ensures !Sound(c, Overtaken(c, a, b, given, other, db))
  {
    var done, d := CompletedSteps(db.rows), Overtaken(c, a, b, given, other, db);
    var start := Store(db, other, Kept);
    var mid := Execute(c, a, given, start).db;
    OvertakenCommits(c, a, b, given, other, db, j);
    NothingUndone(c, a, given, Store(start, given, Kept), done, CompletedCount(db.rows), j);
    NothingUndone(c, b, other, mid, done, CompletedCount(db.rows), j);
    DoneOnce(c, db.effects, j);
    if Sound(c, d) {
      DoneOnce(c, d.effects, j);
    }
  }

  lemma NothingUndone(c: seq<bool>, s: Script, given: SagaState, db: Database, done: set<nat>, count: nat, j: nat)
    requires Stop(c, s, done, 0) == |c|
    ensures multiset(Forward(c, s, given, db, done, count, 0).db.effects)[Undid(j)] == multiset(db.effects)[Undid(j)]
  {
    var steps := Missing(done, 0, |c|);
    ForwardIs(c, s, given, db, done, count, 0, |c|, Advance(db, given, steps), count + |steps|);
    assert forall e | e in Dids(steps) :: e.Did?;
  }
}
