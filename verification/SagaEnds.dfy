/**
 How an execution of a saga on the database leaves things, for every way it can end: what is in effect,
 what stands outside the database, which state is stored, and whether the stored states follow the guard.
 */
module SagaEnds {
  import opened SagaStates
  import opened SagaHistories
  import opened SagaTransactions
  import opened SagaExecutions
  import opened SagaGuarantees

  // ---------- what is in effect ----------

  /** The compensations of the way back that are `entered`, or committed, include that of step `j`. */
  predicate TakenBack(c: seq<bool>, s: Script, k: nat, j: nat, entered: bool)
    requires k <= |c|
  {
    var m := BackStop(c, s, k);
    || (m <= j < k && c[j])
    || (m > 0 && j == m - 1 && if entered then EntersUndo(s.undo(j)) else CommitsUndo(s.undo(j)))
  }

  /** Step `j` is in effect after an execution that finds `done` in effect. */
  predicate StandsAfter(c: seq<bool>, s: Script, done: set<nat>, j: nat) {
    if !(s.first.Kept? && s.loads) then j in done
    else
      var k := Stop(c, s, done, 0);
      if GoesBack(c, s, k) then (j in done || j < k) && !TakenBack(c, s, k, j, false)
      else j in done || j < k || (j == k && k < |c| && Commits(s.turns(k)))
  }

  /**
   The body of step `j` was entered and its compensation was not entered since: what the step does
   outside the database stands. `outside` are the steps of which that was true before.
   */
  predicate OutsideAfter(c: seq<bool>, s: Script, done: set<nat>, outside: set<nat>, j: nat) {
    if !(s.first.Kept? && s.loads) then j in outside
    else
      var k := Stop(c, s, done, 0);
      if GoesBack(c, s, k) then (j in outside || (j < k && j !in done) || j == k) && !TakenBack(c, s, k, j, true)
      else j in outside || (j < k && j !in done) || (j == k && k < |c| && Enters(s.turns(k)))
  }

  lemma ReplayedWhen(before: set<nat>, b: bool, e: Effect)
    ensures Replayed(before, When(b, e)) == if b then Apply(before, e) else before
  {
    assert [e][..0] == [];
  }

  lemma ReplayedBack(before: set<nat>, c: seq<bool>, m: nat, k: nat, b: bool, at: nat)
    requires m <= k <= |c|
    ensures forall j :: j in Replayed(before, Undids(Undoable(c, m, k)) + When(b, Undid(at)))
                   <==> j in before && !(m <= j < k && c[j]) && !(b && j == at)
  {
    var undone := Undids(Undoable(c, m, k));
    ReplayedConcat(before, undone, When(b, Undid(at)));
    ReplayedUndids(before, Undoable(c, m, k));
    UndoableHas(c, m, k);
    ReplayedWhen(Replayed(before, undone), b, Undid(at));
  }

  lemma ReplayedForward(before: set<nat>, done: set<nat>, k: nat, rest: seq<Effect>)
    ensures var there := Replayed(before, Dids(Missing(done, 0, k)));
            && Replayed(before, Dids(Missing(done, 0, k)) + rest) == Replayed(there, rest)
            && forall j: nat :: j in there <==> j in before || (j < k && j !in done)
  {
    ReplayedConcat(before, Dids(Missing(done, 0, k)), rest);
    ReplayedDids(before, Missing(done, 0, k));
    MissingHas(done, 0, k);
  }

  lemma EffectsStand(c: seq<bool>, s: Script, done: set<nat>)
    ensures forall j: nat :: j in Replayed(done, EffectsOf(c, s, done)) <==> StandsAfter(c, s, done, j)
  {
    if s.first.Kept? && s.loads {
      var k := Stop(c, s, done, 0);
      var there := Replayed(done, Dids(Missing(done, 0, k)));
      ReplayedForward(done, done, k, EndEffects(c, s, k));
      EndStands(c, s, k, there);
    }
  }

  lemma EndStands(c: seq<bool>, s: Script, k: nat, there: set<nat>)
    requires k <= |c|
    ensures forall j: nat :: j in Replayed(there, EndEffects(c, s, k)) <==>
              if GoesBack(c, s, k) then j in there && !TakenBack(c, s, k, j, false)
              else j in there || (j == k && k < |c| && Commits(s.turns(k)))
  {
    if GoesBack(c, s, k) {
      var m := BackStop(c, s, k);
      ReplayedBack(there, c, m, k, m > 0 && CommitsUndo(s.undo(m - 1)), if m > 0 then m - 1 else 0);
    } else {
      ReplayedWhen(there, k < |c| && Commits(s.turns(k)), Did(k));
    }
  }

  lemma BodiesStand(c: seq<bool>, s: Script, done: set<nat>, outside: set<nat>)
    ensures forall j: nat :: j in Replayed(outside, BodiesOf(c, s, done)) <==> OutsideAfter(c, s, done, outside, j)
  {
    if s.first.Kept? && s.loads {
      var k := Stop(c, s, done, 0);
      var there := Replayed(outside, Dids(Missing(done, 0, k)));
      ReplayedForward(outside, done, k, EndBodies(c, s, k));
      EndStandsOutside(c, s, k, there);
    }
  }

  lemma EndStandsOutside(c: seq<bool>, s: Script, k: nat, there: set<nat>)
    requires k <= |c|
    ensures forall j: nat :: j in Replayed(there, EndBodies(c, s, k)) <==>
              if GoesBack(c, s, k) then (j in there || j == k) && !TakenBack(c, s, k, j, true)
              else j in there || (j == k && k < |c| && Enters(s.turns(k)))
  {
    if GoesBack(c, s, k) {
      var m := BackStop(c, s, k);
      ReplayedConcat(there, [Did(k)], BackBodies(c, s, k, m));
      ReplayedWhen(there, true, Did(k));
      ReplayedBack(Replayed(there, [Did(k)]), c, m, k, m > 0 && EntersUndo(s.undo(m - 1)), if m > 0 then m - 1 else 0);
    } else {
      ReplayedWhen(there, k < |c| && Enters(s.turns(k)), Did(k));
    }
  }

  /**
   For every script and every end: which steps are in effect, and of which steps the work outside the
   database stands. A step that fails or times out stands outside without being in effect; a compensation
   that was entered in vain leaves a step in effect that no longer stands outside.
   */
  lemma EveryEnd(c: seq<bool>, s: Script, given: SagaState, db: Database)
    requires Sound(c, db)
    ensures var r, done := Execute(c, s, given, db).db, InEffect(db.effects);
            && (forall j: nat :: j in InEffect(r.effects) <==> StandsAfter(c, s, done, j))
            && (forall j: nat :: j in InEffect(r.bodies) <==> OutsideAfter(c, s, done, InEffect(db.bodies), j))
  {
    var done := InEffect(db.effects);
    ExecutionRecords(c, s, given, db);
    ReplayedConcat({}, db.effects, EffectsOf(c, s, done));
    ReplayedConcat({}, db.bodies, BodiesOf(c, s, done));
    EffectsStand(c, s, done);
    BodiesStand(c, s, done, InEffect(db.bodies));
  }

  // ---------- which bodies run ----------

  /** Steps that cannot be read: nothing is done, and only the first save may have been carried out. */
  lemma UnreadableSteps(c: seq<bool>, s: Script, given: SagaState, db: Database)
    requires !s.first.Kept? || !s.loads
    ensures var r := Execute(c, s, given, db);
            && r.outcome == DatabaseError
            && r.db.rows == db.rows && r.db.effects == db.effects && r.db.bodies == db.bodies
            && r.db.states == (if s.first.Lost? then db.states else db.states + [given])
  {
  }

  lemma RecordedCounts(c: seq<bool>, s: Script, given: SagaState, db: Database, e: Effect)
    requires Sound(c, db)
    ensures var r, done := Execute(c, s, given, db).db, InEffect(db.effects);
            && multiset(r.bodies)[e] == multiset(db.bodies)[e] + multiset(BodiesOf(c, s, done))[e]
            && multiset(r.effects)[e] == multiset(db.effects)[e] + multiset(EffectsOf(c, s, done))[e]
  {
    ExecutionRecords(c, s, given, db);
  }

  lemma CountWhen(b: bool, e: Effect, f: Effect)
    ensures multiset(When(b, e))[f] == if b && e == f then 1 else 0
  {
  }

  lemma NoDidIn(steps: seq<nat>, j: nat)
    ensures multiset(Undids(steps))[Did(j)] == 0 && multiset(Dids(steps))[Undid(j)] == 0
  {
    assert forall e | e in Undids(steps) :: e.Undid?;
    assert forall e | e in Dids(steps) :: e.Did?;
  }

  lemma BackHoldsNoDid(c: seq<bool>, s: Script, k: nat, m: nat, j: nat)
    requires m <= k <= |c|
    ensures multiset(BackBodies(c, s, k, m))[Did(j)] == 0 && multiset(BackEffects(c, s, k, m))[Did(j)] == 0
  {
    NoDidIn(Undoable(c, m, k), j);
  }

  /** How often the end of an execution enters and commits the body of a step. */
  lemma EndCountsDid(c: seq<bool>, s: Script, k: nat, j: nat)
    requires k <= |c|
    ensures multiset(EndBodies(c, s, k))[Did(j)] == if j == k && k < |c| && Enters(s.turns(k)) then 1 else 0
    ensures multiset(EndEffects(c, s, k))[Did(j)] == if j == k && k < |c| && Commits(s.turns(k)) then 1 else 0
  {
    if GoesBack(c, s, k) {
      BackHoldsNoDid(c, s, k, BackStop(c, s, k), j);
    } else if k < |c| {
      CountWhen(Enters(s.turns(k)), Did(k), Did(j));
      CountWhen(Commits(s.turns(k)), Did(k), Did(j));
    }
  }

  lemma ListsCountDid(c: seq<bool>, s: Script, done: set<nat>, j: nat)
    requires s.first.Kept? && s.loads
    ensures var k := Stop(c, s, done, 0); var below := j < k && j !in done;
            && multiset(BodiesOf(c, s, done))[Did(j)]
               == (if below || (j == k && k < |c| && Enters(s.turns(k))) then 1 else 0)
            && multiset(EffectsOf(c, s, done))[Did(j)]
               == (if below || (j == k && k < |c| && Commits(s.turns(k))) then 1 else 0)
  {
    var k := Stop(c, s, done, 0);
    MissingOnce(done, 0, k, j);
    EndCountsDid(c, s, k, j);
  }

  /** The execution gets to step `j`: the steps can be read, it is missing, and all missing steps below succeed. */
  ghost predicate ReachesStep(c: seq<bool>, s: Script, done: set<nat>, j: nat) {
    && s.first.Kept? && s.loads && j < |c| && j !in done
    && forall i | 0 <= i < j && i !in done :: s.turns(i) == Succeeds(Kept)
  }

  lemma ReachedIs(c: seq<bool>, s: Script, done: set<nat>, j: nat)
    ensures ReachesStep(c, s, done, j)
       <==> s.first.Kept? && s.loads && j < |c| && j !in done && j <= Stop(c, s, done, 0)
  {
  }

  lemma ListsHoldDid(c: seq<bool>, s: Script, done: set<nat>, j: nat)
    ensures multiset(BodiesOf(c, s, done))[Did(j)]
         == (if ReachesStep(c, s, done, j) && !s.turns(j).Expires? && !s.turns(j).BreaksBefore? then 1 else 0)
    ensures multiset(EffectsOf(c, s, done))[Did(j)]
         == (if ReachesStep(c, s, done, j) && (s.turns(j) == Succeeds(Kept) || s.turns(j) == Succeeds(KeptUnheard)) then 1 else 0)
  {
    ReachedIs(c, s, done, j);
    if s.first.Kept? && s.loads {
      ListsCountDid(c, s, done, j);
    }
  }

  /**
   The body of a step is entered, and committed, exactly so often: once, if the execution gets to the step,
   and as far as its body, or its commit.
   */
  lemma StepRunsExactly(c: seq<bool>, s: Script, given: SagaState, db: Database, j: nat)
    requires Sound(c, db)
    ensures var r, reached := Execute(c, s, given, db).db, ReachesStep(c, s, InEffect(db.effects), j);
            && multiset(r.bodies)[Did(j)] == multiset(db.bodies)[Did(j)]
                 + (if reached && !s.turns(j).Expires? && !s.turns(j).BreaksBefore? then 1 else 0)
            && multiset(r.effects)[Did(j)] == multiset(db.effects)[Did(j)]
                 + (if reached && (s.turns(j) == Succeeds(Kept) || s.turns(j) == Succeeds(KeptUnheard)) then 1 else 0)
  {
    RecordedCounts(c, s, given, db, Did(j));
    ListsHoldDid(c, s, InEffect(db.effects), j);
  }

  lemma BackCountsUndid(c: seq<bool>, s: Script, k: nat, m: nat, j: nat)
    requires m <= k <= |c|
    ensures multiset(BackBodies(c, s, k, m))[Undid(j)]
         == (if m <= j < k && c[j] then 1 else 0) + (if j + 1 == m && EntersUndo(s.undo(j)) then 1 else 0)
    ensures multiset(BackEffects(c, s, k, m))[Undid(j)]
         == (if m <= j < k && c[j] then 1 else 0) + (if j + 1 == m && CommitsUndo(s.undo(j)) then 1 else 0)
  {
    var at := if m > 0 then m - 1 else 0;
    UndoableOnce(c, m, k, j);
    CountWhen(m > 0 && EntersUndo(s.undo(at)), Undid(at), Undid(j));
    CountWhen(m > 0 && CommitsUndo(s.undo(at)), Undid(at), Undid(j));
  }

  lemma EndCountsUndid(c: seq<bool>, s: Script, k: nat, j: nat)
    requires k <= |c|
    ensures var m := BackStop(c, s, k);
            && multiset(EndBodies(c, s, k))[Undid(j)] ==
                 (if GoesBack(c, s, k) && ((m <= j < k && c[j]) || (j + 1 == m && EntersUndo(s.undo(j)))) then 1 else 0)
            && multiset(EndEffects(c, s, k))[Undid(j)] ==
                 (if GoesBack(c, s, k) && ((m <= j < k && c[j]) || (j + 1 == m && CommitsUndo(s.undo(j)))) then 1 else 0)
  {
    if GoesBack(c, s, k) {
      BackCountsUndid(c, s, k, BackStop(c, s, k), j);
    }
  }

  lemma ListsCountUndid(c: seq<bool>, s: Script, done: set<nat>, j: nat)
    requires s.first.Kept? && s.loads
    ensures var k := Stop(c, s, done, 0); var m := BackStop(c, s, k);
            && multiset(BodiesOf(c, s, done))[Undid(j)] ==
                 (if GoesBack(c, s, k) && ((m <= j < k && c[j]) || (j + 1 == m && EntersUndo(s.undo(j)))) then 1 else 0)
            && multiset(EffectsOf(c, s, done))[Undid(j)] ==
                 (if GoesBack(c, s, k) && ((m <= j < k && c[j]) || (j + 1 == m && CommitsUndo(s.undo(j)))) then 1 else 0)
  {
    var k := Stop(c, s, done, 0);
    NoDidIn(Missing(done, 0, k), j);
    EndCountsUndid(c, s, k, j);
  }

  /**
   The execution turns back at `k`, which fails, and gets to the compensation of step `j`: those above it
   and below `k` that have one are undone.
   */
  ghost predicate TurnsBackTo(c: seq<bool>, s: Script, done: set<nat>, k: nat, j: nat) {
    && ReachesStep(c, s, done, k) && s.turns(k) == Fails(Kept) && s.reloads
    && j < k && c[j] && forall i | j < i < k && c[i] :: s.undo(i) == Undone(Kept)
  }

  ghost predicate ReachesUndo(c: seq<bool>, s: Script, done: set<nat>, j: nat) {
    exists k :: TurnsBackTo(c, s, done, k, j)
  }

  lemma TurnsBackIs(c: seq<bool>, s: Script, done: set<nat>, k: nat, j: nat)
    ensures TurnsBackTo(c, s, done, k, j)
       <==> && s.first.Kept? && s.loads && k == Stop(c, s, done, 0) && GoesBack(c, s, k)
            && j < k && c[j] && BackStop(c, s, k) <= j + 1
  {
    ReachedIs(c, s, done, k);
  }

  lemma UndoReachedIs(c: seq<bool>, s: Script, done: set<nat>, j: nat)
    ensures var k := Stop(c, s, done, 0);
            (ReachesUndo(c, s, done, j)
             <==> && s.first.Kept? && s.loads && GoesBack(c, s, k) && j < k && c[j] && BackStop(c, s, k) <= j + 1)
  {
    TurnsBackIs(c, s, done, Stop(c, s, done, 0), j);
    if k: nat :| TurnsBackTo(c, s, done, k, j) {
      TurnsBackIs(c, s, done, k, j);
    }
  }

  lemma ListsHoldUndid(c: seq<bool>, s: Script, done: set<nat>, j: nat, reached: bool)
    requires reached == ReachesUndo(c, s, done, j)
    ensures multiset(BodiesOf(c, s, done))[Undid(j)] == (if reached && !s.undo(j).UndoBreaksBefore? then 1 else 0)
    ensures multiset(EffectsOf(c, s, done))[Undid(j)]
         == (if reached && (s.undo(j) == Undone(Kept) || s.undo(j) == Undone(KeptUnheard)) then 1 else 0)
  {
    UndoReachedIs(c, s, done, j);
    if s.first.Kept? && s.loads {
      ListsCountUndid(c, s, done, j);
      UndoCountIs(c, s, Stop(c, s, done, 0), j, reached);
    }
  }

  lemma UndoCountIs(c: seq<bool>, s: Script, k: nat, j: nat, reached: bool)
    requires k <= |c|
    requires reached == (GoesBack(c, s, k) && j < k && c[j] && BackStop(c, s, k) <= j + 1)
    ensures var m := BackStop(c, s, k);
            && (reached && !s.undo(j).UndoBreaksBefore?
                <==> GoesBack(c, s, k) && ((m <= j < k && c[j]) || (j + 1 == m && EntersUndo(s.undo(j)))))
            && (reached && (s.undo(j) == Undone(Kept) || s.undo(j) == Undone(KeptUnheard))
                <==> GoesBack(c, s, k) && ((m <= j < k && c[j]) || (j + 1 == m && CommitsUndo(s.undo(j)))))
  {
  }

  /** Likewise for a compensation: once, if the execution turns back, gets to it, and as far as its body, or its commit. */
  lemma UndoRunsExactly(c: seq<bool>, s: Script, given: SagaState, db: Database, j: nat)
    requires Sound(c, db)
    ensures var r, reached := Execute(c, s, given, db).db, ReachesUndo(c, s, InEffect(db.effects), j);
            && multiset(r.bodies)[Undid(j)] == multiset(db.bodies)[Undid(j)]
                 + (if reached && !s.undo(j).UndoBreaksBefore? then 1 else 0)
            && multiset(r.effects)[Undid(j)] == multiset(db.effects)[Undid(j)]
                 + (if reached && (s.undo(j) == Undone(Kept) || s.undo(j) == Undone(KeptUnheard)) then 1 else 0)
  {
    RecordedCounts(c, s, given, db, Undid(j));
    ListsHoldUndid(c, s, InEffect(db.effects), j, ReachesUndo(c, s, InEffect(db.effects), j));
  }

  // ---------- what is reported ----------

  /** No step that can be undone is in effect. */
  ghost predicate NothingToUndo(c: seq<bool>, present: set<nat>) {
    forall j | 0 <= j < |c| && c[j] :: j !in present
  }

  /** Everything is in effect. */
  ghost predicate Complete(c: seq<bool>, present: set<nat>) {
    forall j :: j in present <==> 0 <= j < |c|
  }

  lemma {:induction false} CompleteCount(c: seq<bool>, present: set<nat>)
    requires Complete(c, present)
    ensures |present| == |c|
  {
    if c == [] {
      assert present == {};
    } else {
      var n := |c| - 1;
      CompleteCount(c[..n], present - {n});
    }
  }

  lemma AllIsComplete(c: seq<bool>, d: Database, done: set<nat>)
    requires AheadAt(c, d, done, |c|)
    ensures Complete(c, InEffect(d.effects)) && CompletedCount(d.rows) == |c|
  {
    DisciplineCloses(c, d.effects);
    CompleteCount(c, InEffect(d.effects));
  }

  /**
   What is reported is so. Success: every step is in effect and counted. Rollback: nothing that can be
   undone is in effect, and the steps counted as executed are those undone and those left.
   */
  lemma ReportsAreRight(c: seq<bool>, s: Script, given: SagaState, db: Database)
    requires Sound(c, db)
    ensures var r := Execute(c, s, given, db); var present := InEffect(r.db.effects);
            && (r.outcome.AllDone? ==> Complete(c, present) && r.outcome.executed == |c|)
            && (r.outcome.RolledBack? ==>
                  NothingToUndo(c, present) && r.outcome.executed == r.outcome.undone + |present|)
  {
    var r, k := Execute(c, s, given, db), Stop(c, s, InEffect(db.effects), 0);
    ExecutionRecords(c, s, given, db);
    if r.outcome.AllDone? {
      StopIsSound(c, s, given, db, k);
      ExecuteIs(c, s, given, db, k);
      AllIsComplete(c, AtTheStop(db, given, k), InEffect(db.effects));
    } else if r.outcome.RolledBack? {
      var m := BackStop(c, s, k);
      BackStopIsSound(c, s, given, db, k, m);
      ExecuteBackIs(c, s, given, db, k, m);
    }
  }

  /**
   After a reported rollback, the outside work of exactly these steps with a compensation stands: the one
   that failed, which is not compensated, and those above it whose work stood before.
   */
  lemma RollbackLeavesOutside(c: seq<bool>, s: Script, given: SagaState, db: Database, j: nat)
    requires Sound(c, db) && j < |c| && c[j] && Execute(c, s, given, db).outcome.RolledBack?
    ensures var k := Stop(c, s, InEffect(db.effects), 0);
            (j in InEffect(Execute(c, s, given, db).db.bodies) <==> j == k || (j > k && j in InEffect(db.bodies)))
  {
    ExecutionRecords(c, s, given, db);
    EveryEnd(c, s, given, db);
  }

  /**
   After a reported success, the outside work of every step stands except that of the steps that were in
   effect before though their compensation had been entered: they are skipped.
   */
  lemma SuccessLeavesOutside(c: seq<bool>, s: Script, given: SagaState, db: Database, j: nat)
    requires Sound(c, db) && j < |c| && Execute(c, s, given, db).outcome.AllDone?
    ensures j in InEffect(Execute(c, s, given, db).db.bodies) <==> j !in InEffect(db.effects) || j in InEffect(db.bodies)
  {
    ExecutionRecords(c, s, given, db);
    EveryEnd(c, s, given, db);
  }

  /**
   So a reported success need not mean that every step's outside work stands. The compensation of the first
   step is entered, its commit is lost, and the next execution skips the step.
   */
  lemma SuccessWithoutStep()
    ensures var c := [true, true];
            var first := Script(Kept, true, (i: nat) => if i == 0 then Succeeds(Kept) else Fails(Kept), true,
                                (_: nat) => Undone(Lost), Kept);
            var db := Execute(c, first, Pending, Empty).db;
            var r := Execute(c, Steady(Succeeds(Kept)), Pending, db);
            r.outcome == AllDone(2) && 0 in InEffect(r.db.effects) && 0 !in InEffect(r.db.bodies)
  {
    var c := [true, true];
    var first := Script(Kept, true, (i: nat) => if i == 0 then Succeeds(Kept) else Fails(Kept), true,
                        (_: nat) => Undone(Lost), Kept);
    var db, second := Execute(c, first, Pending, Empty).db, Steady(Succeeds(Kept));
    assert Stop(c, first, {}, 0) == 1 && BackStop(c, first, 1) == 1;
    EveryEnd(c, first, Pending, Empty);
    assert StandsAfter(c, first, {}, 0) && !OutsideAfter(c, first, {}, {}, 0);
    ExecutionKeepsSound(c, first, Pending, Empty);
    CompletesExactly(c, second, Pending, db);
    ReportsAreRight(c, second, Pending, db);
    SuccessLeavesOutside(c, second, Pending, db, 0);
  }

  // ---------- the stored state ----------

  /** The state the saga's row holds. */
  function Stored(db: Database): SagaState
    requires db.states != []
  {
    db.states[|db.states| - 1]
  }

  lemma StoredIs(c: seq<bool>, s: Script, given: SagaState, db: Database)
    requires Sound(c, db) && s.first.Kept? && s.loads
    ensures var r := Execute(c, s, given, db).db; var end := EndStates(c, s, given, Stop(c, s, InEffect(db.effects), 0));
            r.states != [] && Stored(r) == if end == [] then given else end[|end| - 1]
  {
    ExecutionRecords(c, s, given, db);
  }

  /**
   A step that times out: nothing is compensated, and the state of the context stays stored. What was in
   effect is, and all steps below; of the step itself, only its work outside the database stands.
   */
  lemma TimedOutEnd(c: seq<bool>, s: Script, given: SagaState, db: Database)
    requires Sound(c, db) && Execute(c, s, given, db).outcome.StepTimedOut?
    ensures var r, k, before := Execute(c, s, given, db).db, Stop(c, s, InEffect(db.effects), 0), InEffect(db.effects);
            && k < |c| && s.turns(k).TimesOut?
            && r.states != [] && Stored(r) == given
            && (forall j: nat :: j in InEffect(r.effects) <==> j in before || j < k)
            && k in InEffect(r.bodies)
  {
    ExecutionRecords(c, s, given, db);
    EveryEnd(c, s, given, db);
    StoredIs(c, s, given, db);
  }

  /** Time that is up between two steps: nothing is compensated, and the saga is stored as failed if that is written. */
  lemma ExpiredEnd(c: seq<bool>, s: Script, given: SagaState, db: Database)
    requires Sound(c, db) && Execute(c, s, given, db).outcome.SagaExpired?
    ensures var r, k, before := Execute(c, s, given, db).db, Stop(c, s, InEffect(db.effects), 0), InEffect(db.effects);
            && k < |c| && s.turns(k).Expires?
            && r.states != [] && Stored(r) == (if s.turns(k).mark.Lost? then given else Failed)
            && forall j: nat :: j in InEffect(r.effects) <==> j in before || j < k
  {
    ExecutionRecords(c, s, given, db);
    EveryEnd(c, s, given, db);
    StoredIs(c, s, given, db);
  }

  /**
   A compensation that fails: the steps above it are undone, it and those below it are not, and the saga is
   stored as failed if that is written, else as compensating. Its own outside work counts as undone.
   */
  lemma UndoFailedEnd(c: seq<bool>, s: Script, given: SagaState, db: Database, i: nat)
    requires Sound(c, db) && Execute(c, s, given, db).outcome == UndoFailed(i)
    ensures var r, k, before := Execute(c, s, given, db).db, Stop(c, s, InEffect(db.effects), 0), InEffect(db.effects);
            && i < k < |c| && c[i] && s.undo(i).UndoFails?
            && r.states != [] && Stored(r) == (if s.undo(i).mark.Lost? then Compensating else Failed)
            && (forall j: nat :: j in InEffect(r.effects) <==> (j in before || j < k) && !(i < j < k && c[j]))
            && i !in InEffect(r.bodies)
  {
    ExecutionRecords(c, s, given, db);
    UndoFailsAt(c, s, given, InEffect(db.effects), InEffect(db.bodies), CompletedCount(db.rows), i);
    EveryEnd(c, s, given, db);
    StoredIs(c, s, given, db);
  }

  lemma UndoFailsAt(
    c: seq<bool>, s: Script, given: SagaState, done: set<nat>, outside: set<nat>, count: nat, i: nat)
    requires OutcomeOf(c, s, done, count) == UndoFailed(i)
    ensures var k := Stop(c, s, done, 0); var end := EndStates(c, s, given, k);
            && s.first.Kept? && s.loads && i < k < |c| && c[i] && s.undo(i).UndoFails?
            && end != [] && end[|end| - 1] == (if s.undo(i).mark.Lost? then Compensating else Failed)
            && (forall j: nat :: StandsAfter(c, s, done, j) <==> (j in done || j < k) && !(i < j < k && c[j]))
            && !OutsideAfter(c, s, done, outside, i)
  {
    var k := Stop(c, s, done, 0);
    assert GoesBack(c, s, k) && BackStop(c, s, k) == i + 1;
  }

  /** What the two reports store. */
  lemma ReportsStoreCompleted(c: seq<bool>, s: Script, given: SagaState, db: Database)
    requires Sound(c, db)
    ensures var r := Execute(c, s, given, db);
            r.outcome.AllDone? || r.outcome.RolledBack? ==> r.db.states != [] && Stored(r.db) == Completed
  {
    ExecutionRecords(c, s, given, db);
    if s.first.Kept? && s.loads { StoredIs(c, s, given, db); }
  }

  /**
   An execution leaves the saga stored as failed exactly when its time was up between two steps or a
   compensation failed, and that was written.
   */
  lemma FailedStoredExactly(c: seq<bool>, s: Script, given: SagaState, db: Database)
    requires Sound(c, db) && s.first.Kept? && s.loads && given != Failed
    ensures var r, k := Execute(c, s, given, db).db, Stop(c, s, InEffect(db.effects), 0);
            && r.states != []
            && (Stored(r) == Failed <==>
                  || (k < |c| && s.turns(k).Expires? && !s.turns(k).mark.Lost?)
                  || (GoesBack(c, s, k) && var m := BackStop(c, s, k);
                        m > 0 && s.undo(m - 1).UndoFails? && !s.undo(m - 1).mark.Lost?))
  {
    StoredIs(c, s, given, db);
    EndsFailed(c, s, given, Stop(c, s, InEffect(db.effects), 0));
  }

  lemma EndsFailed(c: seq<bool>, s: Script, given: SagaState, k: nat)
    requires k <= |c| && given != Failed
    ensures var end := EndStates(c, s, given, k);
            (end != [] && end[|end| - 1] == Failed <==>
               || (k < |c| && s.turns(k).Expires? && !s.turns(k).mark.Lost?)
               || (GoesBack(c, s, k) && var m := BackStop(c, s, k);
                     m > 0 && s.undo(m - 1).UndoFails? && !s.undo(m - 1).mark.Lost?))
  {
  }

  // ---------- the guard ----------

  /** Nothing is committed on the way forward. */
  predicate CommitsNothing(c: seq<bool>, s: Script, done: set<nat>) {
    var k := Stop(c, s, done, 0);
    Missing(done, 0, k) == [] && !(k < |c| && Commits(s.turns(k)))
  }

  /** The given states from which what the end of an execution stores is allowed. */
  predicate EndAllowed(c: seq<bool>, s: Script, given: SagaState, k: nat)
    requires k <= |c|
  {
    if k == |c| then s.last.Lost? || given.InProgress? || given.Compensating?
    else
      match s.turns(k)
      case Expires(w) => w.Lost? || given.Compensating?
      case Fails(w) => w.Lost? || given.InProgress?
      case _ => true
  }

  lemma Irreflexive(states: seq<SagaState>, i: nat)
    requires i + 1 < |states| && states[i] == states[i + 1]
    ensures !FollowsGuard(states)
  {
    assert !CanTransitionTo(states[i], states[i + 1]);
  }

  lemma FollowsFrom(given: SagaState, rest: seq<SagaState>)
    ensures FollowsGuard([given] + rest)
       <==> (rest == [] || CanTransitionTo(given, rest[0])) && FollowsGuard(rest)
  {
    var states := [given] + rest;
    if FollowsGuard(states) {
      if rest != [] { assert CanTransitionTo(states[0], states[0 + 1]); }
      forall i | 0 <= i < |rest| - 1 ensures CanTransitionTo(rest[i], rest[i + 1]) {
        assert CanTransitionTo(states[i + 1], states[i + 1 + 1]);
      }
    }
    if (rest == [] || CanTransitionTo(given, rest[0])) && FollowsGuard(rest) {
      forall i | 0 <= i < |states| - 1 ensures CanTransitionTo(states[i], states[i + 1]) {
        if i > 0 { assert CanTransitionTo(rest[i - 1], rest[i - 1 + 1]); }
      }
    }
  }

  lemma EndFollows(c: seq<bool>, s: Script, given: SagaState, k: nat)
    requires k <= |c| && !(k < |c| && Commits(s.turns(k)))
    ensures FollowsGuard([given] + EndStates(c, s, given, k)) <==> EndAllowed(c, s, given, k)
  {
    FollowsFrom(given, EndStates(c, s, given, k));
  }

  /**
   Exactly when the states an execution stores follow the guard of a saga: it commits no step, since every
   commit stores the given state again, and its end is allowed from the given state.
   */
  lemma StatesFollowGuard(c: seq<bool>, s: Script, given: SagaState, done: set<nat>)
    requires s.first.Kept? && s.loads
    ensures FollowsGuard(StatesOf(c, s, given, done))
       <==> CommitsNothing(c, s, done) && EndAllowed(c, s, given, Stop(c, s, done, 0))
  {
    var k := Stop(c, s, done, 0);
    var n, states := |Missing(done, 0, k)|, StatesOf(c, s, given, done);
    if n > 0 {
      Irreflexive(states, 0);
    } else if k < |c| && Commits(s.turns(k)) {
      assert EndStates(c, s, given, k) == [given];
      Irreflexive(states, 0);
    } else {
      assert states == [given] + EndStates(c, s, given, k);
      EndFollows(c, s, given, k);
    }
  }

  /** So a saga that is given as pending, as the poller gives every saga, follows it only by storing nothing more. */
  lemma PolledSagaLeavesGuard(c: seq<bool>, s: Script, done: set<nat>)
    requires s.first.Kept? && s.loads
    ensures FollowsGuard(StatesOf(c, s, Pending, done)) <==> StatesOf(c, s, Pending, done) == [Pending]
  {
    StatesFollowGuard(c, s, Pending, done);
    var k := Stop(c, s, done, 0);
    assert StatesOf(c, s, Pending, done) == [Pending] ==> |Repeated(Pending, |Missing(done, 0, k)|)| == 0;
  }

  // ---------- when an execution gets to its end ----------

  /** The steps from `i` up to `k` that are not done all succeed and are committed. */
  ghost predicate SucceedUpTo(s: Script, done: set<nat>, i: nat, k: nat) {
    forall j | i <= j < k && j !in done :: s.turns(j) == Succeeds(Kept)
  }

  /**
   An execution completes the saga exactly when the database answers and every step that is not in effect
   succeeds. What state the saga is stored in does not matter: a rollback that broke off is resumed by
   executing the steps it had undone.
   */
  lemma CompletesExactly(c: seq<bool>, s: Script, given: SagaState, db: Database)
    requires Sound(c, db)
    ensures Execute(c, s, given, db).outcome == AllDone(|c|)
       <==> s.first.Kept? && s.loads && s.last.Kept? && SucceedUpTo(s, InEffect(db.effects), 0, |c|)
  {
    ExecutionRecords(c, s, given, db);
    ReportsAreRight(c, s, given, db);
  }

  /** The answer where an execution gets to a step that does not succeed and is committed, turn by turn. */
  lemma AnswersExactly(c: seq<bool>, s: Script, given: SagaState, db: Database, k: nat)
    requires Sound(c, db) && ReachesStep(c, s, InEffect(db.effects), k) && s.turns(k) != Succeeds(Kept)
    ensures var answer := Execute(c, s, given, db).outcome;
            && (answer.SagaExpired? <==> s.turns(k).Expires?)
            && (answer.StepTimedOut? <==> s.turns(k).TimesOut?)
            && (answer.UndoFailed? || answer.RolledBack? ==> s.turns(k) == Fails(Kept) && s.reloads)
            && (forall i: nat :: answer == UndoFailed(i) <==>
                  TurnsBackTo(c, s, InEffect(db.effects), k, i) && s.undo(i).UndoFails?)
            && !answer.AllDone?
  {
    ExecutionRecords(c, s, given, db);
    AnswersAt(c, s, InEffect(db.effects), CompletedCount(db.rows), k);
  }

  lemma AnswersAt(c: seq<bool>, s: Script, done: set<nat>, count: nat, k: nat)
    requires ReachesStep(c, s, done, k) && s.turns(k) != Succeeds(Kept)
    ensures var answer := OutcomeOf(c, s, done, count);
            && (answer.SagaExpired? <==> s.turns(k).Expires?)
            && (answer.StepTimedOut? <==> s.turns(k).TimesOut?)
            && (answer.UndoFailed? || answer.RolledBack? ==> s.turns(k) == Fails(Kept) && s.reloads)
            && (forall i: nat :: answer == UndoFailed(i) <==> TurnsBackTo(c, s, done, k, i) && s.undo(i).UndoFails?)
            && !answer.AllDone?
  {
    ReachedIs(c, s, done, k);
    forall i: nat
      ensures OutcomeOf(c, s, done, count) == UndoFailed(i) <==> TurnsBackTo(c, s, done, k, i) && s.undo(i).UndoFails?
    {
      TurnsBackIs(c, s, done, k, i);
    }
  }

  /** The first step that is not done and does not succeed is `f`, it fails, and all below it that can be undone are. */
  ghost predicate RollbackPoint(c: seq<bool>, s: Script, done: set<nat>, f: nat) {
    && f < |c| && f !in done && s.turns(f) == Fails(Kept) && SucceedUpTo(s, done, 0, f)
    && forall j | 0 <= j < f && c[j] :: s.undo(j) == Undone(Kept)
  }

  lemma AnswersRolledBack(c: seq<bool>, s: Script, done: set<nat>, count: nat)
    ensures var k := Stop(c, s, done, 0);
            (OutcomeOf(c, s, done, count).RolledBack?
             <==> s.first.Kept? && s.loads && s.last.Kept? && GoesBack(c, s, k) && BackStop(c, s, k) == 0)
  {
  }

  /**
   An execution reports a rollback exactly when the database answers, the first step that is not in effect
   and does not succeed fails, and every step before it that can be undone is.
   */
  lemma RollsBackExactly(c: seq<bool>, s: Script, given: SagaState, db: Database)
    requires Sound(c, db)
    ensures Execute(c, s, given, db).outcome.RolledBack?
       <==> s.first.Kept? && s.loads && s.reloads && s.last.Kept? && exists f :: RollbackPoint(c, s, InEffect(db.effects), f)
  {
    var done := InEffect(db.effects);
    var k := Stop(c, s, done, 0);
    ExecutionRecords(c, s, given, db);
    AnswersRolledBack(c, s, done, CompletedCount(db.rows));
    if f: nat :| RollbackPoint(c, s, done, f) {
      assert f == k;
    }
    if k < |c| && s.turns(k) == Fails(Kept) && BackStop(c, s, k) == 0 {
      assert RollbackPoint(c, s, done, k);
    }
  }
}
