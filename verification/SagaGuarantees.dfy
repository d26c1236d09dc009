/**
 What executions of a saga on the database guarantee, one by one and in any number, and what they do
 not.
 */
module SagaGuarantees {
  import opened SagaStates
  import opened SagaHistories
  import opened SagaTransactions
  import opened SagaExecutions

  // ---------- one execution, step by step ----------

  /** The tables agree with what one stop adds to them. */
  ghost predicate Adds(d: Database, after: Database, states: seq<SagaState>, effects: seq<Effect>, bodies: seq<Effect>) {
    after.states == d.states + states && after.effects == d.effects + effects && after.bodies == d.bodies + bodies
  }

  lemma SameTables(c: seq<bool>, d: Database, e: Database)
    requires Sound(c, d) && e.rows == d.rows && e.effects == d.effects
    ensures Sound(c, e)
  {
  }

  lemma StopAdds(c: seq<bool>, s: Script, given: SagaState, d: Database, executed: nat, k: nat)
    requires k <= |c| && (k < |c| ==> s.turns(k) != Succeeds(Kept)) && !GoesBack(c, s, k)
    ensures Adds(d, AtStop(c, s, given, d, executed, k).db,
                 EndStates(c, s, given, k), EndEffects(c, s, k), EndBodies(c, s, k))
  {
  }

  lemma DoAtStop(c: seq<bool>, given: SagaState, d: Database, done: set<nat>, k: nat, w: Write)
    requires AheadAt(c, d, done, k) && k < |c| && k !in done
    ensures Sound(c, DoStep(d, k, given, w))
  {
    NextIsAllowed(c, d.effects, k);
    DoKeepsSound(c, d, k, given, w);
  }

  lemma StopLeavesTables(c: seq<bool>, s: Script, given: SagaState, d: Database, executed: nat, k: nat)
    requires k <= |c| && (k < |c| ==> !s.turns(k).Succeeds?) && !GoesBack(c, s, k)
    ensures var r := AtStop(c, s, given, d, executed, k).db; r.rows == d.rows && r.effects == d.effects
  {
  }

  lemma StopKeepsSound(
    c: seq<bool>, s: Script, given: SagaState, d: Database, done: set<nat>, executed: nat, k: nat, r: Database)
    requires AheadAt(c, d, done, k) && (k < |c| ==> k !in done) && !GoesBack(c, s, k)
    requires r == AtStop(c, s, given, d, executed, k).db
    ensures Sound(c, r)
  {
    if k < |c| && s.turns(k).Succeeds? {
      DoAtStop(c, given, d, done, k, s.turns(k).commit);
    } else {
      StopLeavesTables(c, s, given, d, executed, k);
      SameTables(c, d, r);
    }
  }

  lemma BackStopAdds(s: Script, d: Database, executed: nat, undone: nat, m: nat)
    requires m > 0 ==> s.undo(m - 1) != Undone(Kept)
    ensures var at := if m > 0 then m - 1 else 0;
            Adds(d, AtBackStop(s, d, executed, undone, m).db, BackStates(s, m),
                 When(m > 0 && CommitsUndo(s.undo(at)), Undid(at)), When(m > 0 && EntersUndo(s.undo(at)), Undid(at)))
  {
  }

  lemma UndoAtStop(c: seq<bool>, d: Database, undone: nat, total: nat, m: nat, w: Write)
    requires BackAt(c, d, m, undone, total) && m > 0 && c[m - 1]
    ensures Sound(c, UndoStep(d, m - 1, w))
  {
    UndoneFromStep(c, InEffect(d.effects), m);
    UndoKeepsSound(c, d, m - 1, w);
  }

  lemma BackStopLeavesTables(s: Script, d: Database, executed: nat, undone: nat, m: nat)
    requires m > 0 ==> !s.undo(m - 1).Undone?
    ensures var r := AtBackStop(s, d, executed, undone, m).db; r.rows == d.rows && r.effects == d.effects
  {
  }

  lemma BackStopKeepsSound(
    c: seq<bool>, s: Script, d: Database, executed: nat, undone: nat, total: nat, m: nat, r: Database)
    requires BackAt(c, d, m, undone, total) && (m > 0 ==> c[m - 1])
    requires r == AtBackStop(s, d, executed, undone, m).db
    ensures Sound(c, r)
  {
    if m > 0 && s.undo(m - 1).Undone? {
      UndoAtStop(c, d, undone, total, m, s.undo(m - 1).commit);
    } else {
      BackStopLeavesTables(s, d, executed, undone, m);
      SameTables(c, d, r);
    }
  }

  lemma JoinEffects(a: seq<Effect>, x: seq<Effect>, y: seq<Effect>)
    ensures a + x + y == a + (x + y)
  {
  }

  lemma JoinStates(a: seq<SagaState>, x: seq<SagaState>, y: seq<SagaState>)
    ensures a + x + y == a + (x + y)
  {
  }

  /** What two stretches of an execution add, they add together. */
  lemma AddsUp(
    a: Database, b: Database, d: Database, s1: seq<SagaState>, s2: seq<SagaState>, e1: seq<Effect>, e2: seq<Effect>,
    b1: seq<Effect>, b2: seq<Effect>)
    requires Adds(a, b, s1, e1, b1) && Adds(b, d, s2, e2, b2)
    ensures Adds(a, d, s1 + s2, e1 + e2, b1 + b2)
  {
    JoinStates(a.states, s1, s2);
    JoinEffects(a.effects, e1, e2);
    JoinEffects(a.bodies, b1, b2);
  }

  lemma WayForwardAdds(db: Database, given: SagaState, k: nat)
    ensures var steps := Missing(InEffect(db.effects), 0, k);
            Adds(db, AtTheStop(db, given, k), [given] + Repeated(given, |steps|), Dids(steps), Dids(steps))
  {
    JoinStates(db.states, [given], Repeated(given, |Missing(InEffect(db.effects), 0, k)|));
  }

  lemma WayBackAdds(c: seq<bool>, db: Database, given: SagaState, m: nat, k: nat)
    requires m <= k <= |c|
    ensures var undone := Undids(Undoable(c, m, k));
            Adds(AtTheStop(db, given, k), AtTheBackStop(c, db, given, m, k), [Compensating], undone, [Did(k)] + undone)
  {
    JoinEffects(AtTheStop(db, given, k).bodies, [Did(k)], Undids(Undoable(c, m, k)));
  }

  /** What an execution adds to the tables, and what it answers. */
  ghost predicate Records(c: seq<bool>, s: Script, given: SagaState, db: Database, r: Execution) {
    var done := InEffect(db.effects);
    && Adds(db, r.db, StatesOf(c, s, given, done), EffectsOf(c, s, done), BodiesOf(c, s, done))
    && r.outcome == OutcomeOf(c, s, done, CompletedCount(db.rows))
  }

  lemma StopAnswers(c: seq<bool>, s: Script, given: SagaState, d: Database, count: nat, done: set<nat>, k: nat)
    requires s.first.Kept? && s.loads && k == Stop(c, s, done, 0) && !GoesBack(c, s, k)
    ensures AtStop(c, s, given, d, count + |Missing(done, 0, k)|, k).outcome == OutcomeOf(c, s, done, count)
  {
  }

  lemma AddsForward(c: seq<bool>, s: Script, given: SagaState, db: Database, k: nat, after: Database)
    requires s.first.Kept? && s.loads && k == Stop(c, s, InEffect(db.effects), 0)
    requires Adds(AtTheStop(db, given, k), after, EndStates(c, s, given, k), EndEffects(c, s, k), EndBodies(c, s, k))
    ensures var done := InEffect(db.effects);
            Adds(db, after, StatesOf(c, s, given, done), EffectsOf(c, s, done), BodiesOf(c, s, done))
  {
    var steps := Missing(InEffect(db.effects), 0, k);
    WayForwardAdds(db, given, k);
    AddsUp(db, AtTheStop(db, given, k), after, [given] + Repeated(given, |steps|), EndStates(c, s, given, k),
           Dids(steps), EndEffects(c, s, k), Dids(steps), EndBodies(c, s, k));
  }

  lemma RecordsForward(c: seq<bool>, s: Script, given: SagaState, db: Database, k: nat, r: Execution)
    requires Sound(c, db) && s.first.Kept? && s.loads && k == Stop(c, s, InEffect(db.effects), 0) && !GoesBack(c, s, k)
    requires r == Execute(c, s, given, db)
    ensures Records(c, s, given, db, r)
  {
    var d := AtTheStop(db, given, k);
    ExecuteIs(c, s, given, db, k);
    CountAtTheStop(db, given, k);
    StopAnswers(c, s, given, d, CompletedCount(db.rows), InEffect(db.effects), k);
    StopAdds(c, s, given, d, CompletedCount(d.rows), k);
    AddsForward(c, s, given, db, k, r.db);
  }

  lemma BackStopAnswers(c: seq<bool>, s: Script, d: Database, count: nat, done: set<nat>, k: nat, m: nat)
    requires s.first.Kept? && s.loads && k == Stop(c, s, done, 0) && GoesBack(c, s, k) && m == BackStop(c, s, k)
    ensures AtBackStop(s, d, count + |Missing(done, 0, k)|, |Undoable(c, m, k)|, m).outcome == OutcomeOf(c, s, done, count)
  {
  }

  lemma AddsBack(c: seq<bool>, s: Script, given: SagaState, db: Database, k: nat, m: nat, after: Database, at: nat)
    requires k <= |c| && GoesBack(c, s, k) && m == BackStop(c, s, k) && at == (if m > 0 then m - 1 else 0)
    requires Adds(AtTheBackStop(c, db, given, m, k), after, BackStates(s, m),
                  When(m > 0 && CommitsUndo(s.undo(at)), Undid(at)), When(m > 0 && EntersUndo(s.undo(at)), Undid(at)))
    ensures Adds(AtTheStop(db, given, k), after, EndStates(c, s, given, k), EndEffects(c, s, k), EndBodies(c, s, k))
  {
    var undone, last := Undids(Undoable(c, m, k)), When(m > 0 && EntersUndo(s.undo(at)), Undid(at));
    WayBackAdds(c, db, given, m, k);
    AddsUp(AtTheStop(db, given, k), AtTheBackStop(c, db, given, m, k), after, [Compensating], BackStates(s, m),
           undone, When(m > 0 && CommitsUndo(s.undo(at)), Undid(at)), [Did(k)] + undone, last);
    JoinEffects([Did(k)], undone, last);
  }

  lemma BackRecords(
    c: seq<bool>, s: Script, given: SagaState, db: Database, k: nat, m: nat, d: Database, executed: nat, r: Execution)
    requires s.first.Kept? && s.loads && k == Stop(c, s, InEffect(db.effects), 0) && GoesBack(c, s, k) && m == BackStop(c, s, k)
    requires d == AtTheBackStop(c, db, given, m, k)
    requires executed == CompletedCount(db.rows) + |Missing(InEffect(db.effects), 0, k)|
    requires r == AtBackStop(s, d, executed, |Undoable(c, m, k)|, m)
    ensures Records(c, s, given, db, r)
  {
    BackStopAnswers(c, s, d, CompletedCount(db.rows), InEffect(db.effects), k, m);
    BackStopAdds(s, d, executed, |Undoable(c, m, k)|, m);
    AddsBack(c, s, given, db, k, m, r.db, if m > 0 then m - 1 else 0);
    AddsForward(c, s, given, db, k, r.db);
  }

  lemma RecordsBack(c: seq<bool>, s: Script, given: SagaState, db: Database, k: nat, m: nat, r: Execution)
    requires Sound(c, db) && s.first.Kept? && s.loads && k == Stop(c, s, InEffect(db.effects), 0)
    requires GoesBack(c, s, k) && m == BackStop(c, s, k) && r == Execute(c, s, given, db)
    ensures Records(c, s, given, db, r)
  {
    ExecuteBackIs(c, s, given, db, k, m);
    CountAtTheStop(db, given, k);
    BackRecords(c, s, given, db, k, m, AtTheBackStop(c, db, given, m, k), CompletedCount(AtTheStop(db, given, k).rows), r);
  }

  /**
   One execution of sound tables, whatever it meets: the committed steps, the entered bodies, the stored
   states and the answer are those that its two stops determine.
   */
  lemma ExecutionRecords(c: seq<bool>, s: Script, given: SagaState, db: Database)
    requires Sound(c, db)
    ensures Records(c, s, given, db, Execute(c, s, given, db))
  {
    if s.first.Kept? && s.loads {
      var k := Stop(c, s, InEffect(db.effects), 0);
      if GoesBack(c, s, k) {
        RecordsBack(c, s, given, db, k, BackStop(c, s, k), Execute(c, s, given, db));
      } else {
        RecordsForward(c, s, given, db, k, Execute(c, s, given, db));
      }
    } else {
      RecordsNothing(c, s, given, db);
    }
  }

  lemma RecordsNothing(c: seq<bool>, s: Script, given: SagaState, db: Database)
    requires !(s.first.Kept? && s.loads)
    ensures Records(c, s, given, db, Execute(c, s, given, db))
  {
  }

  /** And the tables stay sound. */
  lemma ExecutionKeepsSound(c: seq<bool>, s: Script, given: SagaState, db: Database)
    requires Sound(c, db)
    ensures Sound(c, Execute(c, s, given, db).db)
  {
    var r := Execute(c, s, given, db).db;
    if s.first.Kept? && s.loads {
      var k := Stop(c, s, InEffect(db.effects), 0);
      var executed := CompletedCount(AtTheStop(db, given, k).rows);
      StopIsSound(c, s, given, db, k);
      if GoesBack(c, s, k) {
        var m := BackStop(c, s, k);
        ExecuteBackIs(c, s, given, db, k, m);
        BackStopIsSound(c, s, given, db, k, m);
        BackStopKeepsSound(
          c, s, AtTheBackStop(c, db, given, m, k), executed, |Undoable(c, m, k)|, executed, m, r);
      } else {
        ExecuteIs(c, s, given, db, k);
        StopKeepsSound(c, s, given, AtTheStop(db, given, k), InEffect(db.effects), executed, k, r);
      }
    } else {
      SameTables(c, db, r);
    }
  }

  // ---------- bodies run in vain ----------

  lemma WhenSplits(enters: bool, commits: bool, e: Effect)
    requires commits ==> enters
    ensures multiset(When(enters, e)) == multiset(When(commits, e)) + multiset(When(enters && !commits, e))
  {
  }

  lemma BackBodiesSplit(c: seq<bool>, s: Script, k: nat, m: nat)
    requires m <= k <= |c|
    ensures multiset(BackBodies(c, s, k, m)) == multiset(BackEffects(c, s, k, m)) + multiset(BackWasted(s, m))
    ensures BackWasted(s, m) == [] ==> BackBodies(c, s, k, m) == BackEffects(c, s, k, m)
  {
    if m > 0 {
      WhenSplits(EntersUndo(s.undo(m - 1)), CommitsUndo(s.undo(m - 1)), Undid(m - 1));
    }
  }

  lemma SplitBehind(e: Effect, bodies: seq<Effect>, effects: seq<Effect>, wasted: seq<Effect>)
    requires multiset(bodies) == multiset(effects) + multiset(wasted)
    ensures multiset([e] + bodies) == multiset(effects) + multiset([e] + wasted)
  {
  }

  lemma EndBodiesSplit(c: seq<bool>, s: Script, k: nat)
    requires k <= |c|
    ensures multiset(EndBodies(c, s, k)) == multiset(EndEffects(c, s, k)) + multiset(EndWasted(c, s, k))
    ensures EndWasted(c, s, k) == [] ==> EndBodies(c, s, k) == EndEffects(c, s, k)
    ensures |EndWasted(c, s, k)| <= 2
  {
    if GoesBack(c, s, k) {
      var m := BackStop(c, s, k);
      BackBodiesSplit(c, s, k, m);
      SplitBehind(Did(k), BackBodies(c, s, k, m), BackEffects(c, s, k, m), BackWasted(s, m));
    } else if k < |c| {
      WhenSplits(Enters(s.turns(k)), Commits(s.turns(k)), Did(k));
    }
  }

  /** In one execution, the bodies entered are those committed and those run in vain, of which there are at most two. */
  lemma BodiesSplit(c: seq<bool>, s: Script, done: set<nat>)
    ensures multiset(BodiesOf(c, s, done)) == multiset(EffectsOf(c, s, done)) + multiset(WastedBy(c, s, done))
    ensures WastedBy(c, s, done) == [] ==> BodiesOf(c, s, done) == EffectsOf(c, s, done)
    ensures |WastedBy(c, s, done)| <= 2
  {
    if s.first.Kept? && s.loads {
      EndBodiesSplit(c, s, Stop(c, s, done, 0));
    }
  }

  // ---------- any number of executions ----------

  datatype Call = Call(script: Script, given: SagaState)

  function AfterAll(c: seq<bool>, calls: seq<Call>): Database {
    if calls == [] then Empty
    else Execute(c, calls[|calls| - 1].script, calls[|calls| - 1].given, AfterAll(c, calls[..|calls| - 1])).db
  }

  /** The bodies all the calls ran in vain, each by the steps in effect when it was called. */
  function WastedIn(c: seq<bool>, calls: seq<Call>): seq<Effect> {
    if calls == [] then []
    else
      var init := calls[..|calls| - 1];
      WastedIn(c, init) + WastedBy(c, calls[|calls| - 1].script, InEffect(AfterAll(c, init).effects))
  }

  lemma {:induction false} StaysSound(c: seq<bool>, calls: seq<Call>)
    ensures Sound(c, AfterAll(c, calls))
  {
    if calls != [] {
      var init, last := calls[..|calls| - 1], calls[|calls| - 1];
      StaysSound(c, init);
      ExecutionKeepsSound(c, last.script, last.given, AfterAll(c, init));
    }
  }

  /**
   However often a saga is executed, and wherever each execution broke off: no step is committed twice
   without having been undone in between, steps are undone in the reverse of the order in which they were
   committed, and the completed rows are exactly the committed steps in effect, each once.
   */
  lemma ExactlyOnce(c: seq<bool>, calls: seq<Call>, i: nat)
    ensures var db := AfterAll(c, calls);
            && Disciplined(c, db.effects)
            && CompletedSteps(db.rows) == InEffect(db.effects)
            && CompletedCount(db.rows) == |InEffect(db.effects)|
            && multiset(db.effects)[Did(i)]
               == multiset(db.effects)[Undid(i)] + (if Row(i, StepCompleted) in db.rows then 1 else 0)
  {
    StaysSound(c, calls);
    CompletedAre(AfterAll(c, calls).rows, i);
    DoneOnce(c, AfterAll(c, calls).effects, i);
  }

  /**
   The bodies entered in all executions are those that were committed and those run in vain, at most two
   an execution: the step at which it stopped and the compensation at which it stopped.
   */
  lemma {:induction false} BodiesAccount(c: seq<bool>, calls: seq<Call>)
    ensures var db := AfterAll(c, calls);
            multiset(db.bodies) == multiset(db.effects) + multiset(WastedIn(c, calls))
    ensures |WastedIn(c, calls)| <= 2 * |calls|
  {
    if calls != [] {
      var init, last := calls[..|calls| - 1], calls[|calls| - 1];
      BodiesAccount(c, init);
      StaysSound(c, init);
      ExecutionRecords(c, last.script, last.given, AfterAll(c, init));
      BodiesSplit(c, last.script, InEffect(AfterAll(c, init).effects));
    }
  }

  /**
   The body of a step, or of a compensation, runs once for each time it is committed if and only if it is
   never run in vain. In any case the body of a step runs once for each time the step was undone, once
   more if it is in effect, and once for each run in vain.
   */
  lemma RunsOncePerCommit(c: seq<bool>, calls: seq<Call>, i: nat)
    ensures var db := AfterAll(c, calls); var wasted := multiset(WastedIn(c, calls));
            && (multiset(db.bodies)[Did(i)] == multiset(db.effects)[Did(i)] <==> Did(i) !in WastedIn(c, calls))
            && (multiset(db.bodies)[Undid(i)] == multiset(db.effects)[Undid(i)] <==> Undid(i) !in WastedIn(c, calls))
            && multiset(db.bodies)[Did(i)]
               == multiset(db.effects)[Undid(i)] + (if i in InEffect(db.effects) then 1 else 0) + wasted[Did(i)]
  {
    BodiesAccount(c, calls);
    StaysSound(c, calls);
    DoneOnce(c, AfterAll(c, calls).effects, i);
  }

  /** The bodies entered are the steps committed, one for one and in the same order, exactly when none is run in vain. */
  lemma {:induction false} NothingInVain(c: seq<bool>, calls: seq<Call>)
    ensures AfterAll(c, calls).bodies == AfterAll(c, calls).effects <==> WastedIn(c, calls) == []
  {
    BodiesAccount(c, calls);
    var db := AfterAll(c, calls);
    assert |multiset(db.bodies)| == |multiset(db.effects)| + |multiset(WastedIn(c, calls))|;
    if WastedIn(c, calls) == [] && calls != [] {
      var init, last := calls[..|calls| - 1], calls[|calls| - 1];
      NothingInVain(c, init);
      StaysSound(c, init);
      ExecutionRecords(c, last.script, last.given, AfterAll(c, init));
      BodiesSplit(c, last.script, InEffect(AfterAll(c, init).effects));
    }
  }

  /** A script in which the database answers and every turn is the same. */
  function Steady(turn: Turn): Script {
    Script(Kept, true, (_: nat) => turn, true, (_: nat) => Undone(Kept), Kept)
  }

  /** A lost commit: the one step of a saga is committed once, and its body runs twice. */
  lemma LostCommitRunsTwice()
    ensures var calls := [Call(Steady(Succeeds(Lost)), Pending), Call(Steady(Succeeds(Kept)), Pending)];
            var db := AfterAll([true], calls);
            db.effects == [Did(0)] && db.bodies == [Did(0), Did(0)] && WastedIn([true], calls) == [Did(0)]
  {
    var c, first, second := [true], Call(Steady(Succeeds(Lost)), Pending), Call(Steady(Succeeds(Kept)), Pending);
    assert [first, second][..1] == [first];
    assert [first][..0] == [];
    LostStep();
    StaysSound(c, [first]);
    ExecutionRecords(c, second.script, Pending, AfterAll(c, [first]));
    KeptStep();
  }

  lemma LostStep()
    ensures var s := Steady(Succeeds(Lost)); var after := AfterAll([true], [Call(s, Pending)]);
            after.effects == [] && after.bodies == [Did(0)] && WastedBy([true], s, {}) == [Did(0)]
  {
    var s := Steady(Succeeds(Lost));
    assert [Call(s, Pending)][..0] == [];
    ExecutionRecords([true], s, Pending, Empty);
    assert Stop([true], s, {}, 0) == 0;
    assert Missing({}, 0, 0) == [] && Dids([]) == [];
    assert EndBodies([true], s, 0) == [Did(0)] && EndEffects([true], s, 0) == [];
  }

  lemma KeptStep()
    ensures var s := Steady(Succeeds(Kept));
            EffectsOf([true], s, {}) == BodiesOf([true], s, {}) == [Did(0)] && WastedBy([true], s, {}) == []
  {
    var s := Steady(Succeeds(Kept));
    assert Stop([true], s, {}, 0) == 1;
    assert Missing({}, 0, 1) == [0] && Dids([0]) == [Did(0)];
  }
}
