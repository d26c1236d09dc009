/**
 What an execution of a saga on the database comes to. It is determined by where the way forward stops
 and where the way back stops; from these two steps follow, for every script, the outcome, the states
 stored, what is in effect, and which bodies were run in vain.
 */
module SagaExecutions {
  import opened SagaStates
  import opened SagaHistories
  import opened SagaTransactions

  // ---------- where an execution stops ----------

  /** The first step from `i` on that is not done and does not succeed, or the end. */
  function Stop(c: seq<bool>, s: Script, done: set<nat>, i: nat): (k: nat)
    requires i <= |c|
    ensures i <= k <= |c|
    ensures forall j | i <= j < k && j !in done :: s.turns(j) == Succeeds(Kept)
    ensures k < |c| ==> k !in done && s.turns(k) != Succeeds(Kept)
    decreases |c| - i
  {
    if i < |c| && (i in done || s.turns(i) == Succeeds(Kept)) then Stop(c, s, done, i + 1) else i
  }

  /** One above the last step below `k` that should be undone and is not, or zero. */
  function BackStop(c: seq<bool>, s: Script, k: nat): (m: nat)
    requires k <= |c|
    ensures m <= k
    ensures forall j | m <= j < k && c[j] :: s.undo(j) == Undone(Kept)
    ensures m > 0 ==> c[m - 1] && s.undo(m - 1) != Undone(Kept)
  {
    if k > 0 && (!c[k - 1] || s.undo(k - 1) == Undone(Kept)) then BackStop(c, s, k - 1) else k
  }

  /** The steps from `i` up to `k` that are not done. */
  function Missing(done: set<nat>, i: nat, k: nat): seq<nat>
    requires i <= k
    decreases k - i
  {
    if i == k then [] else (if i in done then [] else [i]) + Missing(done, i + 1, k)
  }

  /** The steps below `k` and not below `m` that have a compensation, last step first. */
  function Undoable(c: seq<bool>, m: nat, k: nat): seq<nat>
    requires m <= k <= |c|
    decreases k
  {
    if m == k then [] else (if c[k - 1] then [k - 1] else []) + Undoable(c, m, k - 1)
  }

  lemma MissingStep(done: set<nat>, i: nat, k: nat)
    requires i < k
    ensures Missing(done, i, k) == if i in done then Missing(done, i + 1, k) else [i] + Missing(done, i + 1, k)
  {
  }

  lemma UndoableStep(c: seq<bool>, m: nat, k: nat)
    requires m < k <= |c|
    ensures Undoable(c, m, k) == if c[k - 1] then [k - 1] + Undoable(c, m, k - 1) else Undoable(c, m, k - 1)
  {
  }

  lemma {:induction false} MissingHas(done: set<nat>, i: nat, k: nat)
    requires i <= k
    ensures forall j :: j in Missing(done, i, k) <==> i <= j < k && j !in done
    decreases k - i
  {
    if i < k {
      MissingHas(done, i + 1, k);
      var rest := Missing(done, i + 1, k);
      forall j ensures j in Missing(done, i, k) <==> (j == i && i !in done) || j in rest {
        assert Missing(done, i, k) == (if i in done then [] else [i]) + rest;
      }
    }
  }

  lemma {:induction false} UndoableHas(c: seq<bool>, m: nat, k: nat)
    requires m <= k <= |c|
    ensures forall j :: j in Undoable(c, m, k) <==> m <= j < k && c[j]
    decreases k
  {
    if m < k {
      UndoableHas(c, m, k - 1);
      var rest := Undoable(c, m, k - 1);
      forall j ensures j in Undoable(c, m, k) <==> (j == k - 1 && c[k - 1]) || j in rest {
        assert Undoable(c, m, k) == (if c[k - 1] then [k - 1] else []) + rest;
      }
    }
  }

  lemma {:induction false} MissingOnce(done: set<nat>, i: nat, k: nat, j: nat)
    requires i <= k
    ensures multiset(Dids(Missing(done, i, k)))[Did(j)] == if i <= j < k && j !in done then 1 else 0
    decreases k - i
  {
    if i < k {
      MissingOnce(done, i + 1, k, j);
      MissingStep(done, i, k);
      if i !in done {
        assert Dids([i] + Missing(done, i + 1, k)) == [Did(i)] + Dids(Missing(done, i + 1, k));
      }
    }
  }

  lemma {:induction false} UndoableOnce(c: seq<bool>, m: nat, k: nat, j: nat)
    requires m <= k <= |c|
    ensures multiset(Undids(Undoable(c, m, k)))[Undid(j)] == if m <= j < k && c[j] then 1 else 0
    decreases k
  {
    if m < k {
      UndoableOnce(c, m, k - 1, j);
      UndoableStep(c, m, k);
      if c[k - 1] {
        assert Undids([k - 1] + Undoable(c, m, k - 1)) == [Undid(k - 1)] + Undids(Undoable(c, m, k - 1));
      }
    }
  }

  // ---------- the way there and back ----------

  function CompletedRows(steps: seq<nat>): seq<Row> {
    seq(|steps|, k requires 0 <= k < |steps| => Row(steps[k], StepCompleted))
  }

  function Repeated(state: SagaState, n: nat): seq<SagaState> {
    seq(n, k requires 0 <= k < n => state)
  }

  /** The tables after some steps were done and committed. */
  function Advance(db: Database, given: SagaState, steps: seq<nat>): Database {
    Database(db.rows + CompletedRows(steps), db.states + Repeated(given, |steps|), db.effects + Dids(steps), db.bodies + Dids(steps))
  }

  function MarkAll(rows: seq<Row>, steps: seq<nat>): seq<Row>
    decreases |steps|
  {
    if steps == [] then rows else MarkAll(Mark(rows, steps[0]), steps[1..])
  }

  /** The tables after some steps were undone and committed. */
  function Retreat(db: Database, steps: seq<nat>): Database {
    Database(MarkAll(db.rows, steps), db.states, db.effects + Undids(steps), db.bodies + Undids(steps))
  }

  lemma AdvanceNone(db: Database, given: SagaState)
    ensures Advance(db, given, []) == db
  {
  }

  lemma AdvanceMore(db: Database, given: SagaState, i: nat, steps: seq<nat>)
    ensures Advance(DoStep(db, i, given, Kept), given, steps) == Advance(db, given, [i] + steps)
  {
    assert CompletedRows([i] + steps) == [Row(i, StepCompleted)] + CompletedRows(steps);
    assert Dids([i] + steps) == [Did(i)] + Dids(steps);
    assert Repeated(given, |[i] + steps|) == [given] + Repeated(given, |steps|);
  }

  lemma RetreatNone(db: Database)
    ensures Retreat(db, []) == db
  {
  }

  lemma RetreatMore(db: Database, i: nat, steps: seq<nat>)
    ensures Retreat(UndoStep(db, i, Kept), steps) == Retreat(db, [i] + steps)
  {
    assert ([i] + steps)[1..] == steps;
    assert Undids([i] + steps) == [Undid(i)] + Undids(steps);
  }

  /** The way forward: all missing steps below the stop are done, then comes what meets the stop. */
  lemma {:induction false} ForwardIs(
    c: seq<bool>, s: Script, given: SagaState, db: Database, done: set<nat>, count: nat, i: nat, k: nat, d: Database,
    executed: nat)
    requires i <= |c| && k == Stop(c, s, done, i)
    requires d == Advance(db, given, Missing(done, i, k)) && executed == count + |Missing(done, i, k)|
    ensures Forward(c, s, given, db, done, count, i) == AtStop(c, s, given, d, executed, k)
    decreases |c| - i
  {
    if i < k { MissingStep(done, i, k); }
    if i < |c| && i in done {
      ForwardIs(c, s, given, db, done, count, i + 1, k, d, executed);
    } else if i < |c| && s.turns(i) == Succeeds(Kept) {
      AdvanceMore(db, given, i, Missing(done, i + 1, k));
      ForwardIs(c, s, given, DoStep(db, i, given, Kept), done, count + 1, i + 1, k, d, executed);
    } else {
      AdvanceNone(db, given);
    }
  }

  /** The steps that can be undone and are done lie below `k`, and are all of them. */
  ghost predicate UndoableBelow(c: seq<bool>, done: set<nat>, k: nat) {
    k <= |c| && forall j | 0 <= j < |c| && c[j] :: j in done <==> j < k
  }

  /** The way back: everything down to the stop that can be undone is, then comes what meets the stop. */
  lemma {:induction false} BackIs(
    c: seq<bool>, s: Script, db: Database, done: set<nat>, executed: nat, undone: nat, k: nat, i: nat, m: nat, d: Database,
    all: nat)
    requires UndoableBelow(c, done, k) && i <= k && m == BackStop(c, s, i)
    requires d == Retreat(db, Undoable(c, m, i)) && all == undone + |Undoable(c, m, i)|
    ensures Back(c, s, db, done, executed, undone, i) == AtBackStop(s, d, executed, all, m)
    decreases i
  {
    if m < i { UndoableStep(c, m, i); }
    if i > 0 && !c[i - 1] {
      BackIs(c, s, db, done, executed, undone, k, i - 1, m, d, all);
    } else if i > 0 && s.undo(i - 1) == Undone(Kept) {
      RetreatMore(db, i - 1, Undoable(c, m, i - 1));
      BackIs(c, s, UndoStep(db, i - 1, Kept), done, executed, undone + 1, k, i - 1, m, d, all);
    } else {
      RetreatNone(db);
    }
  }

  /** Nothing above `k` is undone. */
  lemma {:induction false} BackSkipsDownTo(
    c: seq<bool>, s: Script, db: Database, done: set<nat>, executed: nat, undone: nat, k: nat, i: nat)
    requires UndoableBelow(c, done, k) && k <= i <= |c|
    ensures Back(c, s, db, done, executed, undone, i) == Back(c, s, db, done, executed, undone, k)
    decreases i
  {
    if i > k { BackSkipsDownTo(c, s, db, done, executed, undone, k, i - 1); }
  }

  // ---------- what one execution does ----------

  /** The execution fails at `k`, stores that, and reads what is completed. */
  predicate GoesBack(c: seq<bool>, s: Script, k: nat) {
    k < |c| && s.turns(k) == Fails(Kept) && s.reloads
  }

  predicate Enters(t: Turn) { !t.Expires? && !t.BreaksBefore? }

  predicate Commits(t: Turn) { t.Succeeds? && !t.commit.Lost? }

  predicate EntersUndo(u: Undo) { !u.UndoBreaksBefore? }

  predicate CommitsUndo(u: Undo) { u.Undone? && !u.commit.Lost? }

  function When(b: bool, e: Effect): seq<Effect> { if b then [e] else [] }

  function Unless(w: Write, state: SagaState): seq<SagaState> { if w.Lost? then [] else [state] }

  /** The committed steps and compensations of an execution that finds `done` completed. */
  function EffectsOf(c: seq<bool>, s: Script, done: set<nat>): seq<Effect> {
    if !(s.first.Kept? && s.loads) then []
    else var k := Stop(c, s, done, 0); Dids(Missing(done, 0, k)) + EndEffects(c, s, k)
  }

  function EndEffects(c: seq<bool>, s: Script, k: nat): seq<Effect>
    requires k <= |c|
  {
    if GoesBack(c, s, k) then BackEffects(c, s, k, BackStop(c, s, k))
    else When(k < |c| && Commits(s.turns(k)), Did(k))
  }

  function BackEffects(c: seq<bool>, s: Script, k: nat, m: nat): seq<Effect>
    requires m <= k <= |c|
  {
    Undids(Undoable(c, m, k)) + When(m > 0 && CommitsUndo(s.undo(m - 1)), Undid(if m > 0 then m - 1 else 0))
  }

  /** The bodies it enters. */
  function BodiesOf(c: seq<bool>, s: Script, done: set<nat>): seq<Effect> {
    if !(s.first.Kept? && s.loads) then []
    else var k := Stop(c, s, done, 0); Dids(Missing(done, 0, k)) + EndBodies(c, s, k)
  }

  function EndBodies(c: seq<bool>, s: Script, k: nat): seq<Effect>
    requires k <= |c|
  {
    if GoesBack(c, s, k) then [Did(k)] + BackBodies(c, s, k, BackStop(c, s, k))
    else When(k < |c| && Enters(s.turns(k)), Did(k))
  }

  function BackBodies(c: seq<bool>, s: Script, k: nat, m: nat): seq<Effect>
    requires m <= k <= |c|
  {
    Undids(Undoable(c, m, k)) + When(m > 0 && EntersUndo(s.undo(m - 1)), Undid(if m > 0 then m - 1 else 0))
  }

  /**
   The bodies it runs in vain: that of the step where the way forward stops, if it is entered and not
   committed, and that of the compensation where the way back stops, likewise. There are no others.
   */
  function WastedBy(c: seq<bool>, s: Script, done: set<nat>): seq<Effect> {
    if !(s.first.Kept? && s.loads) then [] else EndWasted(c, s, Stop(c, s, done, 0))
  }

  function EndWasted(c: seq<bool>, s: Script, k: nat): seq<Effect>
    requires k <= |c|
  {
    if GoesBack(c, s, k) then [Did(k)] + BackWasted(s, BackStop(c, s, k))
    else When(k < |c| && Enters(s.turns(k)) && !Commits(s.turns(k)), Did(k))
  }

  function BackWasted(s: Script, m: nat): seq<Effect> {
    When(m > 0 && EntersUndo(s.undo(m - 1)) && !CommitsUndo(s.undo(m - 1)), Undid(if m > 0 then m - 1 else 0))
  }

  /** The states it stores, in order. */
  function StatesOf(c: seq<bool>, s: Script, given: SagaState, done: set<nat>): seq<SagaState> {
    if !(s.first.Kept? && s.loads) then Unless(s.first, given)
    else
      var k := Stop(c, s, done, 0);
      [given] + Repeated(given, |Missing(done, 0, k)|) + EndStates(c, s, given, k)
  }

  function EndStates(c: seq<bool>, s: Script, given: SagaState, k: nat): seq<SagaState>
    requires k <= |c|
  {
    if GoesBack(c, s, k) then [Compensating] + BackStates(s, BackStop(c, s, k))
    else if k == |c| then Unless(s.last, Completed)
    else
      match s.turns(k)
      case Expires(w) => Unless(w, Failed)
      case Succeeds(w) => Unless(w, given)
      case Fails(w) => Unless(w, Compensating)
      case _ => []
  }

  function BackStates(s: Script, m: nat): seq<SagaState> {
    if m == 0 then Unless(s.last, Completed)
    else if s.undo(m - 1).UndoFails? then Unless(s.undo(m - 1).mark, Failed)
    else []
  }

  /** What it answers, if `count` steps are completed at its start. */
  function OutcomeOf(c: seq<bool>, s: Script, done: set<nat>, count: nat): Outcome {
    if !(s.first.Kept? && s.loads) then DatabaseError
    else
      var k := Stop(c, s, done, 0);
      var executed := count + |Missing(done, 0, k)|;
      if k == |c| then (if s.last.Kept? then AllDone(executed) else DatabaseError)
      else if GoesBack(c, s, k) then BackOutcome(c, s, k, executed)
      else
        match s.turns(k)
        case Expires(_) => SagaExpired
        case TimesOut => StepTimedOut
        case _ => DatabaseError
  }

  function BackOutcome(c: seq<bool>, s: Script, k: nat, executed: nat): Outcome
    requires k <= |c|
  {
    var m := BackStop(c, s, k);
    if m == 0 then (if s.last.Kept? then RolledBack(executed, |Undoable(c, 0, k)|) else DatabaseError)
    else if s.undo(m - 1).UndoFails? then UndoFailed(m - 1)
    else DatabaseError
  }

  // ---------- soundness ----------

  /** The rows tell what is in effect, each step once, and the history is disciplined. */
  ghost predicate Sound(c: seq<bool>, db: Database) {
    && Disciplined(c, db.effects)
    && CompletedSteps(db.rows) == InEffect(db.effects)
    && CompletedCount(db.rows) == |InEffect(db.effects)|
  }

  lemma DoKeepsSound(c: seq<bool>, db: Database, i: nat, given: SagaState, w: Write)
    requires Sound(c, db) && i !in InEffect(db.effects) && Allowed(c, InEffect(db.effects), Did(i))
    ensures Sound(c, DoStep(db, i, given, w))
    ensures !w.Lost? ==> InEffect(DoStep(db, i, given, w).effects) == InEffect(db.effects) + {i}
  {
    if !w.Lost? {
      EffectAppend(c, db.effects, Did(i));
      CompletedAppend(db.rows, Row(i, StepCompleted));
    }
  }

  lemma UndoKeepsSound(c: seq<bool>, db: Database, i: nat, w: Write)
    requires Sound(c, db) && i < |c| && c[i] && i in InEffect(db.effects) && TopOf(c, InEffect(db.effects), i)
    ensures Sound(c, UndoStep(db, i, w))
    ensures !w.Lost? ==> InEffect(UndoStep(db, i, w).effects) == InEffect(db.effects) - {i}
  {
    if !w.Lost? {
      EffectAppend(c, db.effects, Undid(i));
      MarkRemoves(db.rows, i);
    }
  }

  /** All steps below `i` are in effect, the others as they were found. */
  ghost predicate DoneBelow(c: seq<bool>, present: set<nat>, done: set<nat>, i: nat) {
    && (forall j | 0 <= j < i :: j in present)
    && (forall j | i <= j :: j in present <==> j in done)
  }

  lemma DoneBelowStep(c: seq<bool>, present: set<nat>, done: set<nat>, i: nat)
    requires DoneBelow(c, present, done, i) && i !in done
    ensures i !in present && DoneBelow(c, present + {i}, done, i + 1)
  {
  }

  lemma DoneBelowSkip(c: seq<bool>, present: set<nat>, done: set<nat>, i: nat)
    requires DoneBelow(c, present, done, i) && i in done
    ensures DoneBelow(c, present, done, i + 1)
  {
  }

  /** The way forward stands at `i`. */
  ghost predicate AheadAt(c: seq<bool>, db: Database, done: set<nat>, i: nat) {
    i <= |c| && Sound(c, db) && DoneBelow(c, InEffect(db.effects), done, i)
  }

  lemma AheadStep(c: seq<bool>, db: Database, given: SagaState, done: set<nat>, i: nat)
    requires AheadAt(c, db, done, i) && i < |c| && i !in done
    ensures AheadAt(c, DoStep(db, i, given, Kept), done, i + 1)
  {
    DoneBelowStep(c, InEffect(db.effects), done, i);
    NextIsAllowed(c, db.effects, i);
    DoKeepsSound(c, db, i, given, Kept);
  }

  lemma AheadSkip(c: seq<bool>, db: Database, done: set<nat>, i: nat)
    requires AheadAt(c, db, done, i) && i < |c| && i in done
    ensures AheadAt(c, db, done, i + 1)
  {
    DoneBelowSkip(c, InEffect(db.effects), done, i);
  }

  lemma {:induction false} AdvanceIsSound(c: seq<bool>, db: Database, given: SagaState, done: set<nat>, i: nat, k: nat)
    requires i <= k <= |c| && AheadAt(c, db, done, i)
    ensures AheadAt(c, Advance(db, given, Missing(done, i, k)), done, k)
    decreases k - i
  {
    if i == k {
      AdvanceNone(db, given);
    } else if i in done {
      MissingStep(done, i, k);
      AheadSkip(c, db, done, i);
      AdvanceIsSound(c, db, given, done, i + 1, k);
    } else {
      MissingStep(done, i, k);
      AheadStep(c, db, given, done, i);
      AdvanceIsSound(c, DoStep(db, i, given, Kept), given, done, i + 1, k);
      AdvanceMore(db, given, i, Missing(done, i + 1, k));
    }
  }

  /** Of the steps that have a compensation, those below `i` are in effect. */
  ghost predicate UndoneFrom(c: seq<bool>, present: set<nat>, i: nat) {
    i <= |c| && forall j | 0 <= j < |c| && c[j] :: j in present <==> j < i
  }

  lemma UndoneFromStep(c: seq<bool>, present: set<nat>, i: nat)
    requires UndoneFrom(c, present, i) && i > 0
    ensures c[i - 1] ==> i - 1 in present && TopOf(c, present, i - 1) && UndoneFrom(c, present - {i - 1}, i - 1)
    ensures !c[i - 1] ==> UndoneFrom(c, present, i - 1)
  {
  }

  /** The way back stands at `i`, and `total` steps were in effect where it began, `undone` of which are not. */
  ghost predicate BackAt(c: seq<bool>, db: Database, i: nat, undone: nat, total: nat) {
    && i <= |c| && Sound(c, db) && UndoneFrom(c, InEffect(db.effects), i)
    && total == undone + |InEffect(db.effects)|
  }

  lemma BackStep(c: seq<bool>, db: Database, i: nat, undone: nat, total: nat)
    requires BackAt(c, db, i, undone, total) && i > 0 && c[i - 1]
    ensures BackAt(c, UndoStep(db, i - 1, Kept), i - 1, undone + 1, total)
  {
    UndoneFromStep(c, InEffect(db.effects), i);
    UndoKeepsSound(c, db, i - 1, Kept);
  }

  lemma BackSkip(c: seq<bool>, db: Database, i: nat, undone: nat, total: nat)
    requires BackAt(c, db, i, undone, total) && i > 0 && !c[i - 1]
    ensures BackAt(c, db, i - 1, undone, total)
  {
    UndoneFromStep(c, InEffect(db.effects), i);
  }

  /** The same way back, one step at a time. */
  ghost function WayBack(c: seq<bool>, db: Database, m: nat, k: nat): Database
    requires m <= k <= |c|
    decreases k
  {
    if m == k then db else WayBack(c, if c[k - 1] then UndoStep(db, k - 1, Kept) else db, m, k - 1)
  }

  lemma RetreatStep(c: seq<bool>, db: Database, m: nat, k: nat, next: Database)
    requires m < k <= |c| && next == if c[k - 1] then UndoStep(db, k - 1, Kept) else db
    ensures Retreat(next, Undoable(c, m, k - 1)) == Retreat(db, Undoable(c, m, k))
  {
    var rest := Undoable(c, m, k - 1);
    assert Undoable(c, m, k) == if c[k - 1] then [k - 1] + rest else rest by { UndoableStep(c, m, k); }
    if c[k - 1] { RetreatMore(db, k - 1, rest); }
  }

  lemma {:induction false} WayBackIs(c: seq<bool>, db: Database, m: nat, k: nat, d: Database)
    requires m <= k <= |c| && d == Retreat(db, Undoable(c, m, k))
    ensures WayBack(c, db, m, k) == d
    decreases k
  {
    if m == k {
      RetreatNone(db);
    } else {
      var next := if c[k - 1] then UndoStep(db, k - 1, Kept) else db;
      RetreatStep(c, db, m, k, next);
      WayBackIs(c, next, m, k - 1, d);
    }
  }

  lemma WayBackOne(c: seq<bool>, db: Database, m: nat, k: nat, undone: nat, total: nat, d: Database, all: nat)
    returns (next: Database, more: nat)
    requires m < k && BackAt(c, db, k, undone, total)
    requires d == WayBack(c, db, m, k) && all == undone + |Undoable(c, m, k)|
    ensures BackAt(c, next, k - 1, more, total)
    ensures d == WayBack(c, next, m, k - 1) && all == more + |Undoable(c, m, k - 1)|
  {
    UndoableStep(c, m, k);
    if c[k - 1] {
      BackStep(c, db, k, undone, total);
      next, more := UndoStep(db, k - 1, Kept), undone + 1;
    } else {
      BackSkip(c, db, k, undone, total);
      next, more := db, undone;
    }
  }

  lemma {:induction false} WayBackKeeps(
    c: seq<bool>, db: Database, m: nat, k: nat, undone: nat, total: nat, d: Database, all: nat)
    requires m <= k && BackAt(c, db, k, undone, total)
    requires d == WayBack(c, db, m, k) && all == undone + |Undoable(c, m, k)|
    ensures BackAt(c, d, m, all, total)
    decreases k
  {
    if m < k {
      var next, more := WayBackOne(c, db, m, k, undone, total, d, all);
      WayBackKeeps(c, next, m, k - 1, more, total, d, all);
    }
  }

  lemma RetreatIsSound(c: seq<bool>, db: Database, m: nat, k: nat, total: nat)
    requires m <= k && BackAt(c, db, k, 0, total)
    ensures BackAt(c, Retreat(db, Undoable(c, m, k)), m, |Undoable(c, m, k)|, total)
  {
    WayBackIs(c, db, m, k, Retreat(db, Undoable(c, m, k)));
    WayBackKeeps(c, db, m, k, 0, total, Retreat(db, Undoable(c, m, k)), |Undoable(c, m, k)|);
  }

  // ---------- the whole execution ----------

  /** The tables when the way forward stops at `k`. */
  function AtTheStop(db: Database, given: SagaState, k: nat): Database {
    Advance(Store(db, given, Kept), given, Missing(InEffect(db.effects), 0, k))
  }

  /** The tables when the way back stops at `m`. */
  function AtTheBackStop(c: seq<bool>, db: Database, given: SagaState, m: nat, k: nat): Database
    requires m <= k <= |c|
  {
    Retreat(Store(Enter(AtTheStop(db, given, k), Did(k)), Compensating, Kept), Undoable(c, m, k))
  }

  /** Before anything is done, the way forward stands at the first step. */
  lemma StartIsAhead(c: seq<bool>, given: SagaState, db: Database)
    requires Sound(c, db)
    ensures AheadAt(c, Store(db, given, Kept), InEffect(db.effects), 0)
  {
  }

  lemma StopIsSound(c: seq<bool>, s: Script, given: SagaState, db: Database, k: nat)
    requires Sound(c, db) && k == Stop(c, s, InEffect(db.effects), 0)
    ensures AheadAt(c, AtTheStop(db, given, k), InEffect(db.effects), k)
  {
    StartIsAhead(c, given, db);
    AdvanceIsSound(c, Store(db, given, Kept), given, InEffect(db.effects), 0, k);
  }

  lemma CountAtTheStop(db: Database, given: SagaState, k: nat)
    ensures CompletedCount(AtTheStop(db, given, k).rows)
         == CompletedCount(db.rows) + |Missing(InEffect(db.effects), 0, k)|
  {
    CountOfRows(db.rows, Missing(InEffect(db.effects), 0, k));
  }

  lemma ExecuteStarts(c: seq<bool>, s: Script, given: SagaState, db: Database)
    requires Sound(c, db) && s.first.Kept? && s.loads
    ensures Execute(c, s, given, db)
         == Forward(c, s, given, Store(db, given, Kept), InEffect(db.effects), CompletedCount(db.rows), 0)
  {
  }

  /** An execution is what meets the stop, with all missing steps below it done. */
  lemma ExecuteIs(c: seq<bool>, s: Script, given: SagaState, db: Database, k: nat)
    requires Sound(c, db) && s.first.Kept? && s.loads && k == Stop(c, s, InEffect(db.effects), 0)
    ensures var d := AtTheStop(db, given, k);
            Execute(c, s, given, db) == AtStop(c, s, given, d, CompletedCount(d.rows), k)
  {
    ExecuteStarts(c, s, given, db);
    CountAtTheStop(db, given, k);
    ForwardIs(c, s, given, Store(db, given, Kept), InEffect(db.effects), CompletedCount(db.rows), 0, k,
              AtTheStop(db, given, k), CompletedCount(AtTheStop(db, given, k).rows));
  }

  lemma {:induction false} CountOfRows(rows: seq<Row>, steps: seq<nat>)
    ensures CompletedCount(rows + CompletedRows(steps)) == CompletedCount(rows) + |steps|
  {
    if steps == [] {
      assert rows + CompletedRows(steps) == rows;
    } else {
      var init, last := steps[..|steps| - 1], steps[|steps| - 1];
      assert rows + CompletedRows(steps) == (rows + CompletedRows(init)) + [Row(last, StepCompleted)];
      CountOfRows(rows, init);
      CompletedAppend(rows + CompletedRows(init), Row(last, StepCompleted));
    }
  }

  lemma UndoableAreBelow(c: seq<bool>, present: set<nat>, done: set<nat>, k: nat)
    requires Closed(c, present) && DoneBelow(c, present, done, k) && k < |c| && k !in done
    ensures UndoneFrom(c, present, k) && UndoableBelow(c, present, k)
  {
  }

  lemma TurningBack(c: seq<bool>, d: Database, done: set<nat>, k: nat)
    requires AheadAt(c, d, done, k) && k < |c| && k !in done
    ensures var next := Store(Enter(d, Did(k)), Compensating, Kept);
            && BackAt(c, next, k, 0, CompletedCount(d.rows))
            && CompletedSteps(next.rows) == InEffect(d.effects)
    ensures UndoableBelow(c, InEffect(d.effects), k)
  {
    DisciplineCloses(c, d.effects);
    UndoableAreBelow(c, InEffect(d.effects), done, k);
  }

  lemma BackStopIsSound(c: seq<bool>, s: Script, given: SagaState, db: Database, k: nat, m: nat)
    requires Sound(c, db) && k == Stop(c, s, InEffect(db.effects), 0) && GoesBack(c, s, k) && m == BackStop(c, s, k)
    ensures BackAt(c, AtTheBackStop(c, db, given, m, k), m, |Undoable(c, m, k)|, CompletedCount(AtTheStop(db, given, k).rows))
  {
    var d := AtTheStop(db, given, k);
    StopIsSound(c, s, given, db, k);
    TurningBack(c, d, InEffect(db.effects), k);
    RetreatIsSound(c, Store(Enter(d, Did(k)), Compensating, Kept), m, k, CompletedCount(d.rows));
  }

  lemma BackFromStop(c: seq<bool>, s: Script, d: Database, done: set<nat>, k: nat, m: nat, executed: nat)
    requires AheadAt(c, d, done, k) && k !in done && GoesBack(c, s, k) && m == BackStop(c, s, k)
    ensures var next := Store(Enter(d, Did(k)), Compensating, Kept);
            AfterFailure(c, s, Enter(d, Did(k)), executed, Kept)
            == AtBackStop(s, Retreat(next, Undoable(c, m, k)), executed, |Undoable(c, m, k)|, m)
  {
    var next := Store(Enter(d, Did(k)), Compensating, Kept);
    TurningBack(c, d, done, k);
    BackSkipsDownTo(c, s, next, InEffect(d.effects), executed, 0, k, |c|);
    BackIs(c, s, next, InEffect(d.effects), executed, 0, k, k, m, Retreat(next, Undoable(c, m, k)), |Undoable(c, m, k)|);
  }

  lemma StopTurnsBack(c: seq<bool>, s: Script, given: SagaState, d: Database, executed: nat, k: nat)
    requires GoesBack(c, s, k)
    ensures AtStop(c, s, given, d, executed, k) == AfterFailure(c, s, Enter(d, Did(k)), executed, Kept)
  {
  }

  /** An execution that goes back is what meets the stop on the way back, with all above it undone. */
  lemma ExecuteBackIs(c: seq<bool>, s: Script, given: SagaState, db: Database, k: nat, m: nat)
    requires Sound(c, db) && s.first.Kept? && s.loads && k == Stop(c, s, InEffect(db.effects), 0)
    requires GoesBack(c, s, k) && m == BackStop(c, s, k)
    ensures Execute(c, s, given, db)
         == AtBackStop(s, AtTheBackStop(c, db, given, m, k), CompletedCount(AtTheStop(db, given, k).rows), |Undoable(c, m, k)|, m)
  {
    var d, e := AtTheStop(db, given, k), AtTheBackStop(c, db, given, m, k);
    var executed := CompletedCount(d.rows);
    assert AfterFailure(c, s, Enter(d, Did(k)), executed, Kept) == AtBackStop(s, e, executed, |Undoable(c, m, k)|, m) by {
      StopIsSound(c, s, given, db, k);
      BackFromStop(c, s, d, InEffect(db.effects), k, m, executed);
    }
    StopTurnsBack(c, s, given, d, executed, k);
    ExecuteIs(c, s, given, db, k);
  }
}
