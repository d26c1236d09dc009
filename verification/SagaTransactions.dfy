/**
 The saga orchestrator that keeps its progress in a database. The completed row of a step, the context
 and what the step wrote through its transaction are committed together, a compensation and its row
 likewise; a later execution skips the steps whose rows are completed. An execution can break off at any
 access to the database, with or without the access having been carried out.
 */
module SagaTransactions {
  import opened SagaStates
  import opened SagaHistories

  /**
   The tables of one saga, and what its steps did. `states` are the states stored in the saga's row, one
   after the other: the row holds the last. `effects` are the steps and compensations whose transactions
   were committed, `bodies` those that were entered at all: what a step does besides writing through its
   transaction, it does whether or not that is committed.
   */
  datatype Database = Database(rows: seq<Row>, states: seq<SagaState>, effects: seq<Effect>, bodies: seq<Effect>)

  const Empty: Database := Database([], [], [], [])

  /** What becomes of a transaction; `KeptUnheard` is committed, but the answer is lost. */
  datatype Write = Kept | Lost | KeptUnheard

  /**
   What meets a step that is not completed yet: the saga's time is up; the database breaks before the
   body is entered; the body succeeds and is committed or not; it succeeds and the database breaks before
   the commit; it fails and the failure is marked or not; it times out. When rolling back a failed body
   breaks, that is a break after the body.
   */
  datatype Turn =
    | Expires(mark: Write)
    | BreaksBefore
    | Succeeds(commit: Write)
    | BreaksAfter
    | Fails(mark: Write)
    | TimesOut

  datatype Undo =
    | UndoBreaksBefore
    | Undone(commit: Write)
    | UndoBreaksAfter
    | UndoFails(mark: Write)

  /** What one execution meets: at its first save, at its two reads, at each step, and at its last write. */
  datatype Script = Script(
    first: Write, loads: bool, turns: nat -> Turn, reloads: bool, undo: nat -> Undo, last: Write)

  datatype Outcome =
    | AllDone(executed: nat)
    | RolledBack(executed: nat, undone: nat)
    | SagaExpired
    | StepTimedOut
    | UndoFailed(step: nat)
    | DatabaseError

  // ---------- transactions ----------

  function Store(db: Database, state: SagaState, w: Write): Database {
    if w.Lost? then db else db.(states := db.states + [state])
  }

  function Enter(db: Database, body: Effect): Database {
    db.(bodies := db.bodies + [body])
  }

  function CommitStep(db: Database, step: nat, given: SagaState, w: Write): Database {
    if w.Lost? then db
    else
      db.(rows := db.rows + [Row(step, StepCompleted)], states := db.states + [given], effects := db.effects + [Did(step)])
  }

  function CommitUndo(db: Database, step: nat, w: Write): Database {
    if w.Lost? then db else db.(rows := Mark(db.rows, step), effects := db.effects + [Undid(step)])
  }

  /** The body of a step, and its commit. */
  function DoStep(db: Database, step: nat, given: SagaState, w: Write): Database {
    CommitStep(Enter(db, Did(step)), step, given, w)
  }

  /** The body of a compensation, and its commit. */
  function UndoStep(db: Database, step: nat, w: Write): Database {
    CommitUndo(Enter(db, Undid(step)), step, w)
  }

  // ---------- one execution ----------

  datatype Execution = Execution(db: Database, outcome: Outcome)

  /** How the way back ends at `m`: at the start, or at step `m - 1`, which could not be undone. */
  function AtBackStop(s: Script, db: Database, executed: nat, undone: nat, m: nat): Execution {
    if m == 0 then
      Execution(Store(db, Completed, s.last), if s.last.Kept? then RolledBack(executed, undone) else DatabaseError)
    else
      match s.undo(m - 1)
      case UndoBreaksBefore => Execution(db, DatabaseError)
      case Undone(w) => Execution(UndoStep(db, m - 1, w), DatabaseError)
      case UndoBreaksAfter => Execution(Enter(db, Undid(m - 1)), DatabaseError)
      case UndoFails(w) => Execution(Store(Enter(db, Undid(m - 1)), Failed, w), UndoFailed(m - 1))
  }

  /** Compensates the steps below `i` that are in `done` and have a compensation, last step first. */
  function Back(c: seq<bool>, s: Script, db: Database, done: set<nat>, executed: nat, undone: nat, i: nat): Execution
    requires i <= |c|
    decreases i
  {
    if i > 0 && (i - 1 !in done || !c[i - 1]) then
      Back(c, s, db, done, executed, undone, i - 1)
    else if i > 0 && s.undo(i - 1) == Undone(Kept) then
      Back(c, s, UndoStep(db, i - 1, Kept), done, executed, undone + 1, i - 1)
    else
      AtBackStop(s, db, executed, undone, i)
  }

  /** Stores that the saga is compensating, and goes back over the completed steps. */
  function AfterFailure(c: seq<bool>, s: Script, db: Database, executed: nat, w: Write): Execution {
    var next := Store(db, Compensating, w);
    if w.Kept? && s.reloads then Back(c, s, next, CompletedSteps(next.rows), executed, 0, |c|)
    else Execution(next, DatabaseError)
  }

  /** How the way forward ends at `k`: after the last step, or at one that did not succeed. */
  function AtStop(c: seq<bool>, s: Script, given: SagaState, db: Database, executed: nat, k: nat): Execution
    requires k <= |c|
  {
    if k == |c| then
      Execution(Store(db, Completed, s.last), if s.last.Kept? then AllDone(executed) else DatabaseError)
    else
      match s.turns(k)
      case Expires(w) => Execution(Store(db, Failed, w), SagaExpired)
      case BreaksBefore => Execution(db, DatabaseError)
      case Succeeds(w) => Execution(DoStep(db, k, given, w), DatabaseError)
      case BreaksAfter => Execution(Enter(db, Did(k)), DatabaseError)
      case Fails(w) => AfterFailure(c, s, Enter(db, Did(k)), executed, w)
      case TimesOut => Execution(Enter(db, Did(k)), StepTimedOut)
  }

  /** Executes the steps from `i` on that are not in `done`. */
  function Forward(
    c: seq<bool>, s: Script, given: SagaState, db: Database, done: set<nat>, executed: nat, i: nat): Execution
    requires i <= |c|
    decreases |c| - i
  {
    if i < |c| && i in done then
      Forward(c, s, given, db, done, executed, i + 1)
    else if i < |c| && s.turns(i) == Succeeds(Kept) then
      Forward(c, s, given, DoStep(db, i, given, Kept), done, executed + 1, i + 1)
    else
      AtStop(c, s, given, db, executed, i)
  }

  function Execute(c: seq<bool>, s: Script, given: SagaState, db: Database): Execution {
    var next := Store(db, given, s.first);
    if s.first.Kept? && s.loads then Forward(c, s, given, next, CompletedSteps(next.rows), CompletedCount(next.rows), 0)
    else Execution(next, DatabaseError)
  }

  // ---------- the tables ----------

  class SagaTables {
    var rows: seq<Row>
    var states: seq<SagaState>
    var effects: seq<Effect>
    var bodies: seq<Effect>

    ghost function View(): Database
      reads this
    {
      Database(rows, states, effects, bodies)
    }

    constructor ()
      ensures View() == Empty
    {
      rows, states, effects, bodies := [], [], [], [];
    }

    method SaveState(state: SagaState, w: Write)
      modifies this
      ensures View() == Store(old(View()), state, w)
    {
      if !w.Lost? { states := states + [state]; }
    }

    method EnterBody(body: Effect)
      modifies this
      ensures View() == Enter(old(View()), body)
    {
      bodies := bodies + [body];
    }

    method SaveStep(step: nat, given: SagaState, w: Write)
      modifies this
      ensures View() == CommitStep(old(View()), step, given, w)
    {
      if !w.Lost? {
        rows := rows + [Row(step, StepCompleted)];
        states := states + [given];
        effects := effects + [Did(step)];
      }
    }

    method SaveUndo(step: nat, w: Write)
      modifies this
      ensures View() == CommitUndo(old(View()), step, w)
    {
      if !w.Lost? {
        rows := Mark(rows, step);
        effects := effects + [Undid(step)];
      }
    }

    /** The loop over the stored rows. */
    method LoadCompleted() returns (done: set<nat>, count: nat)
      ensures done == CompletedSteps(rows) && count == CompletedCount(rows)
    {
      done, count := {}, 0;
      for k := 0 to |rows|
        invariant done == CompletedSteps(rows[..k]) && count == CompletedCount(rows[..k])
      {
        CompletedAppend(rows[..k], rows[k]);
        assert rows[..k + 1] == rows[..k] + [rows[k]];
        if rows[k].state.StepCompleted? {
          done := done + {rows[k].step};
          count := count + 1;
        }
      }
      assert rows[..|rows|] == rows;
    }

    method Compensate(c: seq<bool>, s: Script, executed: nat) returns (outcome: Outcome)
      modifies this
      ensures Execution(View(), outcome) == Back(c, s, old(View()), CompletedSteps(old(rows)), executed, 0, |c|)
    {
      ghost var whole := Back(c, s, View(), CompletedSteps(rows), executed, 0, |c|);
      var done, _ := LoadCompleted();
      var undone := 0;
      for i := |c| downto 0
        invariant Back(c, s, View(), done, executed, undone, i) == whole
      {
        if i in done && c[i] {
          match s.undo(i) {
            case UndoBreaksBefore =>
              return DatabaseError;
            case Undone(w) =>
              EnterBody(Undid(i));
              SaveUndo(i, w);
              if !w.Kept? { return DatabaseError; }
              undone := undone + 1;
            case UndoBreaksAfter =>
              EnterBody(Undid(i));
              return DatabaseError;
            case UndoFails(w) =>
              EnterBody(Undid(i));
              SaveState(Failed, w);
              return UndoFailed(i);
          }
        }
      }
      SaveState(Completed, s.last);
      outcome := if s.last.Kept? then RolledBack(executed, undone) else DatabaseError;
    }

    method ExecuteSaga(c: seq<bool>, s: Script, given: SagaState) returns (outcome: Outcome)
      modifies this
      ensures Execution(View(), outcome) == Execute(c, s, given, old(View()))
    {
      ghost var whole := Execute(c, s, given, View());
      SaveState(given, s.first);
      if !s.first.Kept? || !s.loads { return DatabaseError; }
      var done, executed := LoadCompleted();
      for i := 0 to |c|
        invariant Forward(c, s, given, View(), done, executed, i) == whole
      {
        if i in done { continue; }
        match s.turns(i) {
          case Expires(w) =>
            SaveState(Failed, w);
            return SagaExpired;
          case BreaksBefore =>
            return DatabaseError;
          case Succeeds(w) =>
            EnterBody(Did(i));
            SaveStep(i, given, w);
            if !w.Kept? { return DatabaseError; }
            executed := executed + 1;
          case BreaksAfter =>
            EnterBody(Did(i));
            return DatabaseError;
          case Fails(w) =>
            EnterBody(Did(i));
            SaveState(Compensating, w);
            if !w.Kept? || !s.reloads { return DatabaseError; }
            outcome := Compensate(c, s, executed);
            return;
          case TimesOut =>
            EnterBody(Did(i));
            return StepTimedOut;
        }
      }
      SaveState(Completed, s.last);
      outcome := if s.last.Kept? then AllDone(executed) else DatabaseError;
    }
  }
}
