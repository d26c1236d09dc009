/**
 The in-memory saga orchestrator: steps in order, and when one fails the executed ones compensated
 in reverse order, each with a bounded number of attempts.

 What the steps, the clock and the database do is a script the orchestrator reads; what it does to
 them is a log, in which `Saved` is a state it asks its repository to store. A step stands once it has
 run: the orchestrator never commits the transactions it hands out, so what stands is what steps and
 compensations do besides.
 */
module SagaOrchestrator {

  import opened SagaStates

  datatype StepOutcome = Succeeds | Fails(error: string) | TimesOut

  /** What happens when the loop reaches a step. */
  datatype Turn = Turn(sagaExpired: bool, transactionOpens: bool, outcome: StepOutcome)

  datatype Undo = Undone | UndoFails | NoTransaction

  /**
   `saves` says whether the first save succeeds; `turns[i]` is what meets step `i`; `compensable[i]`
   says whether it has a compensation; `undo(i, n)` is what its `n`-th compensation attempt does.
   */
  datatype Script = Script(
    saves: bool, turns: seq<Turn>, compensable: seq<bool>, undo: (nat, nat) -> Undo, maxAttempts: nat)

  /** What the orchestrator reads of the context it is given: the step to start from, and the state. */
  datatype Context = Context(currentStep: nat, state: SagaState)

  predicate WellFormed(s: Script) { |s.turns| == |s.compensable| }

  datatype Event =
    | Ran(step: nat)
    | Stopped(step: nat)
    | Tried(step: nat, attempt: nat, done: bool)
    | Saved(state: SagaState)

  datatype Outcome =
    | SagaCompleted(stepsExecuted: nat)
    | SagaFailed(stepsExecuted: nat, compensationsExecuted: nat, error: string)
    | StepTimedOut
    | SagaExpired
    | TransactionFailed
    | SaveFailed

  // ---------- what a run does ----------

  predicate Goes(t: Turn) { !t.sagaExpired && t.transactionOpens && t.outcome.Succeeds? }

  /** The first step from `i` on that does not succeed. */
  function StopFrom(s: Script, i: nat): (stop: nat)
    ensures i <= stop
    ensures i <= |s.turns| ==> stop <= |s.turns|
    ensures forall k | i <= k < stop && k < |s.turns| :: Goes(s.turns[k])
    ensures stop < |s.turns| ==> !Goes(s.turns[stop])
    decreases |s.turns| - i
  {
    if i < |s.turns| && Goes(s.turns[i]) then StopFrom(s, i + 1) else i
  }

  function Runs(from: nat, stop: nat): seq<Event>
    requires from <= stop
  {
    if from == stop then [] else Runs(from, stop - 1) + [Ran(stop - 1)]
  }

  /** The attempts to compensate one step, from attempt `n` on. */
  function Tries(s: Script, step: nat, n: nat): seq<Event>
    decreases s.maxAttempts - n
  {
    match s.undo(step, n)
    case Undone => [Tried(step, n, true)]
    case UndoFails => [Tried(step, n, false)] + (if n < s.maxAttempts then Tries(s, step, n + 1) else [])
    case NoTransaction => []
  }

  /** Whether one of those attempts succeeds. */
  predicate GetsUndone(s: Script, step: nat, n: nat)
    decreases s.maxAttempts - n
  {
    match s.undo(step, n)
    case Undone => true
    case UndoFails => n < s.maxAttempts && GetsUndone(s, step, n + 1)
    case NoTransaction => false
  }

  predicate RolledBack(s: Script, step: nat)
    requires WellFormed(s) && step < |s.turns|
  {
    s.compensable[step] && GetsUndone(s, step, 1)
  }

  /** The compensation of one step. */
  function StepRollback(s: Script, step: nat): seq<Event>
    requires WellFormed(s) && step < |s.turns|
  {
    if s.compensable[step] then Tries(s, step, 1) else []
  }

  /** The compensation of the first `n` steps, last step first. */
  function Rollback(s: Script, n: nat): seq<Event>
    requires WellFormed(s) && n <= |s.turns|
  {
    if n == 0 then [] else StepRollback(s, n - 1) + Rollback(s, n - 1)
  }

  function RolledBackCount(s: Script, n: nat): nat
    requires WellFormed(s) && n <= |s.turns|
  {
    if n == 0 then 0 else RolledBackCount(s, n - 1) + (if RolledBack(s, n - 1) then 1 else 0)
  }

  /** What happens once the steps have run up to `stop`. */
  function Ending(s: Script, stop: nat): seq<Event>
    requires WellFormed(s)
  {
    if stop >= |s.turns| then [Saved(Completed)]
    else if s.turns[stop].sagaExpired then [Saved(Failed)]
    else if !s.turns[stop].transactionOpens then []
    else [Stopped(stop), Saved(Compensating)] + Rollback(s, stop) + [Saved(Failed)]
  }

  /** The steps from `from` on, and what ends them. */
  function StepsLog(s: Script, from: nat): seq<Event>
    requires WellFormed(s)
  {
    Runs(from, StopFrom(s, from)) + Ending(s, StopFrom(s, from))
  }

  /** The whole run: the context is saved as it came, then the steps run. */
  function LogOf(s: Script, c: Context): seq<Event>
    requires WellFormed(s)
  {
    if s.saves then [Saved(c.state)] + StepsLog(s, c.currentStep) else []
  }

  function OutcomeAt(s: Script, stop: nat): Outcome
    requires WellFormed(s)
  {
    if stop >= |s.turns| then SagaCompleted(stop)
    else if s.turns[stop].sagaExpired then SagaExpired
    else if !s.turns[stop].transactionOpens then TransactionFailed
    else
      match s.turns[stop].outcome
      case Fails(error) => SagaFailed(stop, RolledBackCount(s, stop), error)
      case _ => StepTimedOut
  }

  function OutcomeOf(s: Script, c: Context): Outcome
    requires WellFormed(s)
  {
    if s.saves then OutcomeAt(s, StopFrom(s, c.currentStep)) else SaveFailed
  }

  lemma ConcatAssociates(xs: seq<Event>, ys: seq<Event>, zs: seq<Event>)
    ensures (xs + ys) + zs == xs + (ys + zs)
  {
  }

  lemma RollbackStep(s: Script, log: seq<Event>, step: nat)
    requires WellFormed(s) && step < |s.turns| && s.compensable[step]
    ensures log + Tries(s, step, 1) + Rollback(s, step) == log + Rollback(s, step + 1)
    ensures RolledBackCount(s, step + 1) == RolledBackCount(s, step) + (if GetsUndone(s, step, 1) then 1 else 0)
  {
    ConcatAssociates(log, StepRollback(s, step), Rollback(s, step));
  }

  lemma NothingToRollBack(s: Script, step: nat)
    requires WellFormed(s) && step < |s.turns| && !s.compensable[step]
    ensures Rollback(s, step + 1) == Rollback(s, step)
    ensures RolledBackCount(s, step + 1) == RolledBackCount(s, step)
  {
    assert StepRollback(s, step) == [];
  }

  // ---------- the orchestrator ----------

  /** The attempt undoes the step, it is the first or within the limit, and all before it failed. */
  ghost predicate UndoneAt(s: Script, step: nat, from: nat, n: nat) {
    && from <= n && (n == from || n <= s.maxAttempts) && s.undo(step, n) == Undone
    && forall i | from <= i < n :: s.undo(step, i) == UndoFails
  }

  ghost predicate EverUndone(s: Script, step: nat, from: nat) {
    exists n :: UndoneAt(s, step, from, n)
  }

  lemma LaterAttempts(s: Script, step: nat, from: nat, next: nat)
    requires next == from + 1 && next <= s.maxAttempts && s.undo(step, from) == UndoFails
    ensures EverUndone(s, step, from) <==> EverUndone(s, step, next)
  {
    if n: nat :| UndoneAt(s, step, from, n) { assert UndoneAt(s, step, next, n); }
    if n: nat :| UndoneAt(s, step, next, n) { assert UndoneAt(s, step, from, n); }
  }

  /** Compensation succeeds exactly when such an attempt exists. */
  lemma {:induction false} GetsUndoneExactly(s: Script, step: nat, from: nat)
    ensures GetsUndone(s, step, from) <==> EverUndone(s, step, from)
    decreases s.maxAttempts - from
  {
    if s.undo(step, from) == Undone {
      assert UndoneAt(s, step, from, from);
    } else if s.undo(step, from) == UndoFails && from < s.maxAttempts {
      GetsUndoneExactly(s, step, from + 1);
      LaterAttempts(s, step, from, from + 1);
    }
  }

  /** The event is attempt `n` on the step, and says whether it undid it. */
  ghost predicate AttemptAt(s: Script, step: nat, n: nat, e: Event) {
    e == Tried(step, n, s.undo(step, n) == Undone) && s.undo(step, n) != NoTransaction
  }

  /**
   The attempts made on a step, and no others: they are numbered from `from`, each says whether it undid the
   step, all but the last failed, all but the first are within the limit, and the last undid the step, or
   reached the limit, or was followed by a transaction that did not open.
   */
  ghost predicate AttemptsAre(s: Script, step: nat, from: nat, log: seq<Event>) {
    var next := from + |log|;
    && (forall i | 0 <= i < |log| :: AttemptAt(s, step, from + i, log[i]))
    && (forall i | 0 <= i < |log| - 1 :: !log[i].done)
    && (forall i | 0 < i < |log| :: log[i].attempt <= s.maxAttempts)
    && (if log == [] then s.undo(step, from) == NoTransaction
        else s.undo(step, next - 1) == Undone || next - 1 >= s.maxAttempts || s.undo(step, next) == NoTransaction)
  }

  lemma AttemptsFollow(s: Script, step: nat, from: nat, rest: seq<Event>)
    requires s.undo(step, from) == UndoFails && from < s.maxAttempts && AttemptsAre(s, step, from + 1, rest)
    ensures AttemptsAre(s, step, from, [Tried(step, from, false)] + rest)
  {
    var log := [Tried(step, from, false)] + rest;
    forall i | 0 <= i < |log|
      ensures AttemptAt(s, step, from + i, log[i]) && (i < |log| - 1 ==> !log[i].done)
      ensures i > 0 ==> log[i].attempt <= s.maxAttempts
    {
      if i > 0 {
        assert AttemptAt(s, step, from + 1 + (i - 1), rest[i - 1]);
        assert log[i] == rest[i - 1];
      }
    }
  }

  lemma {:induction false} TriesExactly(s: Script, step: nat, from: nat)
    ensures AttemptsAre(s, step, from, Tries(s, step, from))
    decreases s.maxAttempts - from
  {
    if s.undo(step, from) == UndoFails && from < s.maxAttempts {
      TriesExactly(s, step, from + 1);
      AttemptsFollow(s, step, from, Tries(s, step, from + 1));
    }
  }

  method CompensateWithRetry(s: Script, step: nat) returns (done: bool, log: seq<Event>)
    ensures done <==> GetsUndone(s, step, 1)
    ensures log == Tries(s, step, 1)
  {
    var attempt := 0;
    log := [];
    while true
      invariant attempt == 0 || attempt < s.maxAttempts
      invariant log + Tries(s, step, attempt + 1) == Tries(s, step, 1)
      invariant GetsUndone(s, step, attempt + 1) <==> GetsUndone(s, step, 1)
      decreases s.maxAttempts + 1 - attempt
    {
      attempt := attempt + 1;
      var answer := s.undo(step, attempt);
      if answer.NoTransaction? {
        assert Tries(s, step, attempt) == [];
        return false, log;
      }
      if answer.Undone? {
        assert Tries(s, step, attempt) == [Tried(step, attempt, true)];
        return true, log + [Tried(step, attempt, true)];
      }
      if !(attempt < s.maxAttempts) {
        assert Tries(s, step, attempt) == [Tried(step, attempt, false)];
        return false, log + [Tried(step, attempt, false)];
      }
      ConcatAssociates(log, [Tried(step, attempt, false)], Tries(s, step, attempt + 1));
      log := log + [Tried(step, attempt, false)];
    }
  }

  method ExecuteCompensation(s: Script, executed: nat) returns (count: nat, log: seq<Event>)
    requires WellFormed(s) && executed <= |s.turns|
    ensures count == RolledBackCount(s, executed)
    ensures log == Rollback(s, executed)
  {
    count, log := 0, [];
    ghost var total, whole := RolledBackCount(s, executed), Rollback(s, executed);
    for i := executed downto 0
      invariant count + RolledBackCount(s, i) == total
      invariant log + Rollback(s, i) == whole
    {
      if s.compensable[i] {
        var done, tries := CompensateWithRetry(s, i);
        RollbackStep(s, log, i);
        log := log + tries;
        if done {
          count := count + 1;
        }
      } else {
        NothingToRollBack(s, i);
      }
    }
    assert log + Rollback(s, 0) == log;
  }

  method ExecuteSaga(s: Script, c: Context) returns (outcome: Outcome, log: seq<Event>)
    requires WellFormed(s)
    ensures outcome == OutcomeOf(s, c)
    ensures log == LogOf(s, c)
  {
    if !s.saves {
      return SaveFailed, [];
    }
    var steps;
    outcome, steps := RunSteps(s, c.currentStep);
    log := [Saved(c.state)] + steps;
  }

  /** The loop over the steps, the first `from` of which are skipped. */
  method RunSteps(s: Script, from: nat) returns (outcome: Outcome, log: seq<Event>)
    requires WellFormed(s)
    ensures outcome == OutcomeAt(s, StopFrom(s, from))
    ensures log == StepsLog(s, from)
  {
    var executed := from;
    log := [];
    for i := 0 to |s.turns|
      invariant executed == (if i <= from then from else i)
      invariant executed <= StopFrom(s, from)
      invariant StopFrom(s, executed) == StopFrom(s, from)
      invariant log == Runs(from, executed)
    {
      if i < from { continue; }
      var turn := s.turns[i];
      if turn.sagaExpired {
        return SagaExpired, log + [Saved(Failed)];
      }
      if !turn.transactionOpens {
        return TransactionFailed, log;
      }
      match turn.outcome {
        case Succeeds =>
          executed := executed + 1;
          log := log + [Ran(i)];
        case Fails(error) =>
          var count, rollback := ExecuteCompensation(s, i);
          return SagaFailed(executed, count, error), log + ([Stopped(i), Saved(Compensating)] + rollback + [Saved(Failed)]);
        case TimesOut =>
          var count, rollback := ExecuteCompensation(s, executed);
          return StepTimedOut, log + ([Stopped(i), Saved(Compensating)] + rollback + [Saved(Failed)]);
      }
    }
    log := log + [Saved(Completed)];
    outcome := SagaCompleted(executed);
  }

  // ---------- what is left in effect ----------

  /** The steps whose effects stand after the log, if those in `before` stood at its start. */
  function Standing(before: set<nat>, log: seq<Event>): set<nat> {
    if log == [] then before
    else
      Effect(Standing(before, log[..|log| - 1]), log[|log| - 1])
  }

  function Effect(before: set<nat>, e: Event): set<nat> {
    match e
    case Ran(i) => before + {i}
    case Tried(i, _, done) => if done then before - {i} else before
    case _ => before
  }

  /** The first `n` steps. */
  function Below(n: nat): set<nat> {
    if n == 0 then {} else Below(n - 1) + {n - 1}
  }

  lemma {:induction false} BelowHolds(n: nat)
    ensures forall i: nat :: i in Below(n) <==> i < n
  {
    if n > 0 { BelowHolds(n - 1); }
  }

  lemma {:induction false} StandingConcat(before: set<nat>, xs: seq<Event>, ys: seq<Event>)
    ensures Standing(before, xs + ys) == Standing(Standing(before, xs), ys)
  {
    if ys == [] {
      assert xs + ys == xs;
    } else {
      assert (xs + ys)[..|xs + ys| - 1] == xs + ys[..|ys| - 1];
      StandingConcat(before, xs, ys[..|ys| - 1]);
    }
  }

  lemma StandingOne(before: set<nat>, e: Event)
    ensures Standing(before, [e]) == Effect(before, e)
  {
    assert [e][..0] == [];
  }

  lemma {:induction false} StandingRuns(from: nat, stop: nat)
    requires from <= stop
    ensures Standing(Below(from), Runs(from, stop)) == Below(stop)
  {
    if from < stop {
      StandingRuns(from, stop - 1);
      StandingConcat(Below(from), Runs(from, stop - 1), [Ran(stop - 1)]);
      StandingOne(Below(stop - 1), Ran(stop - 1));
    }
  }

  lemma {:induction false} StandingTries(before: set<nat>, s: Script, step: nat, n: nat)
    ensures Standing(before, Tries(s, step, n)) == if GetsUndone(s, step, n) then before - {step} else before
    decreases s.maxAttempts - n
  {
    StandingOne(before, Tried(step, n, true));
    StandingOne(before, Tried(step, n, false));
    if s.undo(step, n).UndoFails? {
      if n < s.maxAttempts {
        StandingTries(before, s, step, n + 1);
        StandingConcat(before, [Tried(step, n, false)], Tries(s, step, n + 1));
      } else {
        assert Tries(s, step, n) == [Tried(step, n, false)];
      }
    }
  }

  /** The steps below `n` that compensation does not undo. */
  function Left(s: Script, n: nat): set<nat>
    requires WellFormed(s) && n <= |s.turns|
  {
    if n == 0 then {}
    else if RolledBack(s, n - 1) then Left(s, n - 1)
    else Left(s, n - 1) + {n - 1}
  }

  lemma {:induction false} LeftHolds(s: Script, n: nat)
    requires WellFormed(s) && n <= |s.turns|
    ensures forall i: nat :: i in Left(s, n) <==> i < n && !RolledBack(s, i)
  {
    if n > 0 { LeftHolds(s, n - 1); }
  }

  lemma {:induction false} LeftCount(s: Script, n: nat)
    requires WellFormed(s) && n <= |s.turns|
    ensures |Left(s, n)| + RolledBackCount(s, n) == n
  {
    if n > 0 {
      LeftCount(s, n - 1);
      LeftHolds(s, n - 1);
    }
  }

  lemma StandingStepRollback(before: set<nat>, s: Script, step: nat)
    requires WellFormed(s) && step < |s.turns|
    ensures Standing(before, StepRollback(s, step)) == if RolledBack(s, step) then before - {step} else before
  {
    if s.compensable[step] {
      StandingTries(before, s, step, 1);
    }
  }

  lemma {:induction false} StandingRollback(before: set<nat>, s: Script, n: nat)
    requires WellFormed(s) && n <= |s.turns|
    ensures forall i: nat :: i in Standing(before, Rollback(s, n)) <==> i in before && (i < n ==> !RolledBack(s, i))
  {
    if n > 0 {
      var mid := Standing(before, StepRollback(s, n - 1));
      StandingStepRollback(before, s, n - 1);
      StandingConcat(before, StepRollback(s, n - 1), Rollback(s, n - 1));
      StandingRollback(mid, s, n - 1);
      var after := Standing(before, Rollback(s, n));
      assert after == Standing(mid, Rollback(s, n - 1));
      forall i: nat ensures i in after <==> i in before && (i < n ==> !RolledBack(s, i)) {
        assert i in mid <==> i in before && (i == n - 1 ==> !RolledBack(s, n - 1));
      }
    }
  }

  lemma StandingAfterSteps(s: Script, from: nat)
    requires WellFormed(s)
    ensures var stop := StopFrom(s, from);
            Standing(Below(from), StepsLog(s, from)) ==
              if StopsInside(s, stop) then Left(s, stop) else Below(stop)
  {
    var stop := StopFrom(s, from);
    StandingRuns(from, stop);
    StandingConcat(Below(from), Runs(from, stop), Ending(s, stop));
    StandingOne(Below(stop), Saved(Completed));
    StandingOne(Below(stop), Saved(Failed));
    if StopsInside(s, stop) {
      StandingAfterFailure(Below(stop), s, stop);
    }
  }

  /** The step at `stop` was entered: neither the end nor an interruption between two steps. */
  predicate StopsInside(s: Script, stop: nat) {
    stop < |s.turns| && !s.turns[stop].sagaExpired && s.turns[stop].transactionOpens
  }

  /**
   What stands after a run whose first `currentStep` steps stood before it. Completed: every step. Failed
   or timed out in a step: exactly the executed steps that compensation could not undo. Expired between
   steps, or without a transaction: every executed step, for nothing is compensated then.
   */
  lemma StandingAfter(s: Script, c: Context)
    requires WellFormed(s)
    ensures var stop := StopFrom(s, c.currentStep);
            Standing(Below(c.currentStep), LogOf(s, c)) ==
              if !s.saves then Below(c.currentStep)
              else if StopsInside(s, stop) then Left(s, stop)
              else Below(stop)
  {
    StandingAfterSteps(s, c.currentStep);
    StandingOne(Below(c.currentStep), Saved(c.state));
    StandingConcat(Below(c.currentStep), [Saved(c.state)], StepsLog(s, c.currentStep));
  }

  lemma StandingAfterFailure(before: set<nat>, s: Script, stop: nat)
    requires WellFormed(s) && stop <= |s.turns| && before == Below(stop)
    ensures Standing(before, [Stopped(stop), Saved(Compensating)] + Rollback(s, stop) + [Saved(Failed)]) == Left(s, stop)
  {
    var head, back := [Stopped(stop), Saved(Compensating)], Rollback(s, stop);
    assert head == [Stopped(stop)] + [Saved(Compensating)];
    StandingOne(before, Stopped(stop));
    StandingOne(before, Saved(Compensating));
    StandingConcat(before, [Stopped(stop)], [Saved(Compensating)]);
    StandingConcat(before, head, back);
    StandingRollback(before, s, stop);
    StandingConcat(before, head + back, [Saved(Failed)]);
    StandingOne(Standing(before, head + back), Saved(Failed));
    BelowHolds(stop);
    LeftHolds(s, stop);
    assert Standing(before, head + back) == Left(s, stop);
  }

  /**
   The numbers of a failed run account for every executed step, and they are equal exactly when
   nothing is left standing. The saved state is `Failed` either way.
   */
  lemma FailureAccounts(s: Script, c: Context)
    requires WellFormed(s) && OutcomeOf(s, c).SagaFailed?
    ensures var r := OutcomeOf(s, c); var left := Standing(Below(c.currentStep), LogOf(s, c));
            && r.stepsExecuted == r.compensationsExecuted + |left|
            && (r.stepsExecuted == r.compensationsExecuted <==> left == {})
            && LogOf(s, c)[|LogOf(s, c)| - 1] == Saved(Failed)
  {
    StandingAfter(s, c);
    LeftCount(s, StopFrom(s, c.currentStep));
  }

  // ---------- order of compensation ----------

  ghost predicate Precedes(a: Event, b: Event) {
    a.Tried? && b.Tried? && (a.step > b.step || (a.step == b.step && a.attempt < b.attempt && !a.done))
  }

  /** The event is attempt `n` on `step`, and `n` is within the limit or the first. */
  ghost predicate IsTry(s: Script, e: Event, step: nat, n: nat) {
    e.Tried? && e.step == step && e.attempt == n && (n == 1 || n <= s.maxAttempts)
  }

  ghost predicate UndoesBelow(s: Script, e: Event, n: nat)
    requires WellFormed(s) && n <= |s.turns|
  {
    e.Tried? && e.step < n && s.compensable[e.step] && 1 <= e.attempt && (e.attempt == 1 || e.attempt <= s.maxAttempts)
  }

  lemma {:induction false} TriesOrdered(s: Script, step: nat, n: nat)
    requires n == 1 || n <= s.maxAttempts
    requires n >= 1
    ensures forall i | 0 <= i < |Tries(s, step, n)| :: IsTry(s, Tries(s, step, n)[i], step, n + i)
    ensures forall i, j | 0 <= i < j < |Tries(s, step, n)| :: Precedes(Tries(s, step, n)[i], Tries(s, step, n)[j])
    decreases s.maxAttempts - n
  {
    if s.undo(step, n).UndoFails? && n < s.maxAttempts {
      TriesOrdered(s, step, n + 1);
    }
  }

  ghost predicate Ordered(log: seq<Event>) {
    forall i, j | 0 <= i < j < |log| :: Precedes(log[i], log[j])
  }

  lemma OrderedConcat(xs: seq<Event>, ys: seq<Event>)
    requires Ordered(xs) && Ordered(ys)
    requires forall x, y | x in xs && y in ys :: Precedes(x, y)
    ensures Ordered(xs + ys)
  {
    var log := xs + ys;
    forall i, j | 0 <= i < j < |log| ensures Precedes(log[i], log[j]) {
      if i < |xs| && |xs| <= j {
        assert xs[i] in xs && ys[j - |xs|] in ys;
      }
    }
  }

  lemma StepRollbackOrdered(s: Script, step: nat)
    requires WellFormed(s) && step < |s.turns|
    ensures forall e | e in StepRollback(s, step) :: UndoesBelow(s, e, step + 1) && e.step == step
    ensures Ordered(StepRollback(s, step))
  {
    if s.compensable[step] {
      TriesOrdered(s, step, 1);
      var log := Tries(s, step, 1);
      forall e | e in log ensures UndoesBelow(s, e, step + 1) && e.step == step {
        var i :| 0 <= i < |log| && log[i] == e;
        assert IsTry(s, log[i], step, 1 + i);
      }
    }
  }

  /**
   Compensation goes strictly backwards through the executed steps; within a step the attempts are
   numbered, bounded, and stop at the first success, so no step is undone twice.
   */
  lemma {:induction false} RollbackOrdered(s: Script, n: nat)
    requires WellFormed(s) && n <= |s.turns|
    ensures forall e | e in Rollback(s, n) :: UndoesBelow(s, e, n)
    ensures Ordered(Rollback(s, n))
  {
    if n > 0 {
      RollbackOrdered(s, n - 1);
      StepRollbackOrdered(s, n - 1);
      OrderedConcat(StepRollback(s, n - 1), Rollback(s, n - 1));
    }
  }

  lemma {:induction false} TriesAreOf(s: Script, step: nat, n: nat)
    ensures forall e | e in Tries(s, step, n) :: e.Tried? && e.step == step
    decreases s.maxAttempts - n
  {
    if s.undo(step, n).UndoFails? && n < s.maxAttempts { TriesAreOf(s, step, n + 1); }
  }

  lemma StepRollbackHolds(s: Script, step: nat, e: Event)
    requires WellFormed(s) && step < |s.turns|
    ensures e in StepRollback(s, step) <==> e.Tried? && e.step == step && s.compensable[step] && e in Tries(s, step, 1)
  {
    TriesAreOf(s, step, 1);
  }

  lemma RollbackOneMore(s: Script, n: nat, e: Event)
    requires WellFormed(s) && 0 < n <= |s.turns|
    ensures e in Rollback(s, n) <==> e in StepRollback(s, n - 1) || e in Rollback(s, n - 1)
  {
    HoldsEither(StepRollback(s, n - 1), Rollback(s, n - 1), e);
  }

  /** An event of the way back is one of its own step's, and those of a step are all there. */
  lemma {:induction false} RollbackHolds(s: Script, n: nat, e: Event, own: bool)
    requires WellFormed(s) && n <= |s.turns|
    requires own ==> e.Tried?
    requires forall i: nat | i < |s.turns| :: e in StepRollback(s, i) <==> own && e.step == i
    ensures e in Rollback(s, n) <==> own && e.step < n
  {
    if n > 0 {
      RollbackHolds(s, n - 1, e, own);
      RollbackOneMore(s, n, e);
    }
  }

  /** Every executed step that has a compensation is tried, with all its attempts, whatever became of the others. */
  lemma RollbackTriesAll(s: Script, n: nat, e: Event)
    requires WellFormed(s) && n <= |s.turns|
    ensures e in Rollback(s, n) <==> e.Tried? && e.step < n && s.compensable[e.step] && e in Tries(s, e.step, 1)
  {
    var own := e.Tried? && e.step < |s.turns| && s.compensable[e.step] && e in Tries(s, e.step, 1);
    forall i: nat | i < |s.turns| ensures e in StepRollback(s, i) <==> own && e.step == i {
      StepRollbackHolds(s, i, e);
    }
    RollbackHolds(s, n, e, own);
  }

  lemma HoldsEither(xs: seq<Event>, ys: seq<Event>, e: Event)
    ensures e in xs + ys <==> e in xs || e in ys
  {
  }

  // ---------- saved states ----------

  /** The states saved by a log, in order. */
  function SavedStates(log: seq<Event>): seq<SagaState> {
    if log == [] then []
    else
      SavedStates(log[..|log| - 1]) + (if log[|log| - 1].Saved? then [log[|log| - 1].state] else [])
  }

  lemma {:induction false} SavedConcat(xs: seq<Event>, ys: seq<Event>)
    ensures SavedStates(xs + ys) == SavedStates(xs) + SavedStates(ys)
  {
    if ys == [] {
      assert xs + ys == xs;
    } else {
      assert (xs + ys)[..|xs + ys| - 1] == xs + ys[..|ys| - 1];
      SavedConcat(xs, ys[..|ys| - 1]);
    }
  }

  lemma {:induction false} NothingSaved(log: seq<Event>)
    requires forall e | e in log :: !e.Saved?
    ensures SavedStates(log) == []
  {
    if log != [] {
      forall e | e in log[..|log| - 1] ensures !e.Saved? { assert e in log; }
      assert log[|log| - 1] in log;
      NothingSaved(log[..|log| - 1]);
    }
  }

  lemma {:induction false} RunsAreRuns(from: nat, stop: nat)
    requires from <= stop
    ensures |Runs(from, stop)| == stop - from
    ensures forall i | 0 <= i < stop - from :: Runs(from, stop)[i] == Ran(from + i)
  {
    if from < stop { RunsAreRuns(from, stop - 1); }
  }

  lemma SavedOne(e: Event)
    ensures SavedStates([e]) == if e.Saved? then [e.state] else []
  {
    assert [e][..0] == [];
  }

  lemma NothingSavedInRollback(s: Script, n: nat)
    requires WellFormed(s) && n <= |s.turns|
    ensures SavedStates(Rollback(s, n)) == []
  {
    RollbackOrdered(s, n);
    forall e | e in Rollback(s, n) ensures !e.Saved? { assert UndoesBelow(s, e, n); }
    NothingSaved(Rollback(s, n));
  }

  lemma SavedByStop(stop: nat)
    ensures SavedStates([Stopped(stop), Saved(Compensating)]) == [Compensating]
  {
    assert [Stopped(stop), Saved(Compensating)] == [Stopped(stop)] + [Saved(Compensating)];
    SavedOne(Stopped(stop));
    SavedOne(Saved(Compensating));
    SavedConcat([Stopped(stop)], [Saved(Compensating)]);
  }

  lemma SavedByRollback(s: Script, stop: nat)
    requires WellFormed(s) && stop <= |s.turns|
    ensures SavedStates([Stopped(stop), Saved(Compensating)] + Rollback(s, stop) + [Saved(Failed)]) == [Compensating, Failed]
  {
    var head, back := [Stopped(stop), Saved(Compensating)], Rollback(s, stop);
    SavedByStop(stop);
    NothingSavedInRollback(s, stop);
    SavedOne(Saved(Failed));
    SavedConcat(head, back);
    SavedConcat(head + back, [Saved(Failed)]);
  }

  /** The states the end of a run saves. */
  function SavedAt(s: Script, stop: nat): seq<SagaState> {
    if stop >= |s.turns| then [Completed]
    else if s.turns[stop].sagaExpired then [Failed]
    else if !s.turns[stop].transactionOpens then []
    else [Compensating, Failed]
  }

  lemma SavedByEnding(s: Script, stop: nat)
    requires WellFormed(s)
    ensures SavedStates(Ending(s, stop)) == SavedAt(s, stop)
  {
    SavedOne(Saved(Completed));
    SavedOne(Saved(Failed));
    if stop < |s.turns| {
      SavedByRollback(s, stop);
    }
  }

  lemma SavedBySteps(s: Script, from: nat)
    requires WellFormed(s)
    ensures SavedStates(StepsLog(s, from)) == SavedAt(s, StopFrom(s, from))
  {
    var stop := StopFrom(s, from);
    RunsAreRuns(from, stop);
    NothingSaved(Runs(from, stop));
    SavedConcat(Runs(from, stop), Ending(s, stop));
    SavedByEnding(s, stop);
  }

  /** A run saves the state it was given, and then what its end saves. */
  lemma SavedByRun(s: Script, c: Context)
    requires WellFormed(s)
    ensures SavedStates(LogOf(s, c)) ==
            if s.saves then [c.state] + SavedAt(s, StopFrom(s, c.currentStep)) else []
  {
    if s.saves {
      SavedBySteps(s, c.currentStep);
      SavedOne(Saved(c.state));
      SavedConcat([Saved(c.state)], StepsLog(s, c.currentStep));
    }
  }

  /** The states from which what the end of a run saves is allowed. */
  predicate AllowedFrom(s: Script, stop: nat, state: SagaState) {
    if stop >= |s.turns| then state.InProgress? || state.Compensating?
    else if s.turns[stop].sagaExpired then state.Compensating?
    else if !s.turns[stop].transactionOpens then true
    else state.InProgress?
  }

  lemma WhichFollow(s: Script, stop: nat, state: SagaState)
    ensures FollowsGuard([state] + SavedAt(s, stop)) <==> AllowedFrom(s, stop, state)
  {
    var states := [state] + SavedAt(s, stop);
    if |states| > 1 {
      assert CanTransitionTo(state, states[1]) <==> CanTransitionTo(states[0], states[0 + 1]);
    }
    if |states| > 2 {
      assert states == [state, Compensating, Failed];
    }
  }

  /**
   Exactly when the saved states follow the saga guard: a completed run must be given a saga in
   progress or compensating, a run that stops inside a step one in progress, and a run that expires
   between two steps one that is compensating.
   */
  lemma SavedStatesFollowGuard(s: Script, c: Context)
    requires WellFormed(s) && s.saves
    ensures FollowsGuard(SavedStates(LogOf(s, c))) <==> AllowedFrom(s, StopFrom(s, c.currentStep), c.state)
  {
    SavedByRun(s, c);
    WhichFollow(s, StopFrom(s, c.currentStep), c.state);
  }

  /**
   A new saga, which is given as pending, follows the guard only if nothing but the first save
   happens: the step it reaches can open no transaction.
   */
  lemma NewSagaLeavesGuard(s: Script, c: Context)
    requires WellFormed(s) && s.saves && c.state.Pending?
    ensures var stop := StopFrom(s, c.currentStep);
            (FollowsGuard(SavedStates(LogOf(s, c)))
             <==> stop < |s.turns| && !s.turns[stop].sagaExpired && !s.turns[stop].transactionOpens)
  {
    SavedStatesFollowGuard(s, c);
  }

  // ---------- order ----------

  /** What happens in a run after its first save: steps, the stop, compensating stored, attempts, the end stored. */
  function Phase(e: Event): nat {
    match e
    case Ran(_) => 1
    case Stopped(_) => 2
    case Saved(Compensating) => 3
    case Tried(_, _, _) => 4
    case Saved(_) => 5
  }

  /** Later events are of the same phase or a later one; steps run upwards, attempts follow their order. */
  ghost predicate Follows(a: Event, b: Event) {
    && Phase(a) <= Phase(b)
    && (a.Ran? && b.Ran? ==> a.step < b.step)
    && (a.Tried? && b.Tried? ==> Precedes(a, b))
  }

  ghost predicate InOrder(log: seq<Event>) {
    forall i, j | 0 <= i < j < |log| :: Follows(log[i], log[j])
  }

  lemma InOrderConcat(xs: seq<Event>, ys: seq<Event>)
    requires InOrder(xs) && InOrder(ys)
    requires forall x, y | x in xs && y in ys :: Follows(x, y)
    ensures InOrder(xs + ys)
  {
    var log := xs + ys;
    forall i, j | 0 <= i < j < |log| ensures Follows(log[i], log[j]) {
      if i < |xs| && |xs| <= j {
        assert xs[i] in xs && ys[j - |xs|] in ys;
      }
    }
  }

  lemma RollbackInOrder(s: Script, stop: nat)
    requires WellFormed(s) && stop <= |s.turns|
    ensures InOrder(Rollback(s, stop)) && forall e | e in Rollback(s, stop) :: e.Tried?
  {
    RollbackOrdered(s, stop);
    forall e | e in Rollback(s, stop) ensures e.Tried? { assert UndoesBelow(s, e, stop); }
    var log := Rollback(s, stop);
    forall i, j | 0 <= i < j < |log| ensures Follows(log[i], log[j]) {
      assert Precedes(log[i], log[j]);
    }
  }

  lemma StopInOrder(s: Script, stop: nat)
    requires WellFormed(s) && stop <= |s.turns|
    ensures var end := [Stopped(stop), Saved(Compensating)] + Rollback(s, stop) + [Saved(Failed)];
            InOrder(end) && forall e | e in end :: !e.Ran?
  {
    var head, back := [Stopped(stop), Saved(Compensating)], Rollback(s, stop);
    RollbackInOrder(s, stop);
    InOrderConcat(head, back);
    InOrderConcat(head + back, [Saved(Failed)]);
  }

  lemma EndingInOrder(s: Script, stop: nat)
    requires WellFormed(s)
    ensures InOrder(Ending(s, stop)) && forall e | e in Ending(s, stop) :: !e.Ran?
  {
    if stop < |s.turns| {
      StopInOrder(s, stop);
    }
  }

  /** A run first saves the state it was given; everything after happens phase by phase. */
  lemma LogInOrder(s: Script, c: Context)
    requires WellFormed(s) && s.saves
    ensures LogOf(s, c) != [] && LogOf(s, c)[0] == Saved(c.state) && InOrder(LogOf(s, c)[1..])
  {
    var from := c.currentStep;
    var stop := StopFrom(s, from);
    RunsAreRuns(from, stop);
    EndingInOrder(s, stop);
    InOrderConcat(Runs(from, stop), Ending(s, stop));
    assert LogOf(s, c)[1..] == StepsLog(s, from);
  }

  // ---------- answers ----------

  /** The turns from `from` up to `k` are in time, open their transaction, and succeed. */
  ghost predicate SucceedUpTo(s: Script, from: nat, k: nat) {
    forall i | from <= i < k && i < |s.turns| ::
      !s.turns[i].sagaExpired && s.turns[i].transactionOpens && s.turns[i].outcome == Succeeds
  }

  /** Step `k` is the first that is late, opens no transaction, or does not succeed. */
  ghost predicate FirstToStop(s: Script, from: nat, k: nat) {
    && from <= k < |s.turns| && SucceedUpTo(s, from, k)
    && (s.turns[k].sagaExpired || !s.turns[k].transactionOpens || s.turns[k].outcome != Succeeds)
  }

  lemma GoesMeans(s: Script, from: nat, k: nat)
    ensures SucceedUpTo(s, from, k) <==> forall i | from <= i < k && i < |s.turns| :: Goes(s.turns[i])
  {
  }

  lemma StopIsFirst(s: Script, from: nat, k: nat)
    ensures FirstToStop(s, from, k) <==> k == StopFrom(s, from) && k < |s.turns|
    ensures SucceedUpTo(s, from, k) <==> k <= StopFrom(s, from) || StopFrom(s, from) >= |s.turns|
  {
    GoesMeans(s, from, k);
  }

  /**
   A run answers that the saga is completed, with the number of its steps, exactly when every turn from
   the current step on is in time, opens its transaction and succeeds.
   */
  lemma CompletedExactly(s: Script, c: Context, n: nat)
    requires WellFormed(s) && s.saves
    ensures OutcomeOf(s, c) == SagaCompleted(n) <==>
              && SucceedUpTo(s, c.currentStep, |s.turns|)
              && n == (if c.currentStep <= |s.turns| then |s.turns| else c.currentStep)
  {
    StopIsFirst(s, c.currentStep, |s.turns|);
    StopsAtEnd(s, c.currentStep);
  }

  lemma {:induction false} StopsAtEnd(s: Script, from: nat)
    ensures StopFrom(s, from) >= |s.turns| ==> StopFrom(s, from) == (if from <= |s.turns| then |s.turns| else from)
    decreases |s.turns| - from
  {
    if from < |s.turns| { StopsAtEnd(s, from + 1); }
  }

  /** Otherwise the first turn that is not so decides the answer. */
  lemma AnswersExactly(s: Script, c: Context, k: nat, error: string)
    requires WellFormed(s) && s.saves && FirstToStop(s, c.currentStep, k)
    ensures var answer, turn := OutcomeOf(s, c), s.turns[k];
            && (answer == SagaExpired <==> turn.sagaExpired)
            && (answer == TransactionFailed <==> !turn.sagaExpired && !turn.transactionOpens)
            && (answer == StepTimedOut <==> !turn.sagaExpired && turn.transactionOpens && turn.outcome == TimesOut)
            && (answer.SagaFailed? && answer.error == error <==>
                  !turn.sagaExpired && turn.transactionOpens && turn.outcome == Fails(error))
            && (answer.SagaFailed? ==> answer.stepsExecuted == k && answer.compensationsExecuted == CountUndone(s, k))
  {
    StopIsFirst(s, c.currentStep, k);
    CountUndoneIs(s, k);
  }

  /** How many of the first `n` steps have a compensation that some attempt carries out. */
  ghost function CountUndone(s: Script, n: nat): nat
    requires WellFormed(s) && n <= |s.turns|
  {
    if n == 0 then 0
    else CountUndone(s, n - 1) + (if s.compensable[n - 1] && EverUndone(s, n - 1, 1) then 1 else 0)
  }

  lemma {:induction false} CountUndoneIs(s: Script, n: nat)
    requires WellFormed(s) && n <= |s.turns|
    ensures RolledBackCount(s, n) == CountUndone(s, n)
  {
    if n > 0 {
      CountUndoneIs(s, n - 1);
      GetsUndoneExactly(s, n - 1, 1);
    }
  }

  /** A first save that fails is answered as such, and nothing is logged. */
  lemma UnsavedExactly(s: Script, c: Context)
    requires WellFormed(s)
    ensures OutcomeOf(s, c) == SaveFailed <==> !s.saves
    ensures !s.saves ==> LogOf(s, c) == []
  {
  }

  /** A run executes exactly the steps from the current one on up to the first turn that is late or does not succeed. */
  lemma RanExactly(s: Script, c: Context, i: nat)
    requires WellFormed(s) && s.saves
    ensures Ran(i) in LogOf(s, c) <==> c.currentStep <= i < |s.turns| && SucceedUpTo(s, c.currentStep, i + 1)
  {
    var from := c.currentStep;
    var stop := StopFrom(s, from);
    RunsHold(from, stop, Ran(i));
    StopIsFirst(s, from, i + 1);
    if stop < |s.turns| { RollbackTriesAll(s, stop, Ran(i)); }
  }

  lemma {:induction false} RunsHold(from: nat, stop: nat, e: Event)
    requires from <= stop
    ensures e in Runs(from, stop) <==> e.Ran? && from <= e.step < stop
  {
    if from < stop { RunsHold(from, stop - 1, e); }
  }

  /** The run stops inside step `k`: it opens its transaction in time, and fails or times out. */
  ghost predicate StopsIn(s: Script, from: nat, k: nat) {
    FirstToStop(s, from, k) && !s.turns[k].sagaExpired && s.turns[k].transactionOpens
  }

  lemma StopsInExactly(s: Script, c: Context, k: nat)
    requires WellFormed(s) && s.saves
    ensures Stopped(k) in LogOf(s, c) <==> StopsIn(s, c.currentStep, k)
  {
    var stop := StopFrom(s, c.currentStep);
    RunsHold(c.currentStep, stop, Stopped(k));
    StopIsFirst(s, c.currentStep, k);
    if stop < |s.turns| { RollbackTriesAll(s, stop, Stopped(k)); }
  }

  /**
   A run that stops inside a step tries all compensations there are for the executed steps, with all their
   attempts; a run that ends otherwise tries none.
   */
  lemma TriedExactly(s: Script, c: Context, e: Event)
    requires WellFormed(s) && s.saves && e.Tried?
    ensures e in LogOf(s, c) <==>
              exists k :: StopsIn(s, c.currentStep, k) && e.step < k && s.compensable[e.step] && e in Tries(s, e.step, 1)
  {
    var stop := StopFrom(s, c.currentStep);
    RunsHold(c.currentStep, stop, e);
    StopIsFirst(s, c.currentStep, stop);
    if k: nat :| StopsIn(s, c.currentStep, k) && e.step < k && s.compensable[e.step] && e in Tries(s, e.step, 1) {
      StopIsFirst(s, c.currentStep, k);
    }
    if stop < |s.turns| {
      RollbackTriesAll(s, stop, e);
      if e in LogOf(s, c) { assert StopsIn(s, c.currentStep, stop); }
    }
  }

  // ---------- resuming ----------

  /**
   Two executions of one saga that meet the same from step `k` on. The clock of the second starts
   anew, so what it met before, and how far its time had run, need not agree.
   */
  ghost predicate AgreeFrom(s: Script, t: Script, k: nat) {
    && |s.turns| == |t.turns|
    && (forall i | k <= i < |s.turns| :: s.turns[i] == t.turns[i])
    && s.compensable == t.compensable
    && s.maxAttempts == t.maxAttempts
    && (forall i, n :: s.undo(i, n) == t.undo(i, n))
  }

  lemma {:induction false} StopIsReached(s: Script, i: nat, k: nat)
    requires i <= k <= StopFrom(s, i)
    ensures StopFrom(s, k) == StopFrom(s, i)
    decreases k - i
  {
    if i < k { StopIsReached(s, i + 1, k); }
  }

  lemma {:induction false} StopAgrees(s: Script, t: Script, k: nat)
    requires AgreeFrom(s, t, k)
    ensures StopFrom(s, k) == StopFrom(t, k)
    decreases |s.turns| - k
  {
    if k < |s.turns| { StopAgrees(s, t, k + 1); }
  }

  lemma {:induction false} UndoneAgrees(s: Script, t: Script, k: nat, step: nat, n: nat)
    requires AgreeFrom(s, t, k)
    ensures GetsUndone(s, step, n) <==> GetsUndone(t, step, n)
    decreases s.maxAttempts - n
  {
    assert s.undo(step, n) == t.undo(step, n);
    if s.undo(step, n).UndoFails? && n < s.maxAttempts { UndoneAgrees(s, t, k, step, n + 1); }
  }

  lemma {:induction false} LeftAgrees(s: Script, t: Script, k: nat, n: nat)
    requires AgreeFrom(s, t, k) && WellFormed(s) && WellFormed(t) && n <= |s.turns|
    ensures Left(s, n) == Left(t, n) && RolledBackCount(s, n) == RolledBackCount(t, n)
  {
    if n > 0 {
      LeftAgrees(s, t, k, n - 1);
      UndoneAgrees(s, t, k, n - 1, 1);
    }
  }

  /**
   A run that starts from a context whose first steps are recorded as executed ends as the run that
   executed them would have, if it meets the same from there on: same outcome, same steps left standing.
   */
  lemma ResumeContinues(s: Script, c: Context, t: Script, d: Context)
    requires WellFormed(s) && WellFormed(t) && s.saves && t.saves
    requires c.currentStep <= d.currentStep <= StopFrom(s, c.currentStep)
    requires AgreeFrom(s, t, d.currentStep)
    ensures OutcomeOf(t, d) == OutcomeOf(s, c)
    ensures Standing(Below(d.currentStep), LogOf(t, d)) == Standing(Below(c.currentStep), LogOf(s, c))
  {
    StopIsReached(s, c.currentStep, d.currentStep);
    StopAgrees(s, t, d.currentStep);
    var stop := StopFrom(s, c.currentStep);
    if stop <= |s.turns| { LeftAgrees(s, t, d.currentStep, stop); }
    StandingAfter(s, c);
    StandingAfter(t, d);
  }
}
