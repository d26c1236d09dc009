/** Histories of doing and undoing the steps of a saga, and the table rows that record them. */
module SagaHistories {

  /** A step was done, or its compensation was. */
  datatype Effect = Did(step: nat) | Undid(step: nat)

  // ---------- what is in effect ----------

  /** The steps in effect after some effects, if those in `before` were in effect at their start. */
  function Replayed(before: set<nat>, effects: seq<Effect>): set<nat> {
    if effects == [] then before
    else Apply(Replayed(before, effects[..|effects| - 1]), effects[|effects| - 1])
  }

  function Apply(present: set<nat>, e: Effect): set<nat> {
    match e
    case Did(i) => present + {i}
    case Undid(i) => present - {i}
  }

  function InEffect(effects: seq<Effect>): set<nat> {
    Replayed({}, effects)
  }

  lemma {:induction false} ReplayedConcat(before: set<nat>, xs: seq<Effect>, ys: seq<Effect>)
    ensures Replayed(before, xs + ys) == Replayed(Replayed(before, xs), ys)
  {
    if ys == [] {
      assert xs + ys == xs;
    } else {
      assert (xs + ys)[..|xs + ys| - 1] == xs + ys[..|ys| - 1];
      ReplayedConcat(before, xs, ys[..|ys| - 1]);
    }
  }

  function Dids(steps: seq<nat>): seq<Effect> {
    seq(|steps|, k requires 0 <= k < |steps| => Did(steps[k]))
  }

  function Undids(steps: seq<nat>): seq<Effect> {
    seq(|steps|, k requires 0 <= k < |steps| => Undid(steps[k]))
  }

  lemma {:induction false} ReplayedDids(before: set<nat>, steps: seq<nat>)
    ensures forall j :: j in Replayed(before, Dids(steps)) <==> j in before || j in steps
  {
    if steps != [] {
      var init := steps[..|steps| - 1];
      assert Dids(steps)[..|steps| - 1] == Dids(init);
      assert steps == init + [steps[|steps| - 1]];
      ReplayedDids(before, init);
    }
  }

  lemma {:induction false} ReplayedUndids(before: set<nat>, steps: seq<nat>)
    ensures forall j :: j in Replayed(before, Undids(steps)) <==> j in before && j !in steps
  {
    if steps != [] {
      var init := steps[..|steps| - 1];
      assert Undids(steps)[..|steps| - 1] == Undids(init);
      assert steps == init + [steps[|steps| - 1]];
      ReplayedUndids(before, init);
    }
  }

  // ---------- discipline ----------

  /** Above `i` there is no step in effect that has a compensation; `c` says which steps have one. */
  predicate TopOf(c: seq<bool>, present: set<nat>, i: nat) {
    forall j | i < j < |c| && c[j] :: j !in present
  }

  /**
   A step is done only when it is not in effect, everything before it is, and nothing after it could
   still be compensated; it is undone only when it is in effect and the last that could be.
   */
  predicate Allowed(c: seq<bool>, present: set<nat>, e: Effect) {
    match e
    case Did(i) =>
      i < |c| && i !in present && (forall j | 0 <= j < i :: j in present) && TopOf(c, present, i)
    case Undid(i) =>
      i < |c| && c[i] && i in present && TopOf(c, present, i)
  }

  /** Each effect was allowed by what was in effect before it. */
  predicate Disciplined(c: seq<bool>, effects: seq<Effect>) {
    effects == [] ||
    (Disciplined(c, effects[..|effects| - 1]) && Allowed(c, InEffect(effects[..|effects| - 1]), effects[|effects| - 1]))
  }

  lemma EffectAppend(c: seq<bool>, effects: seq<Effect>, e: Effect)
    ensures InEffect(effects + [e]) == Apply(InEffect(effects), e)
    ensures Disciplined(c, effects + [e]) <==> Disciplined(c, effects) && Allowed(c, InEffect(effects), e)
  {
    assert (effects + [e])[..|effects|] == effects;
  }

  /** A step in effect above one that is not: the upper has no compensation, the lower has one. */
  predicate Closed(c: seq<bool>, present: set<nat>) {
    && (forall j | j in present :: j < |c|)
    && (forall i, j | 0 <= i < j < |c| && j in present && i !in present :: c[i] && !c[j])
  }

  lemma {:induction false} DisciplineCloses(c: seq<bool>, effects: seq<Effect>)
    requires Disciplined(c, effects)
    ensures Closed(c, InEffect(effects))
  {
    if effects != [] {
      DisciplineCloses(c, effects[..|effects| - 1]);
    }
  }

  /** In every disciplined history a step was done as often as undone, or once more while it is in effect. */
  lemma {:induction false} DoneOnce(c: seq<bool>, effects: seq<Effect>, i: nat)
    requires Disciplined(c, effects)
    ensures multiset(effects)[Did(i)] == multiset(effects)[Undid(i)] + (if i in InEffect(effects) then 1 else 0)
  {
    if effects != [] {
      var init := effects[..|effects| - 1];
      assert effects == init + [effects[|effects| - 1]];
      DoneOnce(c, init, i);
    }
  }

  lemma NextIsTop(c: seq<bool>, present: set<nat>, i: nat)
    requires Closed(c, present) && i < |c| && i !in present
    ensures TopOf(c, present, i)
  {
  }

  lemma NextIsAllowed(c: seq<bool>, effects: seq<Effect>, i: nat)
    requires Disciplined(c, effects) && i < |c| && i !in InEffect(effects)
    requires forall j | 0 <= j < i :: j in InEffect(effects)
    ensures Allowed(c, InEffect(effects), Did(i))
  {
    DisciplineCloses(c, effects);
    NextIsTop(c, InEffect(effects), i);
  }

  // ---------- rows ----------

  datatype RowState = StepCompleted | StepCompensated

  /** A committed row of the step table. Rows in other states are never committed. */
  datatype Row = Row(step: nat, state: RowState)

  predicate IsCompleted(row: Row) { row.state.StepCompleted? }

  function CompletedSteps(rows: seq<Row>): set<nat> {
    if rows == [] then {}
    else CompletedSteps(rows[..|rows| - 1]) + (if IsCompleted(rows[|rows| - 1]) then {rows[|rows| - 1].step} else {})
  }

  function CompletedCount(rows: seq<Row>): nat {
    if rows == [] then 0 else CompletedCount(rows[..|rows| - 1]) + (if IsCompleted(rows[|rows| - 1]) then 1 else 0)
  }

  /** Marks the first completed row of the step as compensated. */
  function Mark(rows: seq<Row>, step: nat): seq<Row> {
    if rows == [] then []
    else if rows[0] == Row(step, StepCompleted) then [Row(step, StepCompensated)] + rows[1..]
    else [rows[0]] + Mark(rows[1..], step)
  }

  lemma {:induction false} CompletedAre(rows: seq<Row>, j: nat)
    ensures j in CompletedSteps(rows) <==> Row(j, StepCompleted) in rows
  {
    if rows != [] {
      var init, row := rows[..|rows| - 1], rows[|rows| - 1];
      assert rows == init + [row];
      CompletedAre(init, j);
    }
  }

  lemma CompletedAppend(rows: seq<Row>, row: Row)
    ensures CompletedSteps(rows + [row]) == CompletedSteps(rows) + (if IsCompleted(row) then {row.step} else {})
    ensures CompletedCount(rows + [row]) == CompletedCount(rows) + (if IsCompleted(row) then 1 else 0)
  {
    assert (rows + [row])[..|rows|] == rows;
  }

  lemma {:induction false} CountAtLeast(rows: seq<Row>)
    ensures |CompletedSteps(rows)| <= CompletedCount(rows)
  {
    if rows != [] {
      var init, row := rows[..|rows| - 1], rows[|rows| - 1];
      assert rows == init + [row];
      CountAtLeast(init);
      CompletedAppend(init, row);
    }
  }

  lemma {:induction false} CompletedConcat(xs: seq<Row>, ys: seq<Row>)
    ensures CompletedSteps(xs + ys) == CompletedSteps(xs) + CompletedSteps(ys)
    ensures CompletedCount(xs + ys) == CompletedCount(xs) + CompletedCount(ys)
  {
    if ys == [] {
      assert xs + ys == xs;
    } else {
      assert (xs + ys)[..|xs + ys| - 1] == xs + ys[..|ys| - 1];
      CompletedConcat(xs, ys[..|ys| - 1]);
    }
  }

  lemma CompletedOne(row: Row)
    ensures CompletedSteps([row]) == if IsCompleted(row) then {row.step} else {}
    ensures CompletedCount([row]) == if IsCompleted(row) then 1 else 0
  {
    CompletedAppend([], row);
    assert [] + [row] == [row];
  }

  lemma OneRowEach(row: Row, rest: seq<Row>)
    requires CompletedCount([row] + rest) == |CompletedSteps([row] + rest)|
    ensures CompletedCount(rest) == |CompletedSteps(rest)|
    ensures IsCompleted(row) ==> row.step !in CompletedSteps(rest)
  {
    CompletedConcat([row], rest);
    CompletedOne(row);
    CountAtLeast(rest);
    if IsCompleted(row) {
      assert row.step in CompletedSteps(rest) ==> {row.step} + CompletedSteps(rest) == CompletedSteps(rest);
    }
  }

  lemma MarkFirst(rest: seq<Row>, step: nat)
    requires var rows := [Row(step, StepCompleted)] + rest; CompletedCount(rows) == |CompletedSteps(rows)|
    ensures var rows, marked := [Row(step, StepCompleted)] + rest, [Row(step, StepCompensated)] + rest;
            CompletedSteps(marked) == CompletedSteps(rows) - {step} && CompletedCount(marked) == CompletedCount(rows) - 1
  {
    OneRowEach(Row(step, StepCompleted), rest);
    CompletedConcat([Row(step, StepCompleted)], rest);
    CompletedConcat([Row(step, StepCompensated)], rest);
    CompletedOne(Row(step, StepCompleted));
    CompletedOne(Row(step, StepCompensated));
  }

  lemma MarkLater(row: Row, rest: seq<Row>, marked: seq<Row>, step: nat)
    requires row != Row(step, StepCompleted)
    requires CompletedSteps(marked) == CompletedSteps(rest) - {step} && CompletedCount(marked) == CompletedCount(rest) - 1
    ensures CompletedSteps([row] + marked) == CompletedSteps([row] + rest) - {step}
    ensures CompletedCount([row] + marked) == CompletedCount([row] + rest) - 1
  {
    CompletedConcat([row], rest);
    CompletedConcat([row], marked);
    CompletedOne(row);
  }

  /** Where every completed step has one row, marking one removes exactly that step. */
  lemma {:induction false} MarkRemoves(rows: seq<Row>, step: nat)
    requires step in CompletedSteps(rows) && CompletedCount(rows) == |CompletedSteps(rows)|
    ensures CompletedSteps(Mark(rows, step)) == CompletedSteps(rows) - {step}
    ensures CompletedCount(Mark(rows, step)) == CompletedCount(rows) - 1
  {
    var row, rest := rows[0], rows[1..];
    assert rows == [row] + rest;
    if row == Row(step, StepCompleted) {
      MarkFirst(rest, step);
    } else {
      OneRowEach(row, rest);
      StepIsLater(row, rest, step);
      MarkRemoves(rest, step);
      MarkLater(row, rest, Mark(rest, step), step);
    }
  }

  lemma StepIsLater(row: Row, rest: seq<Row>, step: nat)
    requires row != Row(step, StepCompleted) && step in CompletedSteps([row] + rest)
    ensures step in CompletedSteps(rest)
  {
    CompletedConcat([row], rest);
    CompletedOne(row);
  }
}
