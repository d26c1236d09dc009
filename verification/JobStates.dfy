/** The job state machine: the guard of `JobState` and what every run under it keeps. */
module JobStates {
  import opened Runs

  datatype JobState =
    | Pending
    | Assigned
    | Scheduled
    | Running
    | Succeeded
    | Failed
    | Cancelled
    | Timeout
    | ManualInterventionRequired

  /** The transition guard, branch by branch. */
  predicate CanTransitionTo(s: JobState, n: JobState) {
    if s == n then false
    else
      match (s, n)
      case (Pending, Assigned) => true
      case (Pending, Scheduled) => true
      case (Pending, Failed) => true
      case (Pending, Cancelled) => true
      case (Pending, Timeout) => true
      case (Pending, ManualInterventionRequired) => true
      case (Assigned, Running) => true
      case (Assigned, Failed) => true
      case (Assigned, Timeout) => true
      case (Assigned, Cancelled) => true
      case (Assigned, ManualInterventionRequired) => true
      case (Scheduled, Running) => true
      case (Scheduled, Failed) => true
      case (Scheduled, Timeout) => true
      case (Scheduled, Cancelled) => true
      case (Scheduled, ManualInterventionRequired) => true
      case (Running, Succeeded) => true
      case (Running, Failed) => true
      case (Running, Cancelled) => true
      case (Running, Timeout) => true
      case (Running, ManualInterventionRequired) => true
      case (ManualInterventionRequired, Pending) => true
      case (ManualInterventionRequired, Failed) => true
      case (ManualInterventionRequired, Cancelled) => true
      case _ => false
  }

  predicate IsTerminal(s: JobState) {
    s.Succeeded? || s.Failed? || s.Cancelled? || s.Timeout?
  }

  predicate IsInProgress(s: JobState) {
    s.Pending? || s.Assigned? || s.Scheduled? || s.Running? || s.ManualInterventionRequired?
  }

  predicate IsScheduled(s: JobState) {
    s.Assigned? || s.Scheduled?
  }

  ghost predicate IsJobRun(r: seq<JobState>) {
    IsRun(CanTransitionTo, r)
  }

  // ---------- how long a run can be ----------

  /** Steps still available without another visit to an operator. */
  function Rank(s: JobState): nat {
    match s
    case ManualInterventionRequired => 4
    case Pending => 3
    case Assigned => 2
    case Scheduled => 2
    case Running => 1
    case _ => 0
  }

  function ManualCredit(s: JobState): nat {
    if s.ManualInterventionRequired? then 4 else 0
  }

  /** The steps of the longest way round: nothing is given up early. */
  predicate FullStep(a: JobState, b: JobState) {
    || (a.Pending? && IsScheduled(b))
    || (IsScheduled(a) && b.Running?)
    || (a.Running? && (IsTerminal(b) || b.ManualInterventionRequired?))
    || (a.ManualInterventionRequired? && b.Pending?)
  }

  /** The entries into `ManualInterventionRequired` along a run; its start is not an entry. */
  function ManualEntries(r: seq<JobState>): nat {
    if |r| <= 1 then 0
    else ManualEntries(r[..|r| - 1]) + (if Last(r).ManualInterventionRequired? then 1 else 0)
  }

  /** No step of the run is a short cut. */
  ghost predicate AllFullSteps(r: seq<JobState>) {
    forall i | 0 <= i < |r| - 1 :: FullStep(r[i], r[i + 1])
  }

  lemma AllFullStepsLast(r: seq<JobState>)
    requires |r| > 1
    ensures AllFullSteps(r) <==> AllFullSteps(r[..|r| - 1]) && FullStep(r[|r| - 2], r[|r| - 1])
  {
    var init := r[..|r| - 1];
    if AllFullSteps(r) {
      assert FullStep(r[|r| - 2], r[|r| - 2 + 1]);
      forall i | 0 <= i < |init| - 1 ensures FullStep(init[i], init[i + 1]) {
        assert init[i] == r[i] && init[i + 1] == r[i + 1];
      }
    }
    if AllFullSteps(init) && FullStep(r[|r| - 2], r[|r| - 1]) {
      forall i | 0 <= i < |r| - 1 ensures FullStep(r[i], r[i + 1]) {
        if i < |r| - 2 { assert init[i] == r[i] && init[i + 1] == r[i + 1]; }
      }
    }
  }

  /**
   Every run pays for its steps out of the rank it gives up and four steps per entry into manual
   intervention, and it spends all of that exactly when it takes no short cut.
   */
  lemma {:induction false} RunLength(r: seq<JobState>)
    requires IsJobRun(r)
    ensures |r| - 1 + Rank(Last(r)) <= Rank(r[0]) + 4 * ManualEntries(r)
    ensures |r| - 1 + Rank(Last(r)) == Rank(r[0]) + 4 * ManualEntries(r) <==> AllFullSteps(r)
  {
    if |r| > 1 {
      RunSlice(CanTransitionTo, r, 0, |r| - 1);
      RunLength(r[..|r| - 1]);
      AllFullStepsLast(r);
      assert CanTransitionTo(r[|r| - 2], r[|r| - 2 + 1]);
    }
  }

  /** `retries` rounds through manual intervention, then success. */
  function LongestRun(retries: nat): seq<JobState> {
    if retries == 0 then [Pending, Assigned, Running, Succeeded]
    else [Pending, Assigned, Running, ManualInterventionRequired] + LongestRun(retries - 1)
  }

  lemma {:induction false} ManualEntriesConcat(xs: seq<JobState>, ys: seq<JobState>)
    requires xs != []
    ensures ManualEntries(xs + ys) ==
            ManualEntries(xs) + (if ys == [] then 0 else ManualEntries(ys) + (if ys[0].ManualInterventionRequired? then 1 else 0))
  {
    if ys == [] {
      assert xs + ys == xs;
    } else {
      assert (xs + ys)[..|xs + ys| - 1] == xs + ys[..|ys| - 1];
      ManualEntriesConcat(xs, ys[..|ys| - 1]);
    }
  }

  lemma ManualEntriesOfFour(a: JobState, b: JobState, c: JobState, d: JobState)
    requires !b.ManualInterventionRequired? && !c.ManualInterventionRequired?
    ensures ManualEntries([a, b, c, d]) == if d.ManualInterventionRequired? then 1 else 0
  {
    assert [a, b, c, d][..3] == [a, b, c];
    assert [a, b, c][..2] == [a, b];
    assert [a, b][..1] == [a];
    assert ManualEntries([a, b]) == 0;
    assert ManualEntries([a, b, c]) == 0;
  }

  /** The bound of RunLength is reached from `Pending` for every number of manual interventions. */
  lemma {:induction false} LongestRunReachesBound(retries: nat)
    ensures IsJobRun(LongestRun(retries))
    ensures LongestRun(retries)[0] == Pending && Last(LongestRun(retries)) == Succeeded
    ensures ManualEntries(LongestRun(retries)) == retries
    ensures |LongestRun(retries)| - 1 == 4 * retries + 3
  {
    var round := [Pending, Assigned, Running, ManualInterventionRequired];
    ManualEntriesOfFour(Pending, Assigned, Running, ManualInterventionRequired);
    if retries == 0 {
      ManualEntriesOfFour(Pending, Assigned, Running, Succeeded);
    } else {
      LongestRunReachesBound(retries - 1);
      RunConcat(CanTransitionTo, round, LongestRun(retries - 1));
      ManualEntriesConcat(round, LongestRun(retries - 1));
    }
  }

  // ---------- what a run must contain ----------

  /** How far along one attempt a state is; only a retry goes back. */
  function Progress(s: JobState): nat {
    match s
    case Pending => 0
    case Assigned => 1
    case Scheduled => 1
    case Running => 2
    case ManualInterventionRequired => 3
    case _ => 4
  }

  predicate RetryAt(r: seq<JobState>, k: int) {
    0 <= k < |r| - 1 && r[k].ManualInterventionRequired? && r[k + 1].Pending?
  }

  lemma {:induction false} ProgressWithoutRetry(r: seq<JobState>, i: nat, j: nat)
    requires IsJobRun(r) && i < j < |r|
    requires forall k | i <= k < j :: !RetryAt(r, k)
    ensures Progress(r[i]) < Progress(r[j]) && j - i <= Progress(r[j]) - Progress(r[i])
    decreases j
  {
    assert CanTransitionTo(r[j - 1], r[j - 1 + 1]) && !RetryAt(r, j - 1);
    if i < j - 1 {
      ProgressWithoutRetry(r, i, j - 1);
    }
  }

  /** A state is visited twice only if an operator sent the job back to `Pending` in between. */
  lemma RevisitNeedsRetry(r: seq<JobState>, i: nat, j: nat)
    requires IsJobRun(r) && i < j < |r| && r[i] == r[j]
    ensures exists k :: i <= k < j && RetryAt(r, k)
  {
    if forall k | i <= k < j :: !RetryAt(r, k) {
      ProgressWithoutRetry(r, i, j);
    }
  }

  lemma {:induction false} NoManualEntry(r: seq<JobState>, k: nat)
    requires ManualEntries(r) == 0 && 0 < k < |r|
    ensures !r[k].ManualInterventionRequired?
  {
    if k < |r| - 1 {
      NoManualEntry(r[..|r| - 1], k);
    }
  }

  /** Without manual intervention a job never repeats a state and takes at most three steps. */
  lemma RunWithoutOperator(r: seq<JobState>)
    requires IsJobRun(r) && r[0] != ManualInterventionRequired && ManualEntries(r) == 0
    ensures forall i, j | 0 <= i < j < |r| :: r[i] != r[j]
    ensures |r| - 1 <= 3
  {
    RunLength(r);
    forall i, j | 0 <= i < j < |r| ensures r[i] != r[j] {
      if r[i] == r[j] {
        RevisitNeedsRetry(r, i, j);
        var k :| i <= k < j && RetryAt(r, k);
        if k > 0 { NoManualEntry(r, k); }
      }
    }
  }

  /** A terminal state can only be the last of a run. */
  lemma TerminalIsLast(r: seq<JobState>, i: nat)
    requires IsJobRun(r) && i < |r| - 1
    ensures !IsTerminal(r[i])
  {
    assert CanTransitionTo(r[i], r[i + 1]);
  }

  /** However many retries came before, success is reached through one complete attempt. */
  lemma SuccessHistory(r: seq<JobState>)
    requires IsJobRun(r) && r[0] == Pending && Last(r) == Succeeded
    ensures |r| >= 4
    ensures r[|r| - 4] == Pending && IsScheduled(r[|r| - 3]) && r[|r| - 2] == Running
  {
    var n := |r|;
    assert CanTransitionTo(r[n - 2], r[n - 2 + 1]);
    assert CanTransitionTo(r[n - 3], r[n - 3 + 1]);
    assert CanTransitionTo(r[n - 4], r[n - 4 + 1]);
  }

  // ---------- visit counts ----------

  /** What the visit counts `m` of a run from `Pending` to `last` satisfy. */
  ghost predicate CountsFit(m: multiset<JobState>, last: JobState) {
    && m[ManualInterventionRequired] <= m[Pending] <= 1 + m[ManualInterventionRequired]
    && m[Running] <= m[Assigned] + m[Scheduled] <= m[Pending]
    && m[Succeeded] <= m[Running]
    && m[Succeeded] + m[Failed] + m[Cancelled] + m[Timeout] == (if IsTerminal(last) then 1 else 0)
    && (last.Pending? || IsScheduled(last) || last.Running? ==> m[Pending] == 1 + m[ManualInterventionRequired])
    && (last.ManualInterventionRequired? ==> m[Pending] == m[ManualInterventionRequired])
    && (last.Pending? ==> m[Assigned] + m[Scheduled] < m[Pending])
    && (IsScheduled(last) ==> m[Running] < m[Assigned] + m[Scheduled])
    && (last.Running? ==> m[Succeeded] < m[Running])
  }

  lemma CountsStep(m: multiset<JobState>, a: JobState, b: JobState)
    requires CountsFit(m, a) && CanTransitionTo(a, b)
    ensures CountsFit(m + multiset{b}, b)
  {
    assert forall s :: (m + multiset{b})[s] == m[s] + (if s == b then 1 else 0);
  }

  /** Visit counts of every run that starts in `Pending`. */
  lemma {:induction false} VisitCounts(r: seq<JobState>)
    requires IsJobRun(r) && r[0] == Pending
    ensures CountsFit(multiset(r), Last(r))
  {
    if |r| == 1 {
      assert r == [Pending];
    } else {
      var init := r[..|r| - 1];
      RunSlice(CanTransitionTo, r, 0, |r| - 1);
      VisitCounts(init);
      assert CanTransitionTo(r[|r| - 2], r[|r| - 2 + 1]);
      CountsStep(multiset(init), Last(init), Last(r));
      assert r == init + [Last(r)];
    }
  }

  /**
   Every prefix of a run from `Pending` has visited `Pending` as often as
   `ManualInterventionRequired`, or once more: the two strictly alternate.
   */
  lemma VisitsAlternate(r: seq<JobState>, n: nat)
    requires IsJobRun(r) && r[0] == Pending && 0 < n <= |r|
    ensures var m := multiset(r[..n]);
            m[Pending] == m[ManualInterventionRequired] || m[Pending] == m[ManualInterventionRequired] + 1
    ensures var m := multiset(r[..n]);
            m[Running] <= m[Assigned] + m[Scheduled] <= m[Pending] <= 1 + m[ManualInterventionRequired]
  {
    RunSlice(CanTransitionTo, r, 0, n);
    VisitCounts(r[..n]);
  }

  // ---------- reachability ----------

  /** A shortest non-empty run from a non-terminal state to any state. */
  function PathTo(a: JobState, b: JobState): seq<JobState>
    requires !IsTerminal(a)
  {
    if CanTransitionTo(a, b) then [a, b]
    else
      match b
      case Pending => [a, ManualInterventionRequired, Pending]
      case Assigned => if a.ManualInterventionRequired? then [a, Pending, b] else [a, ManualInterventionRequired, Pending, b]
      case Scheduled => if a.ManualInterventionRequired? then [a, Pending, b] else [a, ManualInterventionRequired, Pending, b]
      case Running =>
        if a.Pending? then [a, Assigned, b]
        else if a.ManualInterventionRequired? then [a, Pending, Assigned, b]
        else [a, ManualInterventionRequired, Pending, Assigned, b]
      case Succeeded =>
        if a.Pending? then [a, Assigned, Running, b]
        else if a.ManualInterventionRequired? then [a, Pending, Assigned, Running, b]
        else [a, Running, b]
      case ManualInterventionRequired => [a, Pending, b]
      case _ => [a, Pending, b]
  }

  /** Non-terminal states reach every state, in at most four steps. */
  lemma PathToIsRun(a: JobState, b: JobState)
    requires !IsTerminal(a)
    ensures var p := PathTo(a, b); IsJobRun(p) && p[0] == a && Last(p) == b && 2 <= |p| <= 5
  {
    var p := PathTo(a, b);
    forall i | 0 <= i < |p| - 1 ensures CanTransitionTo(p[i], p[i + 1]) {
      if i == 0 {} else if i == 1 {} else if i == 2 {} else {}
    }
  }

  lemma PathStep(a: JobState, c: JobState, b: JobState)
    requires CanTransitionTo(a, c) && !IsTerminal(c)
    ensures !IsTerminal(a) && |PathTo(a, b)| <= 1 + |PathTo(c, b)|
  {
  }

  /** No run is shorter than PathTo, and terminal states reach nothing. */
  lemma {:induction false} PathToIsShortest(r: seq<JobState>)
    requires IsJobRun(r) && |r| >= 2
    ensures !IsTerminal(r[0]) && |PathTo(r[0], Last(r))| <= |r|
  {
    assert CanTransitionTo(r[0], r[0 + 1]);
    if |r| > 2 {
      RunSlice(CanTransitionTo, r, 1, |r|);
      PathToIsShortest(r[1..]);
      PathStep(r[0], r[1], Last(r));
    }
  }

  /** Three readings of "finished" agree: terminal, not in progress, and no way out. */
  lemma TerminalCharacterised(s: JobState)
    ensures IsTerminal(s) <==> !IsInProgress(s)
    ensures IsTerminal(s) <==> forall n :: !CanTransitionTo(s, n)
  {
    if !IsTerminal(s) {
      assert CanTransitionTo(s, Failed);
    }
  }
}
