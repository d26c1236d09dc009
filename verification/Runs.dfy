/**
 Runs of one guarded state machine, and a store that holds many of them.

 A machine is given by its guard `can`: `can(a, b)` says that a machine in state `a` accepts the
 requested state `b`. Everything here holds for every guard; JobFleet and WorkerStates apply it to
 the two guards of the repository.
 */
module Runs {

  datatype Request<Id, S> = Request(id: Id, target: S)

  function Last<T>(s: seq<T>): T
    requires s != []
  {
    s[|s| - 1]
  }

  /** A non-empty list of states in which the guard allows every consecutive pair. */
  ghost predicate IsRun<S>(can: (S, S) -> bool, r: seq<S>) {
    && r != []
    && forall i | 0 <= i < |r| - 1 :: can(r[i], r[i + 1])
  }

  lemma RunAppend<S>(can: (S, S) -> bool, r: seq<S>, s: S)
    requires IsRun(can, r) && can(Last(r), s)
    ensures IsRun(can, r + [s])
  {
    var q := r + [s];
    forall i | 0 <= i < |q| - 1 ensures can(q[i], q[i + 1]) {
      if i == |r| - 1 {
        assert q[i] == Last(r) && q[i + 1] == s;
      } else {
        assert q[i] == r[i] && q[i + 1] == r[i + 1];
      }
    }
  }

  lemma RunSlice<S>(can: (S, S) -> bool, r: seq<S>, lo: nat, hi: nat)
    requires IsRun(can, r) && lo < hi <= |r|
    ensures IsRun(can, r[lo..hi])
  {
    var q := r[lo..hi];
    forall i | 0 <= i < |q| - 1 ensures can(q[i], q[i + 1]) {
      assert q[i] == r[lo + i] && q[i + 1] == r[lo + i + 1];
    }
  }

  lemma RunConcat<S>(can: (S, S) -> bool, r: seq<S>, q: seq<S>)
    requires IsRun(can, r) && IsRun(can, q) && can(Last(r), q[0])
    ensures IsRun(can, r + q)
  {
    var t := r + q;
    forall i | 0 <= i < |t| - 1 ensures can(t[i], t[i + 1]) {
      if i < |r| - 1 {
        assert t[i] == r[i] && t[i + 1] == r[i + 1];
      } else if i == |r| - 1 {
        assert t[i] == Last(r) && t[i + 1] == q[0];
      } else {
        assert t[i] == q[i - |r|] && t[i + 1] == q[i - |r| + 1];
      }
    }
  }

  // ---------- one machine ----------

  /** The states one machine passes through when the targets are requested in order. */
  function Trail<S>(can: (S, S) -> bool, start: S, targets: seq<S>): (trail: seq<S>)
    ensures trail != [] && trail[0] == start
  {
    if targets == [] then [start]
    else
      var before := Trail(can, start, targets[..|targets| - 1]);
      if can(Last(before), Last(targets)) then before + [Last(targets)] else before
  }

  lemma {:induction false} TrailIsRun<S>(can: (S, S) -> bool, start: S, targets: seq<S>)
    ensures IsRun(can, Trail(can, start, targets))
  {
    if targets != [] {
      var init := targets[..|targets| - 1];
      TrailIsRun(can, start, init);
      if can(Last(Trail(can, start, init)), Last(targets)) {
        RunAppend(can, Trail(can, start, init), Last(targets));
      }
    }
  }

  /** One more request is taken if the guard allows it, and else passed over. */
  lemma TrailStep<S>(can: (S, S) -> bool, start: S, targets: seq<S>, t: S)
    ensures var before := Trail(can, start, targets);
            Trail(can, start, targets + [t]) == if can(before[|before| - 1], t) then before + [t] else before
  {
    assert (targets + [t])[..|targets|] == targets;
  }

  /** A machine asked for the states of a run goes through that run. */
  lemma {:induction false} TrailFollowsRun<S>(can: (S, S) -> bool, r: seq<S>)
    requires IsRun(can, r)
    ensures Trail(can, r[0], r[1..]) == r
  {
    if |r| > 1 {
      var init, last := r[..|r| - 1], r[|r| - 1];
      RunSlice(can, r, 0, |r| - 1);
      TrailFollowsRun(can, init);
      assert r[1..] == init[1..] + [last];
      TrailStep(can, r[0], init[1..], last);
      assert can(r[|r| - 2], r[|r| - 2 + 1]);
    }
  }

  // ---------- a store of machines ----------

  predicate Accepts<Id, S>(can: (S, S) -> bool, fleet: map<Id, S>, q: Request<Id, S>) {
    q.id in fleet && can(fleet[q.id], q.target)
  }

  /** The store after one request: an unknown id or a refused target changes nothing. */
  function Submit<Id, S>(can: (S, S) -> bool, fleet: map<Id, S>, q: Request<Id, S>): map<Id, S> {
    if Accepts(can, fleet, q) then fleet[q.id := q.target] else fleet
  }

  function Replay<Id, S>(can: (S, S) -> bool, fleet: map<Id, S>, qs: seq<Request<Id, S>>): map<Id, S> {
    if qs == [] then fleet
    else Submit(can, Replay(can, fleet, qs[..|qs| - 1]), Last(qs))
  }

  /** The requests that were accepted, in order. */
  function Accepted<Id, S>(can: (S, S) -> bool, fleet: map<Id, S>, qs: seq<Request<Id, S>>): seq<Request<Id, S>> {
    if qs == [] then []
    else
      var init := qs[..|qs| - 1];
      if Accepts(can, Replay(can, fleet, init), Last(qs))
      then Accepted(can, fleet, init) + [Last(qs)]
      else Accepted(can, fleet, init)
  }

  /** The targets requested for one id, in order. */
  function TargetsOf<Id(==), S>(qs: seq<Request<Id, S>>, id: Id): seq<S> {
    if qs == [] then []
    else
      var init := TargetsOf(qs[..|qs| - 1], id);
      if Last(qs).id == id then init + [Last(qs).target] else init
  }

  lemma {:induction false} ReplayKeepsIds<Id, S>(can: (S, S) -> bool, fleet: map<Id, S>, qs: seq<Request<Id, S>>)
    ensures Replay(can, fleet, qs).Keys == fleet.Keys
  {
    if qs != [] {
      ReplayKeepsIds(can, fleet, qs[..|qs| - 1]);
    }
  }

  /**
   Machines in one store do not see each other: under any interleaving, what one id went through is
   the trail of a lone machine given that id's own requests, and what was accepted for it is a run.
   */
  lemma {:induction false} ReplayProjects<Id, S>(
    can: (S, S) -> bool, fleet: map<Id, S>, qs: seq<Request<Id, S>>, id: Id)
    requires id in fleet
    ensures var trail := Trail(can, fleet[id], TargetsOf(qs, id));
            && Replay(can, fleet, qs).Keys == fleet.Keys
            && Replay(can, fleet, qs)[id] == Last(trail)
            && trail == [fleet[id]] + TargetsOf(Accepted(can, fleet, qs), id)
            && IsRun(can, trail)
  {
    TrailIsRun(can, fleet[id], TargetsOf(qs, id));
    ReplayKeepsIds(can, fleet, qs);
    if qs != [] {
      var init := qs[..|qs| - 1];
      ReplayProjects(can, fleet, init, id);
      ReplayKeepsIds(can, fleet, init);
      var mine := TargetsOf(init, id);
      if Last(qs).id == id {
        assert TargetsOf(qs, id)[..|mine|] == mine;
      }
      var accepted := Accepted(can, fleet, init);
      assert (accepted + [Last(qs)])[..|accepted|] == accepted;
    }
  }

  lemma {:induction false} OccurrencesOf<Id, S>(qs: seq<Request<Id, S>>, q: Request<Id, S>)
    ensures multiset(qs)[q] == multiset(TargetsOf(qs, q.id))[q.target]
  {
    if qs != [] {
      var init := qs[..|qs| - 1];
      assert qs == init + [Last(qs)];
      OccurrencesOf(init, q);
    }
  }

  lemma {:induction false} AcceptedAreKnown<Id, S>(
    can: (S, S) -> bool, fleet: map<Id, S>, qs: seq<Request<Id, S>>, q: Request<Id, S>)
    requires q in Accepted(can, fleet, qs)
    ensures q.id in fleet
  {
    var init := qs[..|qs| - 1];
    ReplayKeepsIds(can, fleet, init);
    if q in Accepted(can, fleet, init) {
      AcceptedAreKnown(can, fleet, init, q);
    }
  }

  lemma AcceptedProjects<Id, S>(
    can: (S, S) -> bool, fleet: map<Id, S>, xs: seq<Request<Id, S>>, ys: seq<Request<Id, S>>, id: Id)
    requires id in fleet
    requires TargetsOf(xs, id) == TargetsOf(ys, id)
    ensures Replay(can, fleet, xs).Keys == Replay(can, fleet, ys).Keys == fleet.Keys
    ensures Replay(can, fleet, xs)[id] == Replay(can, fleet, ys)[id]
    ensures TargetsOf(Accepted(can, fleet, xs), id) == TargetsOf(Accepted(can, fleet, ys), id)
  {
    ReplayProjects(can, fleet, xs, id);
    ReplayProjects(can, fleet, ys, id);
    var a, b := TargetsOf(Accepted(can, fleet, xs), id), TargetsOf(Accepted(can, fleet, ys), id);
    assert a == ([fleet[id]] + a)[1..] == ([fleet[id]] + b)[1..] == b;
  }

  lemma AcceptedCount<Id, S>(
    can: (S, S) -> bool, fleet: map<Id, S>, xs: seq<Request<Id, S>>, ys: seq<Request<Id, S>>, q: Request<Id, S>)
    requires q.id in fleet ==> TargetsOf(xs, q.id) == TargetsOf(ys, q.id)
    ensures multiset(Accepted(can, fleet, xs))[q] == multiset(Accepted(can, fleet, ys))[q]
  {
    var a, b := Accepted(can, fleet, xs), Accepted(can, fleet, ys);
    if q.id in fleet {
      AcceptedProjects(can, fleet, xs, ys, q.id);
      OccurrencesOf(a, q);
      OccurrencesOf(b, q);
    } else {
      if q in a { AcceptedAreKnown(can, fleet, xs, q); }
      if q in b { AcceptedAreKnown(can, fleet, ys, q); }
    }
  }

  ghost predicate SameRequestsPerId<Id, S>(fleet: map<Id, S>, xs: seq<Request<Id, S>>, ys: seq<Request<Id, S>>) {
    forall id | id in fleet :: TargetsOf(xs, id) == TargetsOf(ys, id)
  }

  lemma SameStore<Id, S>(
    can: (S, S) -> bool, fleet: map<Id, S>, xs: seq<Request<Id, S>>, ys: seq<Request<Id, S>>)
    requires SameRequestsPerId(fleet, xs, ys)
    ensures Replay(can, fleet, xs) == Replay(can, fleet, ys)
  {
    ReplayKeepsIds(can, fleet, xs);
    ReplayKeepsIds(can, fleet, ys);
    forall id | id in fleet ensures Replay(can, fleet, xs)[id] == Replay(can, fleet, ys)[id] {
      AcceptedProjects(can, fleet, xs, ys, id);
    }
  }

  lemma EqualCounts<T>(a: multiset<T>, b: multiset<T>)
    requires forall x | x in a || x in b :: a[x] == b[x]
    ensures a == b
  {
  }

  lemma SameAcceptance<Id, S>(
    can: (S, S) -> bool, fleet: map<Id, S>, xs: seq<Request<Id, S>>, ys: seq<Request<Id, S>>)
    requires SameRequestsPerId(fleet, xs, ys)
    ensures multiset(Accepted(can, fleet, xs)) == multiset(Accepted(can, fleet, ys))
  {
    EqualCounts(multiset(Accepted(can, fleet, xs)), multiset(Accepted(can, fleet, ys))) by {
      forall q | q in multiset(Accepted(can, fleet, xs)) || q in multiset(Accepted(can, fleet, ys))
        ensures multiset(Accepted(can, fleet, xs))[q] == multiset(Accepted(can, fleet, ys))[q]
      {
        AcceptedCount(can, fleet, xs, ys, q);
      }
    }
  }

  /**
   Confluence: two request lists that agree on the order of requests for each known id leave the
   same store and accept the same requests, however the ids are interleaved.
   */
  lemma Confluence<Id, S>(
    can: (S, S) -> bool, fleet: map<Id, S>, xs: seq<Request<Id, S>>, ys: seq<Request<Id, S>>)
    requires SameRequestsPerId(fleet, xs, ys)
    ensures Replay(can, fleet, xs) == Replay(can, fleet, ys)
    ensures multiset(Accepted(can, fleet, xs)) == multiset(Accepted(can, fleet, ys))
  {
    SameStore(can, fleet, xs, ys);
    SameAcceptance(can, fleet, xs, ys);
  }

  lemma {:induction false} ReplayConcat<Id, S>(
    can: (S, S) -> bool, fleet: map<Id, S>, xs: seq<Request<Id, S>>, ys: seq<Request<Id, S>>)
    ensures Replay(can, fleet, xs + ys) == Replay(can, Replay(can, fleet, xs), ys)
  {
    if ys == [] {
      assert xs + ys == xs;
    } else {
      assert (xs + ys)[..|xs + ys| - 1] == xs + ys[..|ys| - 1];
      ReplayConcat(can, fleet, xs, ys[..|ys| - 1]);
    }
  }

  lemma ReplayOneMore<Id, S>(
    can: (S, S) -> bool, fleet: map<Id, S>, log: seq<Request<Id, S>>, q: Request<Id, S>, after: seq<Request<Id, S>>)
    ensures Replay(can, fleet, log + [q] + after) == Replay(can, Submit(can, Replay(can, fleet, log), q), after)
    ensures Replay(can, fleet, log + after) == Replay(can, Replay(can, fleet, log), after)
  {
    ReplayConcat(can, fleet, log + [q], after);
    ReplayConcat(can, fleet, log, after);
    assert (log + [q])[..|log|] == log;
  }

  /** Asking `q` after `log` makes no difference, whatever follows. */
  ghost predicate MakesNoDifference<Id(!new), S(!new)>(
    can: (S, S) -> bool, fleet: map<Id, S>, log: seq<Request<Id, S>>, q: Request<Id, S>)
  {
    forall after :: Replay(can, fleet, log + [q] + after) == Replay(can, fleet, log + after)
  }

  /**
   At-least-once delivery, exactly: delivering a request once more makes no difference to anything that
   can follow if and only if it would be refused at that moment.
   */
  lemma RedeliveryExactly<Id(!new), S(!new)>(
    can: (S, S) -> bool, fleet: map<Id, S>, log: seq<Request<Id, S>>, q: Request<Id, S>)
    requires !can(q.target, q.target)
    ensures MakesNoDifference(can, fleet, log, q) <==> !Accepts(can, Replay(can, fleet, log), q)
  {
    var now := Replay(can, fleet, log);
    if Accepts(can, now, q) {
      ReplayOneMore(can, fleet, log, q, []);
      assert now[q.id := q.target][q.id] != now[q.id];
      assert Replay(can, fleet, log + [q] + []) != Replay(can, fleet, log + []);
    } else {
      forall after ensures Replay(can, fleet, log + [q] + after) == Replay(can, fleet, log + after) {
        ReplayOneMore(can, fleet, log, q, after);
      }
    }
  }

  /** What the id of an accepted request goes through until the request is delivered again. */
  lemma BetweenDeliveries<Id, S>(
    can: (S, S) -> bool, fleet: map<Id, S>, before: seq<Request<Id, S>>, q: Request<Id, S>, between: seq<Request<Id, S>>)
    requires Accepts(can, Replay(can, fleet, before), q)
    ensures var trail := Trail(can, q.target, TargetsOf(between, q.id));
            var now := Replay(can, fleet, before + [q] + between);
            && IsRun(can, trail) && trail[0] == q.target
            && q.id in now && now[q.id] == Last(trail)
            && (Accepts(can, now, q) <==> IsRun(can, trail + [q.target]))
  {
    var first := Replay(can, fleet, before)[q.id := q.target];
    ReplayOneMore(can, fleet, before, q, between);
    ReplayProjects(can, first, between, q.id);
    var trail := Trail(can, q.target, TargetsOf(between, q.id));
    if can(Last(trail), q.target) {
      RunAppend(can, trail, q.target);
    }
    var r := trail + [q.target];
    if IsRun(can, r) {
      assert can(r[|trail| - 1], r[|trail| - 1 + 1]);
    }
  }

  /** In particular, when nothing else was asked of the same id in between. */
  lemma DuplicateDelivery<Id, S>(
    can: (S, S) -> bool, fleet: map<Id, S>, before: seq<Request<Id, S>>, q: Request<Id, S>,
    between: seq<Request<Id, S>>, after: seq<Request<Id, S>>)
    requires !can(q.target, q.target)
    requires TargetsOf(between, q.id) == []
    ensures Replay(can, fleet, before + [q] + between + [q] + after)
         == Replay(can, fleet, before + [q] + between + after)
  {
    var log := before + [q] + between;
    ReplayOneMore(can, fleet, before, q, between);
    var first := Submit(can, Replay(can, fleet, before), q);
    ReplayKeepsIds(can, first, between);
    if q.id in first {
      ReplayProjects(can, first, between, q.id);
    }
    ReplayOneMore(can, fleet, log, q, after);
  }

  // ---------- amortised bound ----------

  /** The sum of `weight` over all machines of a store. */
  ghost function Total<Id, S>(weight: S -> nat, fleet: map<Id, S>): nat
    decreases |fleet|
  {
    if fleet == map[] then 0
    else
      var id :| id in fleet;
      weight(fleet[id]) + Total(weight, fleet - {id})
  }

  lemma {:induction false} TotalSplits<Id, S>(weight: S -> nat, fleet: map<Id, S>, id: Id)
    requires id in fleet
    ensures Total(weight, fleet) == weight(fleet[id]) + Total(weight, fleet - {id})
    decreases |fleet|
  {
    var other :| other in fleet && Total(weight, fleet) == weight(fleet[other]) + Total(weight, fleet - {other});
    if other != id {
      TotalSplits(weight, fleet - {other}, id);
      TotalSplits(weight, fleet - {id}, other);
      assert fleet - {other} - {id} == fleet - {id} - {other};
    }
  }

  lemma TotalUpdate<Id, S>(weight: S -> nat, fleet: map<Id, S>, id: Id, s: S)
    requires id in fleet
    ensures Total(weight, fleet[id := s]) + weight(fleet[id]) == Total(weight, fleet) + weight(s)
  {
    TotalSplits(weight, fleet, id);
    TotalSplits(weight, fleet[id := s], id);
    assert fleet[id := s] - {id} == fleet - {id};
  }

  lemma {:induction false} TotalConstant<Id, S>(weight: S -> nat, fleet: map<Id, S>, w: nat)
    requires forall id | id in fleet :: weight(fleet[id]) == w
    ensures Total(weight, fleet) == w * |fleet|
    decreases |fleet|
  {
    if fleet != map[] {
      var id :| id in fleet;
      TotalSplits(weight, fleet, id);
      var rest := fleet - {id};
      assert |rest| == |fleet| - 1;
      TotalConstant(weight, rest, w);
      calc {
        Total(weight, fleet);
        w + w * |rest|;
        w * |fleet|;
      }
    }
  }

  /** The sum of `credit` over the targets of a list of requests. */
  function Credits<Id, S>(credit: S -> nat, qs: seq<Request<Id, S>>): nat {
    if qs == [] then 0 else Credits(credit, qs[..|qs| - 1]) + credit(Last(qs).target)
  }

  /**
   If every accepted step pays one unit out of the rank it gives up plus the credit it earns, then
   the accepted requests of a whole store are bounded by the rank lost and the credit earned.
   */
  lemma {:induction false} AcceptedBound<Id, S(!new)>(
    can: (S, S) -> bool, rank: S -> nat, credit: S -> nat, fleet: map<Id, S>, qs: seq<Request<Id, S>>)
    requires forall a, b | can(a, b) :: rank(b) + 1 <= rank(a) + credit(b)
    ensures |Accepted(can, fleet, qs)| + Total(rank, Replay(can, fleet, qs))
         <= Total(rank, fleet) + Credits(credit, Accepted(can, fleet, qs))
  {
    if qs != [] {
      var init, q := qs[..|qs| - 1], Last(qs);
      AcceptedBound(can, rank, credit, fleet, init);
      var before := Replay(can, fleet, init);
      if Accepts(can, before, q) {
        TotalUpdate(rank, before, q.id, q.target);
        var accepted := Accepted(can, fleet, init);
        assert (accepted + [q])[..|accepted|] == accepted;
      }
    }
  }

  /** Dropping the refused requests changes neither the outcome nor what is accepted. */
  lemma {:induction false} RefusalsAreInert<Id, S>(can: (S, S) -> bool, fleet: map<Id, S>, qs: seq<Request<Id, S>>)
    ensures Replay(can, fleet, Accepted(can, fleet, qs)) == Replay(can, fleet, qs)
    ensures Accepted(can, fleet, Accepted(can, fleet, qs)) == Accepted(can, fleet, qs)
  {
    if qs != [] {
      var init := qs[..|qs| - 1];
      RefusalsAreInert(can, fleet, init);
      var accepted := Accepted(can, fleet, init);
      assert (accepted + [Last(qs)])[..|accepted|] == accepted;
    }
  }
}
