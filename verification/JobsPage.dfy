/** The selection on the console's jobs page. */
module JobsPage {

  /** A listed job; only its id takes part in the selection. */
  datatype RecentJob = RecentJob(id: string, name: string, status: string)

  function Toggled(selected: set<string>, id: string): set<string> {
    if id in selected then selected - {id} else selected + {id}
  }

  function Ids(jobs: seq<RecentJob>): set<string> {
    set job | job in jobs :: job.id
  }

  class JobsPageState {
    var jobs: seq<RecentJob>
    var selectedIds: set<string>

    constructor ()
      ensures jobs == [] && selectedIds == {}
    {
      jobs, selectedIds := [], {};
    }

    method ToggleSelection(id: string)
      modifies this`selectedIds
      ensures selectedIds == Toggled(old(selectedIds), id)
      ensures forall x :: x in selectedIds <==> if x == id then x !in old(selectedIds) else x in old(selectedIds)
    {
      var selected := selectedIds;
      if id in selected {
        selected := selected - {id};
      } else {
        selected := selected + {id};
      }
      selectedIds := selected;
    }

    method SelectAll()
      modifies this`selectedIds
      ensures selectedIds == old(selectedIds) + Ids(jobs)
      ensures forall x :: x in selectedIds <==> x in old(selectedIds) || exists job :: job in jobs && job.id == x
    {
      var selected := selectedIds;
      for i := 0 to |jobs|
        invariant selected == old(selectedIds) + Ids(jobs[..i])
        invariant selectedIds == old(selectedIds)
      {
        assert jobs[..i + 1] == jobs[..i] + [jobs[i]];
        selected := selected + {jobs[i].id};
      }
      assert jobs[..|jobs|] == jobs;
      selectedIds := selected;
    }

    method ClearSelection()
      modifies this`selectedIds
      ensures selectedIds == {}
    {
      selectedIds := {};
    }
  }

  // ---------- sequences of calls ----------

  /** One call on the page; `SelectAll` carries the jobs loaded at that moment. */
  datatype Call = Toggle(id: string) | SelectAll(loaded: seq<RecentJob>) | Clear

  function After(selected: set<string>, c: Call): set<string> {
    match c
    case Toggle(id) => Toggled(selected, id)
    case SelectAll(loaded) => selected + Ids(loaded)
    case Clear => {}
  }

  function AfterAll(selected: set<string>, calls: seq<Call>): set<string> {
    if calls == [] then selected
    else After(AfterAll(selected, calls[..|calls| - 1]), calls[|calls| - 1])
  }

  /** What each call makes of the status of an id. */
  lemma StatusAfter(selected: set<string>, c: Call, x: string)
    ensures x in After(selected, c) <==>
              match c
              case Toggle(id) => if x == id then x !in selected else x in selected
              case SelectAll(loaded) => x in selected || exists job :: job in loaded && job.id == x
              case Clear => false
  {
  }

  /** The call decides the status of the id whatever it was before. */
  predicate Fixes(c: Call, id: string) {
    c.Clear? || (c.SelectAll? && id in Ids(c.loaded))
  }

  function Toggles(calls: seq<Call>, id: string): nat {
    multiset(calls)[Toggle(id)]
  }

  /** Where no call fixes an id, each toggle of it flips its status. */
  lemma {:induction false} StatusByParity(selected: set<string>, calls: seq<Call>, id: string)
    requires forall i | 0 <= i < |calls| :: !Fixes(calls[i], id)
    ensures id in AfterAll(selected, calls) <==> (id in selected) != (Toggles(calls, id) % 2 == 1)
  {
    if calls != [] {
      var init, c := calls[..|calls| - 1], calls[|calls| - 1];
      assert calls == init + [c];
      forall i | 0 <= i < |init| ensures !Fixes(init[i], id) { assert init[i] == calls[i]; }
      StatusByParity(selected, init, id);
    }
  }

  lemma {:induction false} AfterAllConcat(selected: set<string>, xs: seq<Call>, ys: seq<Call>)
    ensures AfterAll(selected, xs + ys) == AfterAll(AfterAll(selected, xs), ys)
  {
    if ys == [] {
      assert xs + ys == xs;
    } else {
      assert (xs + ys)[..|xs + ys| - 1] == xs + ys[..|ys| - 1];
      AfterAllConcat(selected, xs, ys[..|ys| - 1]);
    }
  }

  /**
   After any calls, an id is selected exactly when the last call that fixed its status and the parity
   of its toggles since then say so; what was selected before that call does not matter.
   */
  lemma StatusSinceLastFix(selected: set<string>, calls: seq<Call>, k: nat, id: string)
    requires k < |calls| && Fixes(calls[k], id)
    requires forall i | k < i < |calls| :: !Fixes(calls[i], id)
    ensures id in AfterAll(selected, calls)
       <==> calls[k].SelectAll? != (Toggles(calls[k + 1..], id) % 2 == 1)
  {
    var head, tail := calls[..k + 1], calls[k + 1..];
    assert calls == head + tail;
    AfterAllConcat(selected, head, tail);
    assert head[..|head| - 1] == calls[..k] && head[|head| - 1] == calls[k];
    forall i | 0 <= i < |tail| ensures !Fixes(tail[i], id) { assert tail[i] == calls[k + 1 + i]; }
    StatusByParity(AfterAll(selected, head), tail, id);
  }

  /** Toggles can be made in any order, and toggling twice is not toggling. */
  lemma TogglesCommute(selected: set<string>, xs: seq<Call>, ys: seq<Call>)
    requires forall c | c in xs || c in ys :: c.Toggle?
    requires forall id :: Toggles(xs, id) % 2 == Toggles(ys, id) % 2
    ensures AfterAll(selected, xs) == AfterAll(selected, ys)
  {
    forall id ensures id in AfterAll(selected, xs) <==> id in AfterAll(selected, ys) {
      forall i | 0 <= i < |xs| ensures !Fixes(xs[i], id) { assert xs[i] in xs; }
      forall i | 0 <= i < |ys| ensures !Fixes(ys[i], id) { assert ys[i] in ys; }
      StatusByParity(selected, xs, id);
      StatusByParity(selected, ys, id);
    }
  }
}
