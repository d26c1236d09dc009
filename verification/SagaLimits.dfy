/**
 How many sagas an orchestrator runs at once. Both orchestrators ask a semaphore on the way in and count
 the running sagas. The one in memory holds its permit until the saga ends. The one on the database lets
 go of it as soon as it has it, and still gives one back when the saga ends.
 */
module SagaLimits {

  datatype Gate = Gate(permits: nat, active: nat)

  datatype Event = Enter | Leave

  /** `holds` says whether the permit is held while the saga runs. A refused saga changes nothing. */
  function Pass(holds: bool, g: Gate, e: Event): Gate {
    match e
    case Enter =>
      if g.permits == 0 then g
      else Gate(if holds then g.permits - 1 else g.permits, g.active + 1)
    case Leave =>
      if g.active == 0 then g else Gate(g.permits + 1, g.active - 1)
  }

  function AfterAll(holds: bool, max: nat, events: seq<Event>): Gate {
    if events == [] then Gate(max, 0)
    else Pass(holds, AfterAll(holds, max, events[..|events| - 1]), events[|events| - 1])
  }

  class SagaGate {
    const holds: bool
    var permits: nat
    var active: nat

    ghost function View(): Gate
      reads this
    {
      Gate(permits, active)
    }

    constructor (holds: bool, max: nat)
      ensures View() == AfterAll(holds, max, []) && this.holds == holds
    {
      this.holds, permits, active := holds, max, 0;
    }

    method TryEnter() returns (entered: bool)
      modifies this
      ensures entered <==> old(permits) > 0
      ensures active == old(active) + (if entered then 1 else 0)
      ensures permits == old(permits) - (if entered && holds then 1 else 0)
      ensures View() == Pass(holds, old(View()), Enter)
    {
      if permits == 0 { return false; }
      permits := permits - 1;
      if !holds { permits := permits + 1; }
      active := active + 1;
      return true;
    }

    method End()
      requires active > 0
      modifies this
      ensures active == old(active) - 1 && permits == old(permits) + 1
      ensures View() == Pass(holds, old(View()), Leave)
    {
      active := active - 1;
      permits := permits + 1;
    }
  }

  /** Holding the permit keeps the limit: what is free and what runs add up to it, whatever comes and goes. */
  lemma {:induction false} HeldPermitsAddUp(max: nat, events: seq<Event>)
    ensures var g := AfterAll(true, max, events); g.permits + g.active == max
  {
    if events != [] { HeldPermitsAddUp(max, events[..|events| - 1]); }
  }

  /** How many sagas ended. */
  function Ended(holds: bool, max: nat, events: seq<Event>): nat {
    if events == [] then 0
    else
      var init := events[..|events| - 1];
      Ended(holds, max, init) +
        (if events[|events| - 1].Leave? && AfterAll(holds, max, init).active > 0 then 1 else 0)
  }

  /** How many entries are admitted: those that find a permit. */
  function Admitted(holds: bool, max: nat, events: seq<Event>): nat {
    if events == [] then 0
    else
      var init := events[..|events| - 1];
      Admitted(holds, max, init) +
        (if events[|events| - 1].Enter? && AfterAll(holds, max, init).permits > 0 then 1 else 0)
  }

  /** With either gate, what runs is what was admitted and has not ended. */
  lemma {:induction false} RunningIsAdmitted(holds: bool, max: nat, events: seq<Event>)
    ensures AfterAll(holds, max, events).active + Ended(holds, max, events) == Admitted(holds, max, events)
  {
    if events != [] { RunningIsAdmitted(holds, max, events[..|events| - 1]); }
  }

  /**
   How many sagas run if an entry is admitted while fewer than `max` do, counted over the events alone; an
   end with none running is none.
   */
  function Running(max: nat, events: seq<Event>): nat {
    if events == [] then 0
    else
      var before := Running(max, events[..|events| - 1]);
      match events[|events| - 1]
      case Enter => if before < max then before + 1 else before
      case Leave => if before > 0 then before - 1 else 0
  }

  /** Held permits admit an entry exactly while fewer than `max` admitted sagas have not ended. */
  lemma {:induction false} HeldAdmitsExactly(max: nat, events: seq<Event>)
    ensures var g := AfterAll(true, max, events);
            && g.active == Running(max, events)
            && (g.permits > 0 <==> Running(max, events) < max)
            && (Pass(true, g, Enter).active == g.active + 1 <==> Running(max, events) < max)
            && (Pass(true, g, Enter) == g <==> Running(max, events) >= max)
  {
    HeldPermitsAddUp(max, events);
    if events != [] { HeldAdmitsExactly(max, events[..|events| - 1]); }
  }

  /** How many sagas run if every entry is admitted. */
  function RunningFreely(events: seq<Event>): nat {
    if events == [] then 0
    else
      var before := RunningFreely(events[..|events| - 1]);
      match events[|events| - 1]
      case Enter => before + 1
      case Leave => if before > 0 then before - 1 else 0
  }

  /** Permits that are let go at once admit every entry, unless there never was one. */
  lemma {:induction false} ReleasedAdmitsAll(max: nat, events: seq<Event>)
    requires max > 0
    ensures var g := AfterAll(false, max, events);
            g.active == RunningFreely(events) && Pass(false, g, Enter).active == g.active + 1
  {
    ReleasedPermitsGrow(max, events);
    if events != [] { ReleasedAdmitsAll(max, events[..|events| - 1]); }
  }

  /** Letting go of the permit at once makes every saga that ends raise the limit by one. */
  lemma {:induction false} ReleasedPermitsGrow(max: nat, events: seq<Event>)
    ensures AfterAll(false, max, events).permits == max + Ended(false, max, events)
  {
    if events != [] { ReleasedPermitsGrow(max, events[..|events| - 1]); }
  }

  function Enters(n: nat): seq<Event> {
    if n == 0 then [] else Enters(n - 1) + [Enter]
  }

  lemma {:induction false} AllEnter(max: nat, n: nat)
    requires max > 0
    ensures AfterAll(false, max, Enters(n)) == Gate(max, n)
  {
    if n > 0 {
      AllEnter(max, n - 1);
      assert Enters(n)[..|Enters(n)| - 1] == Enters(n - 1);
    }
  }

  lemma {:induction false} NoneEnters(events: seq<Event>)
    ensures AfterAll(false, 0, events) == Gate(0, 0)
  {
    if events != [] { NoneEnters(events[..|events| - 1]); }
  }

  /** No run exceeds the limit. */
  ghost predicate LimitHolds(holds: bool, max: nat) {
    forall events :: AfterAll(holds, max, events).active <= max
  }

  /** The limit holds exactly when the permit is held, or the limit is zero. */
  lemma LimitHoldsExactly(holds: bool, max: nat)
    ensures LimitHolds(holds, max) <==> holds || max == 0
  {
    forall events ensures holds || max == 0 ==> AfterAll(holds, max, events).active <= max {
      HeldPermitsAddUp(max, events);
      NoneEnters(events);
    }
    if !holds && max > 0 {
      AllEnter(max, max + 1);
      assert AfterAll(holds, max, Enters(max + 1)).active > max;
    }
  }
}
