/** The layout the failure reasons share: a tag, and for most of them `": "` and a body. */
module Messages {
  import opened Wrappers
  import opened Texts

  function Line(tag: string, body: Option<string>): string {
    match body
    case None => tag
    case Some(b) => tag + ": " + b
  }

  function ReadLine(s: string): (string, Option<string>) {
    match CutAtFirst(s, ": ")
    case None => (s, None)
    case Some((tag, b)) => (tag, Some(b))
  }

  lemma NoCutWithoutChar(s: string, sep: string)
    requires sep != [] && sep[0] !in s
    ensures CutAtFirst(s, sep) == None
  {
    forall i: nat | i <= |s| ensures !OccursAt(sep, s, i) {
      if i + |sep| <= |s| {
        assert s[i..i + |sep|][0] == s[i];
      }
    }
  }

  lemma LineReads(tag: string, body: Option<string>)
    requires ':' !in tag
    ensures ReadLine(Line(tag, body)) == (tag, body)
  {
    FreshFirstCharHidesNothing(tag, ": ");
    match body
    case None =>
      CutSound(tag, ": ");
      NoCutWithoutChar(tag, ": ");
    case Some(b) =>
      CutJoined(tag, ": ", b);
  }

  lemma ReadLineSound(s: string)
    ensures Line(ReadLine(s).0, ReadLine(s).1) == s
  {
    CutSound(s, ": ");
  }

  lemma CannotReachPast(a: string, rest: string, sep: string, i: nat)
    requires |rest| >= 2 && |sep| >= 2 && rest[1] !in sep[2..]
    requires i < |a| && |a| + 1 < i + |sep| <= |a + rest|
    ensures !OccursAt(sep, a + rest, i)
  {
    var k := |a| + 1 - i;
    assert (a + rest)[i..i + |sep|][k] == rest[1];
    assert sep[2..][k - 2] == sep[k];
  }

  /**
   A separator starts inside `a` in a longer text exactly when it occurs in `a` followed by one
   space, provided the text goes on with a space and a character that cannot belong to its tail.
   */
  lemma StartsInside(a: string, rest: string, sep: string)
    requires |rest| >= 2 && rest[0] == ' ' && |sep| >= 2 && rest[1] !in sep[2..]
    ensures (exists i: nat :: i < |a| && OccursAt(sep, a + rest, i)) <==> Occurs(sep, a + " ")
  {
    assert a + rest == (a + " ") + rest[1..];
    if i: nat :| i < |a| && OccursAt(sep, a + rest, i) {
      if i + |sep| <= |a| + 1 {
        OccursAtPrefix(sep, a + " ", rest[1..], i);
      } else {
        CannotReachPast(a, rest, sep, i);
      }
    }
    if i: nat :| i <= |a + " "| && OccursAt(sep, a + " ", i) {
      OccursAtPrefix(sep, a + " ", rest[1..], i);
    }
  }

  /** The same, said of the first occurrence. */
  lemma FirstStartsInside(a: string, rest: string, sep: string)
    requires |rest| >= 2 && rest[0] == ' ' && |sep| >= 2 && rest[1] !in sep[2..]
    ensures (Find(a + rest, sep, 0).Some? && Find(a + rest, sep, 0).value < |a|) <==> Occurs(sep, a + " ")
  {
    StartsInside(a, rest, sep);
  }

  // ---------- an optional middle field ----------

  /**
   Splits `front [on middle] dash back`: whichever separator comes first tells whether there is a
   middle field.
   */
  function CutMiddle(b: string, on: string, dash: string): Option<(string, Option<string>, string)> {
    match (Find(b, on, 0), Find(b, dash, 0))
    case (_, None) => None
    case (Some(i), Some(j)) =>
      if i < j then
        match CutAtFirst(b[i + |on|..], dash)
        case None => None
        case Some((middle, back)) => Some((b[..i], Some(middle), back))
      else Some((b[..j], None, b[j + |dash|..]))
    case (None, Some(j)) => Some((b[..j], None, b[j + |dash|..]))
  }

  function JoinMiddle(front: string, on: string, middle: Option<string>, dash: string, back: string): string {
    match middle
    case Some(m) => front + on + (m + dash + back)
    case None => front + dash + back
  }

  /** A middle field can also be read as part of the front. */
  lemma MiddleInFront(front: string, on: string, middle: string, dash: string, back: string)
    ensures JoinMiddle(front, on, Some(middle), dash, back) == JoinMiddle(front + on + middle, on, None, dash, back)
  {
    assert front + on + (middle + dash + back) == front + on + middle + dash + back;
  }

  /** Both separators start with a space and cannot be mistaken for each other after it. */
  predicate Distinguishable(on: string, dash: string) {
    && |on| >= 2 && |dash| >= 2 && on[0] == ' ' && dash[0] == ' '
    && on[1] !in on[2..] && on[1] !in dash[1..]
    && dash[1] !in dash[2..] && dash[1] !in on[2..]
  }

  lemma CutMiddleSound(b: string, on: string, dash: string)
    requires on != [] && dash != []
    ensures match CutMiddle(b, on, dash)
            case Some((front, middle, back)) => JoinMiddle(front, on, middle, dash, back) == b
            case None => true
  {
    var i, j := Find(b, on, 0), Find(b, dash, 0);
    if i.Some? {
      SplitAtOccurrence(on, b, i.value);
      CutSound(b[i.value + |on|..], dash);
    }
    if j.Some? { SplitAtOccurrence(dash, b, j.value); }
  }

  lemma FirstOf(front: string, sep: string, tail: string)
    requires |sep| >= 2 && sep[0] == ' ' && sep[1] !in sep[2..]
    ensures var r := Find(front + sep + tail, sep, 0);
            r.Some? && r.value <= |front| && (r.value < |front| <==> Occurs(sep, front + " "))
  {
    assert front + sep + tail == front + (sep + tail);
    OccursAtJoin(front, sep, tail);
    FirstStartsInside(front, sep + tail, sep);
  }

  lemma DashAfterOn(front: string, on: string, middle: string, dash: string, back: string)
    requires Distinguishable(on, dash)
    ensures var r := Find(front + on + (middle + dash + back), dash, 0);
            r.Some? && r.value != |front| && (r.value < |front| <==> Occurs(dash, front + " "))
  {
    var tail := middle + dash + back;
    var b := front + on + tail;
    assert b == front + (on + tail);
    OccursAtJoin(middle, dash, back);
    OccursAtSuffix(dash, front + on, tail, |middle|);
    FirstStartsInside(front, on + tail, dash);
    assert |front| + |dash| <= |b| ==> b[|front|..|front| + |dash|][1] == on[1];
  }

  /** The cut is right exactly when `on` is found where it was written, before any `dash`. */
  lemma CutMiddleAt(front: string, on: string, tail: string, dash: string, middle: string, back: string)
    requires var b := front + on + tail; Find(b, on, 0).Some? && Find(b, dash, 0).Some?
    requires Find(front + on + tail, on, 0).value <= |front|
    ensures var b := front + on + tail;
            (CutMiddle(b, on, dash) == Some((front, Some(middle), back))
             <==> && Find(b, on, 0).value == |front|
                  && |front| < Find(b, dash, 0).value
                  && CutAtFirst(tail, dash) == Some((middle, back)))
  {
    var b := front + on + tail;
    assert b[|front| + |on|..] == tail && b[..|front|] == front;
  }

  lemma MiddleReads(front: string, on: string, middle: string, dash: string, back: string)
    requires Distinguishable(on, dash)
    ensures CutMiddle(front + on + (middle + dash + back), on, dash) == Some((front, Some(middle), back))
       <==> !Occurs(on, front + " ") && !Occurs(dash, front + " ") && !Hides(middle, dash)
  {
    var tail := middle + dash + back;
    var b := front + on + tail;
    FirstOf(front, on, tail);
    DashAfterOn(front, on, middle, dash, back);
    CutJoined(middle, dash, back);
    CutMiddleAt(front, on, tail, dash, middle, back);
  }

  lemma NoMiddleReads(front: string, on: string, dash: string, back: string)
    requires Distinguishable(on, dash)
    ensures CutMiddle(front + dash + back, on, dash) == Some((front, None, back))
       <==> !Occurs(on, front + " ") && !Occurs(dash, front + " ")
  {
    var b := front + dash + back;
    assert b == front + (dash + back);
    FirstOf(front, dash, back);
    FirstStartsInside(front, dash + back, on);
    assert b[..|front|] == front && b[|front| + |dash|..] == back;
  }

  /** The split recovers the fields exactly when neither separator can be found in them too early. */
  lemma JoinMiddleReads(front: string, on: string, middle: Option<string>, dash: string, back: string)
    requires Distinguishable(on, dash)
    ensures CutMiddle(JoinMiddle(front, on, middle, dash, back), on, dash) == Some((front, middle, back))
       <==> && !Occurs(on, front + " ")
            && !Occurs(dash, front + " ")
            && (middle.Some? ==> !Hides(middle.value, dash))
  {
    match middle
    case Some(m) => MiddleReads(front, on, m, dash, back);
    case None => NoMiddleReads(front, on, dash, back);
  }
}
