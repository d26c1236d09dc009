/**
 Text searching and decimal numbers: what is needed to say when a formatted message can be read
 back, and to read it.
 */
module Texts {
  import opened Wrappers

  // ---------- occurrences ----------

  predicate OccursAt(sep: string, s: string, i: nat) {
    i + |sep| <= |s| && s[i..i + |sep|] == sep
  }

  predicate Occurs(sep: string, s: string) {
    exists i: nat :: i <= |s| && OccursAt(sep, s, i)
  }

  /** The separator occurs in `a + sep + b` where it was put and nowhere else. */
  predicate OnlyAtJoin(a: string, sep: string, b: string) {
    forall i: nat :: i <= |a + sep + b| && OccursAt(sep, a + sep + b, i) ==> i == |a|
  }

  /**
   A separator written after `a` would not be the first one in the text: it already occurs in `a`,
   or the end of `a` runs together with the start of `sep`.
   */
  predicate Hides(a: string, sep: string)
    requires sep != []
  {
    Occurs(sep, a + sep[..|sep| - 1])
  }

  /** `sep` occurs in a text that starts with `x` before position `|x| - |sep| + 1` exactly when it occurs in `x`. */
  lemma OccursAtPrefix(sep: string, x: string, y: string, i: nat)
    requires i + |sep| <= |x|
    ensures OccursAt(sep, x + y, i) <==> OccursAt(sep, x, i)
  {
    assert (x + y)[i..i + |sep|] == x[i..i + |sep|];
  }

  lemma OccursAtSuffix(sep: string, x: string, y: string, i: nat)
    ensures OccursAt(sep, x + y, |x| + i) <==> OccursAt(sep, y, i)
  {
    if i + |sep| <= |y| {
      assert (x + y)[|x| + i..|x| + i + |sep|] == y[i..i + |sep|];
    }
  }

  lemma SplitAtOccurrence(sep: string, s: string, i: nat)
    requires OccursAt(sep, s, i)
    ensures s == s[..i] + sep + s[i + |sep|..]
  {
  }

  lemma OccursAtJoin(a: string, sep: string, b: string)
    ensures OccursAt(sep, a + sep + b, |a|)
  {
    assert (a + sep + b)[|a|..|a| + |sep|] == sep;
  }

  /** What hides a separator is an occurrence that starts inside `a`. */
  lemma HidesMeans(a: string, sep: string, b: string)
    requires sep != []
    ensures Hides(a, sep) <==> exists i: nat :: i < |a| && OccursAt(sep, a + sep + b, i)
  {
    var x, y := a + sep[..|sep| - 1], sep[|sep| - 1..] + b;
    assert a + sep + b == x + y;
    if Hides(a, sep) {
      var i: nat :| i <= |x| && OccursAt(sep, x, i);
      OccursAtPrefix(sep, x, y, i);
    }
    if i: nat :| i < |a| && OccursAt(sep, a + sep + b, i) {
      OccursAtPrefix(sep, x, y, i);
    }
  }

  lemma FreshFirstCharHidesNothing(a: string, sep: string)
    requires sep != [] && sep[0] !in a
    ensures !Hides(a, sep)
  {
    HidesMeans(a, sep, "");
    var s := a + sep + "";
    forall i: nat | i < |a| ensures !OccursAt(sep, s, i) {
      if i + |sep| <= |s| {
        assert s[i..i + |sep|][0] == a[i];
      }
    }
  }

  // ---------- cutting at the first separator ----------

  /** The first position at or after `from` where `sep` occurs. */
  function Find(s: string, sep: string, from: nat): (r: Option<nat>)
    requires from <= |s|
    ensures r.Some? ==> from <= r.value <= |s| && OccursAt(sep, s, r.value)
    ensures r.Some? ==> forall i: nat :: from <= i < r.value ==> !OccursAt(sep, s, i)
    ensures r.None? ==> forall i: nat :: from <= i <= |s| ==> !OccursAt(sep, s, i)
    decreases |s| - from
  {
    if OccursAt(sep, s, from) then Some(from)
    else if from == |s| then None
    else Find(s, sep, from + 1)
  }

  /** The text before and after the first occurrence of `sep`. */
  function CutAtFirst(s: string, sep: string): Option<(string, string)> {
    match Find(s, sep, 0)
    case None => None
    case Some(i) => Some((s[..i], s[i + |sep|..]))
  }

  /** The cut gives back the two parts of a joined text exactly when the first does not hide the separator. */
  lemma CutJoined(a: string, sep: string, b: string)
    requires sep != []
    ensures CutAtFirst(a + sep + b, sep) == Some((a, b)) <==> !Hides(a, sep)
    ensures CutAtFirst(a + sep + b, sep).Some?
  {
    var s := a + sep + b;
    OccursAtJoin(a, sep, b);
    HidesMeans(a, sep, b);
    var i := Find(s, sep, 0).value;
    assert i <= |a|;
    if i == |a| {
      assert s[..i] == a && s[i + |sep|..] == b;
    }
  }

  /** A successful cut splits the text at a separator that is not hidden; a failed one finds none. */
  lemma CutSound(s: string, sep: string)
    requires sep != []
    ensures match CutAtFirst(s, sep)
            case Some((a, b)) => s == a + sep + b && !Hides(a, sep) && |b| < |s|
            case None => !Occurs(sep, s)
  {
    match Find(s, sep, 0)
    case None =>
    case Some(i) =>
      var a, b := s[..i], s[i + |sep|..];
      assert s == a + sep + b;
      HidesMeans(a, sep, b);
  }

  lemma CutAbsent(s: string, c: char)
    ensures CutAtFirst(s, [c]).None? <==> c !in s
  {
    if i: nat :| i < |s| && s[i] == c {
      assert OccursAt([c], s, i);
    }
    if c !in s {
      forall i: nat | i + 1 <= |s| ensures !OccursAt([c], s, i) {
        assert s[i..i + 1][0] == s[i];
      }
    }
  }

  /** Two texts joined without hiding agree only if their parts agree. */
  lemma JoinedPartsAgree(a: string, b: string, c: string, d: string, sep: string)
    requires sep != [] && !Hides(a, sep) && !Hides(c, sep)
    requires a + sep + b == c + sep + d
    ensures a == c && b == d
  {
    CutJoined(a, sep, b);
    CutJoined(c, sep, d);
  }

  /** A joined text has a single reading exactly when the separator occurs only at the join. */
  lemma SingleReading(a: string, sep: string, b: string)
    ensures OnlyAtJoin(a, sep, b)
       <==> forall c, d | c + sep + d == a + sep + b :: c == a && d == b
  {
    var s := a + sep + b;
    OccursAtJoin(a, sep, b);
    if OnlyAtJoin(a, sep, b) {
      forall c, d | c + sep + d == s ensures c == a && d == b {
        OccursAtJoin(c, sep, d);
        assert |c| == |a|;
        assert c == s[..|a|] && a == s[..|a|];
        assert d == s[|a| + |sep|..] && b == s[|a| + |sep|..];
      }
    } else {
      var i: nat :| i <= |s| && OccursAt(sep, s, i) && i != |a|;
      var c, d := s[..i], s[i + |sep|..];
      assert c + sep + d == s;
      assert |c| != |a|;
    }
  }

  lemma OtherTripleReading(a: string, s1: string, b: string, s2: string, c: string)
    requires !(OnlyAtJoin(a, s1, b) && OnlyAtJoin(b, s2, c))
    ensures exists x, y, z :: x + s1 + y + s2 + z == a + s1 + b + s2 + c && !(x == a && y == b && z == c)
  {
    if !OnlyAtJoin(a, s1, b) {
      SingleReading(a, s1, b);
      var x, y :| x + s1 + y == a + s1 + b && !(x == a && y == b);
      assert x + s1 + y + s2 + c == a + s1 + b + s2 + c;
    } else {
      SingleReading(b, s2, c);
      var y, z :| y + s2 + z == b + s2 + c && !(y == b && z == c);
      assert a + s1 + y + s2 + z == a + s1 + (y + s2 + z) == a + s1 + (b + s2 + c) == a + s1 + b + s2 + c;
    }
  }

  lemma TripleReadingLengths(a: string, s1: string, b: string, s2: string, c: string, x: string, y: string, z: string)
    requires OnlyAtJoin(a, s1, b) && OnlyAtJoin(b, s2, c)
    requires x + s1 + y + s2 + z == a + s1 + b + s2 + c
    ensures |x| == |a| && |y| == |b|
  {
    var front, back := a + s1 + b, b + s2 + c;
    var t := a + s1 + b + s2 + c;
    assert t == front + (s2 + c) == (a + s1) + back;
    assert t == x + s1 + (y + s2 + z) == (x + s1 + y) + s2 + z;
    OccursAtJoin(x, s1, y + s2 + z);
    OccursAtJoin(x + s1 + y, s2, z);
    if |x| + |s1| <= |front| {
      OccursAtPrefix(s1, front, s2 + c, |x|);
      assert |x| == |a|;
      OccursAtSuffix(s2, a + s1, back, |y|);
    } else {
      OccursAtSuffix(s2, a + s1, back, |x| + |s1| + |y| - |a + s1|);
      assert false;
    }
  }

  lemma OneTripleReading(a: string, s1: string, b: string, s2: string, c: string, x: string, y: string, z: string)
    requires OnlyAtJoin(a, s1, b) && OnlyAtJoin(b, s2, c)
    requires x + s1 + y + s2 + z == a + s1 + b + s2 + c
    ensures x == a && y == b && z == c
  {
    TripleReadingLengths(a, s1, b, s2, c, x, y, z);
    var t := a + s1 + b + s2 + c;
    assert x == t[..|a|] == a;
    assert y == t[|a| + |s1|..|a| + |s1| + |b|] == b;
    assert z == t[|a| + |s1| + |b| + |s2|..] == c;
  }

  /**
   Three texts joined by two separators have a single reading exactly when each separator occurs
   once in the two texts it joins.
   */
  lemma SingleTripleReading(a: string, s1: string, b: string, s2: string, c: string)
    ensures OnlyAtJoin(a, s1, b) && OnlyAtJoin(b, s2, c)
       <==> forall x, y, z | x + s1 + y + s2 + z == a + s1 + b + s2 + c :: x == a && y == b && z == c
  {
    if OnlyAtJoin(a, s1, b) && OnlyAtJoin(b, s2, c) {
      forall x, y, z | x + s1 + y + s2 + z == a + s1 + b + s2 + c ensures x == a && y == b && z == c {
        OneTripleReading(a, s1, b, s2, c, x, y, z);
      }
    } else {
      OtherTripleReading(a, s1, b, s2, c);
    }
  }

  // ---------- decimal numbers ----------

  predicate IsDigit(c: char) { '0' <= c <= '9' }

  function DigitChar(d: nat): (c: char)
    requires d < 10
    ensures IsDigit(c) && DigitValue(c) == d
  {
    '0' + d as char
  }

  function DigitValue(c: char): nat
    requires IsDigit(c)
  {
    c as nat - '0' as nat
  }

  function ShowNat(n: nat): string {
    if n < 10 then [DigitChar(n)] else ShowNat(n / 10) + [DigitChar(n % 10)]
  }

  function ReadDigits(s: string): Option<nat> {
    if s == "" || !IsDigit(s[|s| - 1]) then None
    else if |s| == 1 then Some(DigitValue(s[0]))
    else
      match ReadDigits(s[..|s| - 1])
      case None => None
      case Some(n) => Some(10 * n + DigitValue(s[|s| - 1]))
  }

  function ShowInt(n: int): string {
    if n < 0 then "-" + ShowNat(-n) else ShowNat(n)
  }

  function ReadInt(s: string): Option<int> {
    var v: Option<int> := if s != "" && s[0] == '-' then ReadDigits(s[1..]) else ReadDigits(s);
    match v
    case None => None
    case Some(n) =>
      var m := if s[0] == '-' then -n else n;
      if ShowInt(m) == s then Some(m) else None
  }

  lemma {:induction false} ShowNatDigits(n: nat)
    ensures ShowNat(n) != "" && forall i | 0 <= i < |ShowNat(n)| :: IsDigit(ShowNat(n)[i])
    ensures ReadDigits(ShowNat(n)) == Some(n)
  {
    if n >= 10 {
      ShowNatDigits(n / 10);
      var s := ShowNat(n);
      assert s[..|s| - 1] == ShowNat(n / 10);
    }
  }

  lemma DigitsInOrder(d: nat)
    requires d < 10
    ensures DigitChar(d) == "0123456789"[d]
  {
  }

  function Power10(n: nat): nat {
    if n == 0 then 1 else 10 * Power10(n - 1)
  }

  /** The value of decimal digits, the first one counting most. */
  function Positional(s: string): nat
    requires forall i | 0 <= i < |s| :: IsDigit(s[i])
  {
    if s == "" then 0 else DigitValue(s[0]) * Power10(|s| - 1) + Positional(s[1..])
  }

  lemma TenTimes(d: nat, p: nat)
    ensures d * (10 * p) == 10 * (d * p)
  {
  }

  lemma {:induction false} PositionalAppend(s: string, c: char)
    requires forall i | 0 <= i < |s| :: IsDigit(s[i])
    requires IsDigit(c)
    ensures Positional(s + [c]) == 10 * Positional(s) + DigitValue(c)
  {
    var t := s + [c];
    if s == "" {
      assert t == [c] && t[1..] == "";
    } else {
      PositionalAppend(s[1..], c);
      assert t[1..] == s[1..] + [c] && t[0] == s[0];
      TenTimes(DigitValue(s[0]), Power10(|s| - 1));
      assert Power10(|t| - 1) == 10 * Power10(|s| - 1);
    }
  }

  /** A number is written in its decimal digits, the highest first, without leading zeros. */
  lemma {:induction false} ShowNatIsDecimal(n: nat)
    ensures forall i | 0 <= i < |ShowNat(n)| :: IsDigit(ShowNat(n)[i])
    ensures Positional(ShowNat(n)) == n
    ensures n > 0 ==> ShowNat(n)[0] != '0'
    ensures n == 0 ==> ShowNat(n) == "0"
  {
    ShowNatDigits(n);
    if n < 10 {
      assert [DigitChar(n)][1..] == "";
    } else {
      ShowNatIsDecimal(n / 10);
      PositionalAppend(ShowNat(n / 10), DigitChar(n % 10));
    }
  }

  lemma NaturalReads(n: nat)
    ensures ReadInt(ShowInt(n)) == Some(n)
  {
    ShowNatDigits(n);
    assert IsDigit(ShowNat(n)[0]);
  }

  lemma NegativeReads(n: int)
    requires n < 0
    ensures ReadInt(ShowInt(n)) == Some(n)
  {
    var digits: nat := -n;
    ShowNatDigits(digits);
    var s := ShowInt(n);
    assert s[0] == '-' && s[1..] == ShowNat(digits);
    assert ReadDigits(s[1..]) == Some(digits);
  }

  lemma ShowIntChars(n: int)
    ensures forall c | c in ShowInt(n) :: IsDigit(c) || c == '-'
  {
    ShowNatDigits(if n < 0 then -n else n);
  }

  lemma ShowIntReads(n: int)
    ensures ReadInt(ShowInt(n)) == Some(n)
  {
    if n < 0 { NegativeReads(n); } else { NaturalReads(n); }
  }

  // ---------- numbers next to fixed words ----------

  /** A number written after `before`. */
  function ReadAfter(s: string, before: string): Option<int> {
    if before <= s then ReadInt(s[|before|..]) else None
  }

  /** A number written between `before` and `after`. */
  function ReadBetween(s: string, before: string, after: string): Option<int> {
    if |after| <= |s| && s[|s| - |after|..] == after then ReadAfter(s[..|s| - |after|], before) else None
  }

  lemma ReadAfterSound(s: string, before: string)
    requires ReadAfter(s, before).Some?
    ensures s == before + ShowInt(ReadAfter(s, before).value)
  {
    assert s == before + s[|before|..];
  }

  lemma ReadAfterShown(n: int, before: string)
    ensures ReadAfter(before + ShowInt(n), before) == Some(n)
  {
    ShowIntReads(n);
    assert (before + ShowInt(n))[|before|..] == ShowInt(n);
  }

  lemma ReadBetweenSound(s: string, before: string, after: string)
    requires ReadBetween(s, before, after).Some?
    ensures s == before + ShowInt(ReadBetween(s, before, after).value) + after
  {
    var head := s[..|s| - |after|];
    assert s == head + after;
    ReadAfterSound(head, before);
  }

  lemma ReadBetweenShown(n: int, before: string, after: string)
    ensures ReadBetween(before + ShowInt(n) + after, before, after) == Some(n)
  {
    var s := before + ShowInt(n) + after;
    ReadAfterShown(n, before);
    assert s[..|s| - |after|] == before + ShowInt(n);
    assert s[|s| - |after|..] == after;
  }
}
