/** `key=value` arguments: parsing one, collecting many, and writing a map back. */
module KeyValues {
  import opened Wrappers
  import opened Texts

  /** Splits at the first `=`; a text without one is refused. */
  function ParseKeyValue(s: string): Result<(string, string), string> {
    match CutAtFirst(s, "=")
    case Some(pair) => Ok(pair)
    case None => Err("Formato esperado: key=value")
  }

  /** The well-formed entries, parsed, in order. */
  function ParsedPairs(entries: seq<string>): seq<(string, string)> {
    if entries == [] then []
    else
      var init := ParsedPairs(entries[..|entries| - 1]);
      match ParseKeyValue(entries[|entries| - 1])
      case Ok(pair) => init + [pair]
      case Err(_) => init
  }

  /** Inserts pairs one after the other; a later pair replaces an earlier one with its key. */
  function Collect(pairs: seq<(string, string)>): map<string, string> {
    if pairs == [] then map[]
    else Collect(pairs[..|pairs| - 1])[pairs[|pairs| - 1].0 := pairs[|pairs| - 1].1]
  }

  function ParseMap(entries: seq<string>): map<string, string> {
    Collect(ParsedPairs(entries))
  }

  function Entry(key: string, value: string): string {
    key + "=" + value
  }

  lemma EqualsHides(a: string)
    ensures Hides(a, "=") <==> '=' in a
  {
    if '=' !in a {
      FreshFirstCharHidesNothing(a, "=");
    } else {
      var i: nat :| i < |a| && a[i] == '=';
      assert a + "="[..0] == a;
      assert OccursAt("=", a, i);
    }
  }

  /** An entry parses to a pair exactly when it is that pair written out and the key holds no `=`. */
  lemma ParseKeyValueExactly(s: string, key: string, value: string)
    ensures ParseKeyValue(s) == Ok((key, value)) <==> s == key + "=" + value && '=' !in key
  {
    CutSound(s, "=");
    CutJoined(key, "=", value);
    EqualsHides(key);
  }

  /** What one more entry does to the map. */
  lemma ParseMapStep(entries: seq<string>, e: string)
    ensures ParseMap(entries + [e]) ==
            match ParseKeyValue(e)
            case Ok((k, v)) => ParseMap(entries)[k := v]
            case Err(_) => ParseMap(entries)
  {
    assert (entries + [e])[..|entries|] == entries;
    var pairs := ParsedPairs(entries);
    match ParseKeyValue(e)
    case Ok(pair) => assert (pairs + [pair])[..|pairs|] == pairs;
    case Err(_) =>
  }

  // ---------- the last pair wins ----------

  predicate Binds(e: string, key: string) {
    match ParseKeyValue(e)
    case Ok((k, _)) => k == key
    case Err(_) => false
  }

  /** A key has a value exactly when some entry binds it. */
  lemma {:induction false} KeysAreBound(entries: seq<string>, key: string)
    ensures key in ParseMap(entries) <==> exists i :: 0 <= i < |entries| && Binds(entries[i], key)
  {
    if entries != [] {
      var init, e := entries[..|entries| - 1], entries[|entries| - 1];
      assert entries == init + [e];
      ParseMapStep(init, e);
      KeysAreBound(init, key);
      if i :| 0 <= i < |entries| && Binds(entries[i], key) {
        if i < |init| { assert init[i] == entries[i]; }
      }
      if i :| 0 <= i < |init| && Binds(init[i], key) {
        assert entries[i] == init[i];
      }
    }
  }

  /** The value of a key is the one its last well-formed entry gives. */
  lemma {:induction false} LastBindingWins(entries: seq<string>, i: nat, key: string, value: string)
    requires i < |entries| && ParseKeyValue(entries[i]) == Ok((key, value))
    requires forall j | i < j < |entries| :: !Binds(entries[j], key)
    ensures key in ParseMap(entries) && ParseMap(entries)[key] == value
  {
    var init, e := entries[..|entries| - 1], entries[|entries| - 1];
    assert entries == init + [e];
    ParseMapStep(init, e);
    if i < |init| {
      forall j | i < j < |init| ensures !Binds(init[j], key) { assert init[j] == entries[j]; }
      LastBindingWins(init, i, key, value);
      assert !Binds(e, key);
    }
  }

  /** Parsing more entries overrides what the first ones gave. */
  lemma {:induction false} ParseMapConcat(xs: seq<string>, ys: seq<string>)
    ensures ParseMap(xs + ys) == ParseMap(xs) + ParseMap(ys)
  {
    if ys == [] {
      assert xs + ys == xs;
    } else {
      var init, e := ys[..|ys| - 1], ys[|ys| - 1];
      assert ys == init + [e];
      assert xs + ys == (xs + init) + [e];
      ParseMapConcat(xs, init);
      ParseMapStep(xs + init, e);
      ParseMapStep(init, e);
    }
  }

  lemma ParseOne(e: string)
    ensures ParseMap([e]) == match ParseKeyValue(e) case Ok((k, v)) => map[k := v] case Err(_) => map[]
  {
    ParseMapStep([], e);
    assert [] + [e] == [e];
  }

  /** A malformed entry can be dropped anywhere. */
  lemma MalformedIsIgnored(xs: seq<string>, e: string, ys: seq<string>)
    requires '=' !in e
    ensures ParseKeyValue(e) == Err("Formato esperado: key=value") && ParseMap(xs + [e] + ys) == ParseMap(xs + ys)
  {
    CutAbsent(e, '=');
    ParseOne(e);
    ParseMapConcat(xs + [e], ys);
    ParseMapConcat(xs, [e]);
    ParseMapConcat(xs, ys);
  }

  lemma SwapUpdates(m: map<string, string>, k: string, v: string, l: string, w: string, rest: map<string, string>)
    ensures m[k := v][l := w] + rest == m[l := w][k := v] + rest <==> k != l || v == w || k in rest
  {
    if k == l && v != w && k !in rest {
      assert (m[k := v][l := w] + rest)[k] == w;
      assert (m[l := w][k := v] + rest)[k] == v;
    }
  }

  lemma ParseMapPair(xs: seq<string>, a: string, b: string, ys: seq<string>)
    ensures ParseMap(xs + [a] + [b] + ys) == ParseMap(xs + [a] + [b]) + ParseMap(ys)
    ensures ParseMap(xs + [a] + [b]) ==
            match (ParseKeyValue(a), ParseKeyValue(b))
            case (Ok((k, v)), Ok((l, w))) => ParseMap(xs)[k := v][l := w]
            case (Ok((k, v)), Err(_)) => ParseMap(xs)[k := v]
            case (Err(_), Ok((l, w))) => ParseMap(xs)[l := w]
            case (Err(_), Err(_)) => ParseMap(xs)
  {
    ParseMapConcat(xs + [a] + [b], ys);
    ParseMapStep(xs + [a], b);
    ParseMapStep(xs, a);
  }

  /** Neighbours can be swapped exactly when they do not give one key two values that still show. */
  lemma SwapNeighbours(xs: seq<string>, a: string, b: string, ys: seq<string>)
    ensures ParseMap(xs + [a] + [b] + ys) == ParseMap(xs + [b] + [a] + ys)
       <==> match (ParseKeyValue(a), ParseKeyValue(b))
            case (Ok((k, v)), Ok((l, w))) => k != l || v == w || k in ParseMap(ys)
            case _ => true
  {
    ParseMapPair(xs, a, b, ys);
    ParseMapPair(xs, b, a, ys);
    match (ParseKeyValue(a), ParseKeyValue(b))
    case (Ok((k, v)), Ok((l, w))) => SwapUpdates(ParseMap(xs), k, v, l, w, ParseMap(ys));
    case _ =>
  }

  // ---------- writing a map back ----------

  /** The entries of a map, written in the given order of its keys. */
  function Written(m: map<string, string>, order: seq<string>): seq<string>
    requires forall k | k in order :: k in m
  {
    seq(|order|, i requires 0 <= i < |order| => Entry(order[i], m[order[i]]))
  }

  /** No key that comes out of the parser holds `=`. */
  lemma {:induction false} ParsedKeysHoldNoEquals(entries: seq<string>)
    ensures forall k | k in ParseMap(entries) :: '=' !in k
  {
    if entries != [] {
      var init, e := entries[..|entries| - 1], entries[|entries| - 1];
      assert entries == init + [e];
      ParseMapStep(init, e);
      ParsedKeysHoldNoEquals(init);
      if ParseKeyValue(e).Ok? {
        var (k, v) := ParseKeyValue(e).value;
        ParseKeyValueExactly(e, k, v);
      }
    }
  }

  lemma {:induction false} WrittenParses(m: map<string, string>, order: seq<string>)
    requires forall k | k in order :: k in m && '=' !in k
    ensures ParseMap(Written(m, order)) == map k | k in order :: m[k]
  {
    if order != [] {
      var init, k := order[..|order| - 1], order[|order| - 1];
      assert order == init + [k];
      forall x | x in init ensures x in order {}
      assert Written(m, order) == Written(m, init) + [Entry(k, m[k])];
      ParseMapStep(Written(m, init), Entry(k, m[k]));
      ParseKeyValueExactly(Entry(k, m[k]), k, m[k]);
      WrittenParses(m, init);
    }
  }

  /**
   Writing a map in any order of its keys and parsing it gives the map back exactly when no key holds
   `=`; the order, and repeating a key, does not matter.
   */
  lemma WriteThenParse(m: map<string, string>, order: seq<string>)
    requires forall k :: k in order <==> k in m
    ensures ParseMap(Written(m, order)) == m <==> forall k | k in m :: '=' !in k
  {
    if forall k | k in m :: '=' !in k {
      WrittenParses(m, order);
      assert (map k | k in order :: m[k]) == m;
    }
    ParsedKeysHoldNoEquals(Written(m, order));
  }

  /** What was parsed once survives being written and parsed again, for every list of arguments. */
  lemma ParseWriteParse(entries: seq<string>, order: seq<string>)
    requires forall k :: k in order <==> k in ParseMap(entries)
    ensures ParseMap(Written(ParseMap(entries), order)) == ParseMap(entries)
  {
    ParsedKeysHoldNoEquals(entries);
    WriteThenParse(ParseMap(entries), order);
  }

  // ---------- the job definition ----------

  /** The scheduling part of a job definition, as far as it depends on the arguments. */
  datatype SchedulingInfo = SchedulingInfo(
    preferredProvider: string,
    requiredLabels: map<string, string>,
    requiredAnnotations: map<string, string>,
    preferredRegion: string)

  function OrEmpty(s: Option<string>): string {
    match s
    case Some(t) => t
    case None => ""
  }

  function SchedulingOf(
    provider: Option<string>, labels: seq<string>, annotations: seq<string>, region: Option<string>): SchedulingInfo
  {
    SchedulingInfo(OrEmpty(provider), ParseMap(labels), ParseMap(annotations), OrEmpty(region))
  }

  /** Each part of the scheduling information is that of its own argument: given texts as they are, absent ones empty. */
  lemma PartsAreTheirArguments(
    provider: Option<string>, labels: seq<string>, annotations: seq<string>, region: Option<string>)
    ensures var s := SchedulingOf(provider, labels, annotations, region);
            && (forall p | provider == Some(p) :: s.preferredProvider == p)
            && (provider == None ==> s.preferredProvider == "")
            && (forall r | region == Some(r) :: s.preferredRegion == r)
            && (region == None ==> s.preferredRegion == "")
            && s.requiredLabels == ParseMap(labels)
            && s.requiredAnnotations == ParseMap(annotations)
  {
  }

  /** More label arguments override labels and touch nothing else; likewise annotations. */
  lemma MoreArguments(
    provider: Option<string>, labels: seq<string>, annotations: seq<string>, region: Option<string>, more: seq<string>)
    ensures var s := SchedulingOf(provider, labels, annotations, region);
            && SchedulingOf(provider, labels + more, annotations, region)
               == s.(requiredLabels := s.requiredLabels + ParseMap(more))
            && SchedulingOf(provider, labels, annotations + more, region)
               == s.(requiredAnnotations := s.requiredAnnotations + ParseMap(more))
  {
    ParseMapConcat(labels, more);
    ParseMapConcat(annotations, more);
  }
}
