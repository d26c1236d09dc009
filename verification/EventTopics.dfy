/** Event subjects: how they are built, and which wildcards they match. */
module EventTopics {
  import opened Wrappers
  import opened Texts

  const EVENT_PREFIX := "hodei.events"
  const ALL_EVENTS := "hodei.events.>"
  const JOBS_ALL := "hodei.events.jobs.>"
  const WORKERS_ALL := "hodei.events.workers.>"
  const PROVIDERS_ALL := "hodei.events.providers.>"
  const TEMPLATES_ALL := "hodei.events.templates.>"
  const SCHEDULING_ALL := "hodei.events.scheduling.>"
  const QUEUE_ALL := "hodei.events.queue.>"
  const GC_ALL := "hodei.events.gc.>"

  function EventSubject(entity: string, action: string): string {
    EVENT_PREFIX + "." + entity + "." + action
  }

  // ---------- tokens ----------

  /** The texts between the dots. */
  function Tokens(s: string): (ts: seq<string>)
    ensures ts != []
    decreases |s|
  {
    match CutAtFirst(s, ".")
    case None => [s]
    case Some((head, tail)) => CutSound(s, "."); [head] + Tokens(tail)
  }

  function Join(ts: seq<string>): string
    requires ts != []
  {
    if |ts| == 1 then ts[0] else ts[0] + "." + Join(ts[1..])
  }

  lemma DotHides(a: string)
    ensures Hides(a, ".") <==> '.' in a
  {
    if '.' !in a {
      FreshFirstCharHidesNothing(a, ".");
    } else {
      var i: nat :| i < |a| && a[i] == '.';
      assert a + "."[..0] == a;
      assert OccursAt(".", a, i);
    }
  }

  lemma TokenAlone(s: string)
    requires '.' !in s
    ensures Tokens(s) == [s]
  {
    CutAbsent(s, '.');
  }

  lemma FirstToken(a: string, b: string)
    requires '.' !in a
    ensures Tokens(a + "." + b) == [a] + Tokens(b)
  {
    DotHides(a);
    CutJoined(a, ".", b);
  }

  lemma JoinBehindToken(x: string, y: string, b: string)
    requires '.' !in x && Tokens(y + "." + b) == Tokens(y) + Tokens(b)
    ensures Tokens(x + "." + y + "." + b) == Tokens(x + "." + y) + Tokens(b)
  {
    FirstToken(x, y);
    FirstToken(x, y + "." + b);
    JoinAssociates(x, y, b);
    ConcatAssociates([x], Tokens(y), Tokens(b));
  }

  lemma JoinAssociates(x: string, y: string, b: string)
    ensures x + "." + y + "." + b == x + "." + (y + "." + b)
  {
  }

  lemma ConcatAssociates(xs: seq<string>, ys: seq<string>, zs: seq<string>)
    ensures xs + (ys + zs) == xs + ys + zs
  {
  }

  lemma CutAtDot(s: string)
    requires '.' in s
    ensures var c := CutAtFirst(s, ".");
            c.Some? && '.' !in c.value.0 && s == c.value.0 + "." + c.value.1 && |c.value.1| < |s|
  {
    CutAbsent(s, '.');
    CutSound(s, ".");
    DotHides(CutAtFirst(s, ".").value.0);
  }

  /** Splitting at the dots undoes joining with a dot, whatever the two texts hold. */
  lemma {:induction false} TokensOfJoined(a: string, b: string)
    ensures Tokens(a + "." + b) == Tokens(a) + Tokens(b)
    decreases |a|
  {
    if '.' in a {
      CutAtDot(a);
      var (x, y) := CutAtFirst(a, ".").value;
      TokensOfJoined(y, b);
      JoinBehindToken(x, y, b);
    } else {
      TokenAlone(a);
      FirstToken(a, b);
    }
  }

  lemma {:induction false} TokensAreDotFree(s: string)
    ensures forall t | t in Tokens(s) :: '.' !in t
    ensures Join(Tokens(s)) == s
    decreases |s|
  {
    CutSound(s, ".");
    CutAbsent(s, '.');
    match CutAtFirst(s, ".")
    case None =>
    case Some((x, y)) =>
      DotHides(x);
      TokensAreDotFree(y);
      assert Tokens(s)[1..] == Tokens(y);
  }

  lemma {:induction false} TokensOfJoin(ts: seq<string>)
    requires ts != [] && forall t | t in ts :: '.' !in t
    ensures Tokens(Join(ts)) == ts
  {
    if |ts| == 1 {
      TokenAlone(ts[0]);
    } else {
      TokensOfJoin(ts[1..]);
      FirstToken(ts[0], Join(ts[1..]));
    }
  }

  // ---------- subjects ----------

  lemma PrefixParts()
    ensures EVENT_PREFIX == "hodei" + "." + "events"
    ensures '.' !in "hodei" && '.' !in "events"
  {
  }

  lemma PrefixTokens()
    ensures Tokens(EVENT_PREFIX) == ["hodei", "events"]
  {
    PrefixParts();
    FirstToken("hodei", "events");
    TokenAlone("events");
  }

  /** The tokens of a subject: the two of the prefix, then those of the entity, then those of the action. */
  lemma SubjectTokens(entity: string, action: string)
    ensures Tokens(EventSubject(entity, action)) == ["hodei", "events"] + Tokens(entity) + Tokens(action)
  {
    PrefixTokens();
    TokensOfJoined(EVENT_PREFIX + "." + entity, action);
    TokensOfJoined(EVENT_PREFIX, entity);
  }

  /** A subject has the documented four tokens exactly when entity and action hold no dot. */
  lemma SubjectFormat(entity: string, action: string)
    ensures Tokens(EventSubject(entity, action)) == ["hodei", "events", entity, action]
       <==> '.' !in entity && '.' !in action
  {
    SubjectTokens(entity, action);
    if '.' !in entity && '.' !in action {
      TokenAlone(entity);
      TokenAlone(action);
    }
    if Tokens(EventSubject(entity, action)) == ["hodei", "events", entity, action] {
      TokensAreDotFree(EventSubject(entity, action));
      var ts := ["hodei", "events", entity, action];
      assert ts[2] in ts && ts[3] in ts;
    }
  }

  lemma SameSubject(e: string, a: string, f: string, b: string)
    ensures EventSubject(e, a) == EventSubject(f, b) <==> e + "." + a == f + "." + b
  {
    AfterPrefix(e, a);
    AfterPrefix(f, b);
  }

  lemma AfterPrefix(e: string, a: string)
    ensures EventSubject(e, a) == (EVENT_PREFIX + ".") + (e + "." + a)
    ensures EventSubject(e, a)[|EVENT_PREFIX| + 1..] == e + "." + a
  {
    assert EventSubject(e, a) == (EVENT_PREFIX + ".") + (e + "." + a);
  }

  lemma DotOnlyAtJoin(entity: string, action: string)
    ensures OnlyAtJoin(entity, ".", action) <==> '.' !in entity && '.' !in action
  {
    var s := entity + "." + action;
    forall i: nat | i < |s| ensures OccursAt(".", s, i) <==> s[i] == '.' {
      assert s[i..i + 1] == [s[i]];
    }
    if i: nat :| i < |entity| && entity[i] == '.' {
      assert OccursAt(".", s, i);
    }
    if i: nat :| i < |action| && action[i] == '.' {
      assert s[|entity| + 1 + i] == '.';
      assert OccursAt(".", s, |entity| + 1 + i);
    }
  }

  /** The subject tells entity and action apart, over all texts, exactly when they hold no dot. */
  lemma SubjectDeterminesExactly(entity: string, action: string)
    ensures (forall e, a | EventSubject(e, a) == EventSubject(entity, action) :: e == entity && a == action)
       <==> '.' !in entity && '.' !in action
  {
    DotOnlyAtJoin(entity, action);
    SingleReading(entity, ".", action);
    if OnlyAtJoin(entity, ".", action) {
      forall e, a | EventSubject(e, a) == EventSubject(entity, action) ensures e == entity && a == action {
        SameSubject(e, a, entity, action);
      }
    } else {
      var e, a :| e + "." + a == entity + "." + action && !(e == entity && a == action);
      SameSubject(e, a, entity, action);
    }
  }

  // ---------- wildcards ----------

  /**
   NATS subject matching, token by token: `*` stands for one token, a final `>` for one or more.
   */
  predicate Matches(pattern: seq<string>, subject: seq<string>) {
    if pattern == [] then subject == []
    else if pattern == [">"] then subject != []
    else subject != [] && (pattern[0] == "*" || pattern[0] == subject[0]) && Matches(pattern[1..], subject[1..])
  }

  predicate MatchesText(pattern: string, subject: string) {
    Matches(Tokens(pattern), Tokens(subject))
  }

  /** The multi-level wildcard of one entity. */
  function EntityWildcard(entity: string): string {
    EVENT_PREFIX + "." + entity + ".>"
  }

  lemma WildcardTokens(entity: string)
    requires '.' !in entity
    ensures Tokens(EntityWildcard(entity)) == ["hodei", "events", entity, ">"]
  {
    assert EntityWildcard(entity) == EventSubject(entity, ">");
    SubjectFormat(entity, ">");
  }

  lemma MatchCons(x: string, p: seq<string>, y: string, s: seq<string>)
    requires p != []
    ensures Matches([x] + p, [y] + s) <==> (x == "*" || x == y) && Matches(p, s)
  {
    assert ([x] + p)[1..] == p && ([y] + s)[1..] == s;
  }

  lemma MatchesPrefixed(p: seq<string>, s: seq<string>)
    requires p != []
    ensures Matches(["hodei", "events"] + p, ["hodei", "events"] + s) <==> Matches(p, s)
  {
    assert ["hodei", "events"] + p == ["hodei"] + (["events"] + p);
    assert ["hodei", "events"] + s == ["hodei"] + (["events"] + s);
    MatchCons("hodei", ["events"] + p, "hodei", ["events"] + s);
    MatchCons("events", p, "events", s);
  }

  lemma MatchesEntity(e: string, rest: seq<string>)
    ensures Matches([e] + [">"], rest) <==> |rest| >= 2 && (e == "*" || e == rest[0])
  {
    if rest != [] {
      assert rest == [rest[0]] + rest[1..];
      MatchCons(e, [">"], rest[0], rest[1..]);
    }
  }

  /** An entity's wildcard matches a subject exactly when the subject's first entity token is that entity. */
  lemma WildcardRoutes(e: string, entity: string, action: string)
    requires '.' !in e && e != "*"
    ensures MatchesText(EntityWildcard(e), EventSubject(entity, action)) <==> Tokens(entity)[0] == e
  {
    WildcardTokens(e);
    SubjectTokens(entity, action);
    PatternRoutes(e, Tokens(entity), Tokens(action));
  }

  lemma PatternRoutes(e: string, entity: seq<string>, action: seq<string>)
    requires e != "*" && entity != [] && action != []
    ensures Matches(["hodei", "events", e, ">"], ["hodei", "events"] + entity + action) <==> entity[0] == e
  {
    assert ["hodei", "events", e, ">"] == ["hodei", "events"] + ([e] + [">"]);
    assert ["hodei", "events"] + entity + action == ["hodei", "events"] + (entity + action);
    MatchesPrefixed([e] + [">"], entity + action);
    MatchesEntity(e, entity + action);
  }

  /** For a dot-free entity: exactly its own wildcard. */
  lemma WildcardRoutesExactly(e: string, entity: string, action: string)
    requires '.' !in e && e != "*" && '.' !in entity
    ensures MatchesText(EntityWildcard(e), EventSubject(entity, action)) <==> e == entity
  {
    WildcardRoutes(e, entity, action);
    TokenAlone(entity);
  }

  lemma OpenPatternTokens(last: string)
    requires '.' !in last
    ensures Tokens(EVENT_PREFIX + "." + last) == ["hodei", "events"] + [last]
  {
    PrefixTokens();
    TokensOfJoined(EVENT_PREFIX, last);
    TokenAlone(last);
  }

  lemma OpenMatches(rest: seq<string>)
    requires rest != []
    ensures Matches(["hodei", "events"] + [">"], ["hodei", "events"] + rest)
  {
    MatchesPrefixed([">"], rest);
  }

  lemma OpenPatternMatches(pattern: string, entity: string, action: string)
    requires Tokens(pattern) == ["hodei", "events"] + [">"]
    ensures MatchesText(pattern, EventSubject(entity, action))
  {
    SubjectTokens(entity, action);
    ConcatAssociates(["hodei", "events"], Tokens(entity), Tokens(action));
    OpenMatches(Tokens(entity) + Tokens(action));
  }

  /** `ALL_EVENTS` matches everything the builder produces. */
  lemma AllEventsMatchesEverySubject(entity: string, action: string)
    ensures MatchesText(ALL_EVENTS, EventSubject(entity, action))
  {
    OpenPatternTokens(">");
    assert ALL_EVENTS == EVENT_PREFIX + "." + ">";
    OpenPatternMatches(ALL_EVENTS, entity, action);
  }

  /** The entities that have a wildcard of their own. */
  const Entities: seq<string> := ["jobs", "workers", "providers", "templates", "scheduling", "queue", "gc"]

  const Wildcards: seq<string> :=
    [JOBS_ALL, WORKERS_ALL, PROVIDERS_ALL, TEMPLATES_ALL, SCHEDULING_ALL, QUEUE_ALL, GC_ALL]

  lemma WildcardsAreEntityWildcards(i: nat)
    requires i < |Wildcards|
    ensures Wildcards[i] == EntityWildcard(Entities[i])
    ensures '.' !in Entities[i] && Entities[i] != "*"
  {
  }

  lemma EntitiesDistinct(i: nat, j: nat)
    requires i < j < |Entities|
    ensures Entities[i] != Entities[j]
  {
  }

  /** A subject is delivered to at most one of the seven entity wildcards. */
  lemma RoutingIsExclusive(i: nat, j: nat, entity: string, action: string)
    requires i < j < |Wildcards|
    ensures !(MatchesText(Wildcards[i], EventSubject(entity, action)) && MatchesText(Wildcards[j], EventSubject(entity, action)))
  {
    WildcardsAreEntityWildcards(i);
    WildcardsAreEntityWildcards(j);
    EntitiesDistinct(i, j);
    WildcardRoutes(Entities[i], entity, action);
    WildcardRoutes(Entities[j], entity, action);
  }
}
