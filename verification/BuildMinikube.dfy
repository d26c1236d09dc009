/** The command line of the Minikube build script. */
module BuildMinikube {

  datatype Config = Config(buildServer: bool, buildWorker: bool, noCache: bool)

  /** The script either shows its help and exits, or goes on with a configuration. */
  datatype Outcome = HelpShown | Parsed(config: Config)

  predicate IsHelp(arg: string) { arg == "--help" || arg == "-h" }

  /** The flag occurs, and the other `-only` flag does not come after its last occurrence. */
  ghost predicate LastOnly(args: seq<string>, flag: string, other: string) {
    exists i :: 0 <= i < |args| && args[i] == flag && forall j | i < j < |args| :: args[j] != other
  }

  method ParseArgs(args: seq<string>) returns (outcome: Outcome)
    ensures outcome.HelpShown? <==> "--help" in args || "-h" in args
    ensures outcome.Parsed? ==>
              (outcome.config.noCache <==> "--no-cache" in args)
    ensures outcome.Parsed? ==>
              (outcome.config.buildServer <==> !LastOnly(args, "--worker-only", "--server-only"))
    ensures outcome.Parsed? ==>
              (outcome.config.buildWorker <==> !LastOnly(args, "--server-only", "--worker-only"))
    ensures outcome.Parsed? ==> outcome.config.buildServer || outcome.config.buildWorker
  {
    var config := Config(false, false, false);
    var i := 0;
    while i < |args|
      invariant 0 <= i <= |args|
      invariant forall j | 0 <= j < i :: !IsHelp(args[j])
      invariant config.noCache <==> "--no-cache" in args[..i]
      invariant config.buildServer <==> LastOnly(args[..i], "--server-only", "--worker-only")
      invariant config.buildWorker <==> LastOnly(args[..i], "--worker-only", "--server-only")
      invariant !(config.buildServer && config.buildWorker)
    {
      var arg := args[i];
      ExtendLastOnly(args, i, "--server-only", "--worker-only");
      ExtendLastOnly(args, i, "--worker-only", "--server-only");
      assert args[..i + 1] == args[..i] + [arg];
      if arg == "--server-only" {
        config := config.(buildServer := true);
        config := config.(buildWorker := false);
      } else if arg == "--worker-only" {
        config := config.(buildServer := false);
        config := config.(buildWorker := true);
      } else if arg == "--no-cache" {
        config := config.(noCache := true);
      } else if arg == "--help" || arg == "-h" {
        return HelpShown;
      }
      i := i + 1;
    }
    assert args[..i] == args;
    if !config.buildServer && !config.buildWorker {
      config := config.(buildServer := true);
      config := config.(buildWorker := true);
    }
    return Parsed(config);
  }

  lemma ExtendLastOnly(args: seq<string>, i: nat, flag: string, other: string)
    requires i < |args| && flag != other
    ensures LastOnly(args[..i + 1], flag, other)
       <==> args[i] == flag || (args[i] != other && LastOnly(args[..i], flag, other))
  {
    var now, before := args[..i + 1], args[..i];
    if args[i] == flag {
      assert now[i] == flag;
    }
    if LastOnly(before, flag, other) && args[i] != other {
      var k :| 0 <= k < |before| && before[k] == flag && forall j | k < j < |before| :: before[j] != other;
      assert now[k] == flag;
      forall j | k < j < |now| ensures now[j] != other {
        if j < i { assert now[j] == before[j]; }
      }
    }
    if LastOnly(now, flag, other) && args[i] != flag {
      var k :| 0 <= k < |now| && now[k] == flag && forall j | k < j < |now| :: now[j] != other;
      assert now[i] == args[i];
      assert before[k] == flag;
      forall j | k < j < |before| ensures before[j] != other { assert before[j] == now[j]; }
    }
  }

  /** Of the two `-only` flags at most one is last, and one is as soon as either occurs. */
  lemma {:induction false} OneFlagIsLast(args: seq<string>, a: string, b: string)
    requires a != b
    ensures !(LastOnly(args, a, b) && LastOnly(args, b, a))
    ensures (a in args || b in args) <==> LastOnly(args, a, b) || LastOnly(args, b, a)
  {
    if args != [] {
      var n := |args| - 1;
      OneFlagIsLast(args[..n], a, b);
      ExtendLastOnly(args, n, a, b);
      ExtendLastOnly(args, n, b, a);
      assert args[..n + 1] == args;
      assert args == args[..n] + [args[n]];
    }
  }
}
