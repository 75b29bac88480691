/** The argument vector by which the launcher hands a sandbox plan to its shell helper. */
module HelperArgv {
  import opened Options
  import opened Decimals

  datatype NetworkMode = NoNetwork | External

  datatype Plan = Plan(
    executable: string,
    args: seq<string>,
    readOnly: seq<string>,
    mode: NetworkMode,
    denyLoopback: bool,
    denyPrivateNetworks: bool,
    maxOpenFiles: nat,
    cpuSeconds: nat,
    honeypot: bool,
    environment: seq<(string, string)>)

  /** The helper's variables. */
  datatype Settings = Settings(
    exe: string,
    network: string,
    denyLoopback: bool,
    denyPrivate: bool,
    maxOpenFiles: string,
    cpuSeconds: string,
    honeypot: bool,
    roPaths: seq<string>,
    envKeys: seq<string>,
    envValues: seq<string>,
    targetArgs: seq<string>)

  const DEFAULTS := Settings("", "external", true, true, "128", "300", false, [], [], [], [])

  /** One option of the helper with its values. */
  datatype Opt =
    | Exe(value: string)
    | Network(value: string)
    | DenyLoopback
    | AllowLoopback
    | DenyPrivate
    | MaxOpenFiles(value: string)
    | CpuSeconds(value: string)
    | Honeypot
    | Ro(value: string)
    | Env(key: string, value: string)

  function Words(o: Opt): seq<string> {
    match o
    case Exe(value) => ["--exe", value]
    case Network(value) => ["--network", value]
    case DenyLoopback => ["--deny-loopback"]
    case AllowLoopback => ["--allow-loopback"]
    case DenyPrivate => ["--deny-private"]
    case MaxOpenFiles(value) => ["--max-open-files", value]
    case CpuSeconds(value) => ["--cpu-seconds", value]
    case Honeypot => ["--beamscale-honeypot"]
    case Ro(value) => ["--ro", value]
    case Env(key, value) => ["--env", key, value]
  }

  function Flatten(opts: seq<Opt>): seq<string> {
    if opts == [] then [] else Words(opts[0]) + Flatten(opts[1..])
  }

  function Apply(s: Settings, o: Opt): Settings {
    match o
    case Exe(value) => s.(exe := value)
    case Network(value) => s.(network := value)
    case DenyLoopback => s.(denyLoopback := true)
    case AllowLoopback => s.(denyLoopback := false)
    case DenyPrivate => s.(denyPrivate := true)
    case MaxOpenFiles(value) => s.(maxOpenFiles := value)
    case CpuSeconds(value) => s.(cpuSeconds := value)
    case Honeypot => s.(honeypot := true)
    case Ro(value) => s.(roPaths := s.roPaths + [value])
    case Env(key, value) => s.(envKeys := s.envKeys + [key], envValues := s.envValues + [value])
  }

  function ApplyAll(s: Settings, opts: seq<Opt>): Settings
    decreases |opts|
  {
    if opts == [] then s else ApplyAll(Apply(s, opts[0]), opts[1..])
  }

  /** The option at the head of an argument vector; `None` when it is unknown or lacks a value. */
  function Head(argv: seq<string>): Option<Opt>
    requires argv != []
  {
    if argv[0] == "--deny-loopback" then Some(DenyLoopback)
    else if argv[0] == "--allow-loopback" then Some(AllowLoopback)
    else if argv[0] == "--deny-private" then Some(DenyPrivate)
    else if argv[0] == "--beamscale-honeypot" then Some(Honeypot)
    else if argv[0] == "--env" then if 3 <= |argv| then Some(Env(argv[1], argv[2])) else None
    else if |argv| < 2 then None
    else if argv[0] == "--exe" then Some(Exe(argv[1]))
    else if argv[0] == "--network" then Some(Network(argv[1]))
    else if argv[0] == "--max-open-files" then Some(MaxOpenFiles(argv[1]))
    else if argv[0] == "--cpu-seconds" then Some(CpuSeconds(argv[1]))
    else if argv[0] == "--ro" then Some(Ro(argv[1]))
    else None
  }

  /** The helper's loop as a function; `None` is a fatal exit. */
  function Parsed(s: Settings, argv: seq<string>): Option<Settings>
    decreases |argv|
  {
    if argv == [] then Some(s)
    else if argv[0] == "--" then Some(s.(targetArgs := argv[1..]))
    else
      match Head(argv)
      case None => None
      case Some(o) => Parsed(Apply(s, o), argv[|Words(o)|..])
  }

  /** The helper's option loop. */
  method Parse(argv0: seq<string>) returns (result: Option<Settings>)
    ensures result == Parsed(DEFAULTS, argv0)
  {
    var exe, network, denyLoopback, denyPrivate := "", "external", true, true;
    var maxOpenFiles, cpuSeconds, honeypot := "128", "300", false;
    var roPaths, envKeys, envValues, targetArgs: seq<string> := [], [], [], [];
    var argv := argv0;
    while |argv| > 0
      invariant targetArgs == []
      invariant Parsed(DEFAULTS, argv0) ==
                Parsed(Settings(exe, network, denyLoopback, denyPrivate, maxOpenFiles, cpuSeconds, honeypot,
                                roPaths, envKeys, envValues, targetArgs), argv)
      decreases |argv|
    {
      var option := argv[0];
      if option == "--exe" {
        if |argv| < 2 { return None; }
        exe := argv[1];
        argv := argv[2..];
      } else if option == "--network" {
        if |argv| < 2 { return None; }
        network := argv[1];
        argv := argv[2..];
      } else if option == "--deny-loopback" {
        denyLoopback := true;
        argv := argv[1..];
      } else if option == "--allow-loopback" {
        denyLoopback := false;
        argv := argv[1..];
      } else if option == "--deny-private" {
        denyPrivate := true;
        argv := argv[1..];
      } else if option == "--max-open-files" {
        if |argv| < 2 { return None; }
        maxOpenFiles := argv[1];
        argv := argv[2..];
      } else if option == "--cpu-seconds" {
        if |argv| < 2 { return None; }
        cpuSeconds := argv[1];
        argv := argv[2..];
      } else if option == "--beamscale-honeypot" {
        honeypot := true;
        argv := argv[1..];
      } else if option == "--ro" {
        if |argv| < 2 { return None; }
        roPaths := roPaths + [argv[1]];
        argv := argv[2..];
      } else if option == "--env" {
        if |argv| < 3 { return None; }
        envKeys := envKeys + [argv[1]];
        envValues := envValues + [argv[2]];
        argv := argv[3..];
      } else if option == "--" {
        targetArgs := argv[1..];
        return Some(Settings(exe, network, denyLoopback, denyPrivate, maxOpenFiles, cpuSeconds, honeypot,
                             roPaths, envKeys, envValues, targetArgs));
      } else {
        return None;
      }
    }
    return Some(Settings(exe, network, denyLoopback, denyPrivate, maxOpenFiles, cpuSeconds, honeypot,
                         roPaths, envKeys, envValues, targetArgs));
  }

  function ModeName(mode: NetworkMode): string {
    if mode.NoNetwork? then "none" else "external"
  }

  function RoOpts(paths: seq<string>): seq<Opt> {
    seq(|paths|, i requires 0 <= i < |paths| => Ro(paths[i]))
  }

  function EnvOpts(environment: seq<(string, string)>): seq<Opt> {
    seq(|environment|, i requires 0 <= i < |environment| => Env(environment[i].0, environment[i].1))
  }

  /** The options a plan is printed as, in order. */
  function OptsOf(plan: Plan): seq<Opt> {
    FixedOpts(plan) + FlagOpts(plan) + RoOpts(plan.readOnly) + EnvOpts(plan.environment)
  }

  lemma {:induction false} FlattenAppend(a: seq<Opt>, b: seq<Opt>)
    ensures Flatten(a + b) == Flatten(a) + Flatten(b)
  {
    if a == [] {
      assert a + b == b;
    } else {
      assert (a + b)[1..] == a[1..] + b;
      FlattenAppend(a[1..], b);
    }
  }

  lemma FlattenSnoc(a: seq<Opt>, o: Opt)
    ensures Flatten(a + [o]) == Flatten(a) + Words(o)
  {
    FlattenAppend(a, [o]);
    assert Flatten([o]) == Words(o);
  }

  function FixedOpts(plan: Plan): seq<Opt> {
    [Exe(plan.executable), Network(ModeName(plan.mode)), MaxOpenFiles(Decimal(plan.maxOpenFiles)),
     CpuSeconds(Decimal(plan.cpuSeconds))]
  }

  /** The optional flags that follow, in the order they are printed. */
  function FlagOpts(plan: Plan): seq<Opt> {
    [if plan.denyLoopback then DenyLoopback else AllowLoopback]
    + (if plan.denyPrivateNetworks then [DenyPrivate] else [])
    + (if plan.honeypot then [Honeypot] else [])
  }

  method PrintReadOnly(argv0: seq<string>, paths: seq<string>) returns (argv: seq<string>)
    ensures argv == argv0 + Flatten(RoOpts(paths))
  {
    argv := argv0;
    assert RoOpts(paths[..0]) == [];
    for i := 0 to |paths|
      invariant argv == argv0 + Flatten(RoOpts(paths[..i]))
    {
      argv := argv + ["--ro"] + [paths[i]];
      FlattenSnoc(RoOpts(paths[..i]), Ro(paths[i]));
      assert RoOpts(paths[..i + 1]) == RoOpts(paths[..i]) + [Ro(paths[i])];
    }
    assert paths[..|paths|] == paths;
  }

  method PrintEnvironment(argv0: seq<string>, environment: seq<(string, string)>) returns (argv: seq<string>)
    ensures argv == argv0 + Flatten(EnvOpts(environment))
  {
    argv := argv0;
    assert EnvOpts(environment[..0]) == [];
    for i := 0 to |environment|
      invariant argv == argv0 + Flatten(EnvOpts(environment[..i]))
    {
      var pair := environment[i];
      argv := argv + ["--env"] + [pair.0] + [pair.1];
      FlattenSnoc(EnvOpts(environment[..i]), Env(pair.0, pair.1));
      assert EnvOpts(environment[..i + 1]) == EnvOpts(environment[..i]) + [Env(pair.0, pair.1)];
    }
    assert environment[..|environment|] == environment;
  }

  method PrintFlags(argv0: seq<string>, plan: Plan) returns (argv: seq<string>)
    ensures argv == argv0 + Flatten(FlagOpts(plan))
  {
    ghost var opts := [];
    argv := argv0;
    if plan.denyLoopback {
      argv := argv + ["--deny-loopback"];
    } else {
      argv := argv + ["--allow-loopback"];
    }
    FlattenSnoc([], if plan.denyLoopback then DenyLoopback else AllowLoopback);
    opts := [] + [if plan.denyLoopback then DenyLoopback else AllowLoopback];
    if plan.denyPrivateNetworks {
      argv := argv + ["--deny-private"];
      FlattenSnoc(opts, DenyPrivate);
      opts := opts + [DenyPrivate];
    }
    if plan.honeypot {
      argv := argv + ["--beamscale-honeypot"];
      FlattenSnoc(opts, Honeypot);
      opts := opts + [Honeypot];
    }
    assert opts == FlagOpts(plan);
  }

  /** How the launcher builds the helper's arguments, after the path of the helper itself. */
  method Print(plan: Plan) returns (argv: seq<string>)
    ensures argv == Flatten(OptsOf(plan)) + ["--"] + plan.args
  {
    argv := ["--exe", plan.executable, "--network", if plan.mode == NoNetwork then "none" else "external",
             "--max-open-files", Decimal(plan.maxOpenFiles), "--cpu-seconds", Decimal(plan.cpuSeconds)];
    FlattenFixed(plan);
    argv := PrintFlags(argv, plan);
    argv := PrintReadOnly(argv, plan.readOnly);
    argv := PrintEnvironment(argv, plan.environment);
    FlattenOptsOf(plan);
    argv := argv + ["--"] + plan.args;
  }

  lemma FlattenOptsOf(plan: Plan)
    ensures Flatten(OptsOf(plan)) ==
            Flatten(FixedOpts(plan)) + Flatten(FlagOpts(plan)) + Flatten(RoOpts(plan.readOnly))
            + Flatten(EnvOpts(plan.environment))
  {
    FlattenAppend(FixedOpts(plan), FlagOpts(plan));
    FlattenAppend(FixedOpts(plan) + FlagOpts(plan), RoOpts(plan.readOnly));
    FlattenAppend(FixedOpts(plan) + FlagOpts(plan) + RoOpts(plan.readOnly), EnvOpts(plan.environment));
  }

  lemma FlattenFixed(plan: Plan)
    ensures Flatten(FixedOpts(plan)) ==
            ["--exe", plan.executable, "--network", ModeName(plan.mode),
             "--max-open-files", Decimal(plan.maxOpenFiles), "--cpu-seconds", Decimal(plan.cpuSeconds)]
  {
    var o := FixedOpts(plan);
    FlattenSnoc([], o[0]);
    assert [] + [o[0]] == [o[0]];
    FlattenSnoc([o[0]], o[1]);
    FlattenSnoc([o[0], o[1]], o[2]);
    FlattenSnoc([o[0], o[1], o[2]], o[3]);
    assert o == [o[0], o[1], o[2]] + [o[3]];
  }

  lemma FlattenFlags(plan: Plan)
    ensures Flatten(FlagOpts(plan)) ==
            [if plan.denyLoopback then "--deny-loopback" else "--allow-loopback"]
            + (if plan.denyPrivateNetworks then ["--deny-private"] else [])
            + (if plan.honeypot then ["--beamscale-honeypot"] else [])
  {
    var loopback := [if plan.denyLoopback then DenyLoopback else AllowLoopback];
    var private := if plan.denyPrivateNetworks then [DenyPrivate] else [];
    FlattenSnoc([], loopback[0]);
    assert [] + loopback == loopback;
    if plan.denyPrivateNetworks {
      FlattenSnoc(loopback, DenyPrivate);
    }
    if plan.honeypot {
      FlattenSnoc(loopback + private, Honeypot);
    }
    assert FlagOpts(plan) == loopback + private + if plan.honeypot then [Honeypot] else [];
  }

  /** Each path is printed as `--ro` and itself. */
  lemma {:induction false} FlattenRo(paths: seq<string>)
    ensures |Flatten(RoOpts(paths))| == 2 * |paths|
    ensures forall i | 0 <= i < |paths| ::
              Flatten(RoOpts(paths))[2 * i] == "--ro" && Flatten(RoOpts(paths))[2 * i + 1] == paths[i]
    decreases |paths|
  {
    if paths != [] {
      var n := |paths| - 1;
      FlattenRo(paths[..n]);
      FlattenSnoc(RoOpts(paths[..n]), Ro(paths[n]));
      assert RoOpts(paths) == RoOpts(paths[..n]) + [Ro(paths[n])];
    }
  }

  /** Each variable is printed as `--env`, its name and its value. */
  lemma {:induction false} FlattenEnv(environment: seq<(string, string)>)
    ensures |Flatten(EnvOpts(environment))| == 3 * |environment|
    ensures forall i | 0 <= i < |environment| ::
              && Flatten(EnvOpts(environment))[3 * i] == "--env"
              && Flatten(EnvOpts(environment))[3 * i + 1] == environment[i].0
              && Flatten(EnvOpts(environment))[3 * i + 2] == environment[i].1
    decreases |environment|
  {
    if environment != [] {
      var n := |environment| - 1;
      FlattenEnv(environment[..n]);
      FlattenSnoc(EnvOpts(environment[..n]), Env(environment[n].0, environment[n].1));
      assert EnvOpts(environment) == EnvOpts(environment[..n]) + [Env(environment[n].0, environment[n].1)];
    }
  }

  /** The printed options word by word: four with their values, the flags that are set, the paths, the variables. */
  lemma PrintedWords(plan: Plan) returns (paths: seq<string>, variables: seq<string>)
    ensures Flatten(OptsOf(plan)) ==
            ["--exe", plan.executable, "--network", if plan.mode == NoNetwork then "none" else "external",
             "--max-open-files", Decimal(plan.maxOpenFiles), "--cpu-seconds", Decimal(plan.cpuSeconds)]
            + ([if plan.denyLoopback then "--deny-loopback" else "--allow-loopback"]
               + (if plan.denyPrivateNetworks then ["--deny-private"] else [])
               + (if plan.honeypot then ["--beamscale-honeypot"] else []))
            + paths + variables
    ensures |paths| == 2 * |plan.readOnly| && |variables| == 3 * |plan.environment|
    ensures forall i | 0 <= i < |plan.readOnly| :: paths[2 * i] == "--ro" && paths[2 * i + 1] == plan.readOnly[i]
    ensures forall i | 0 <= i < |plan.environment| ::
              && variables[3 * i] == "--env"
              && variables[3 * i + 1] == plan.environment[i].0 && variables[3 * i + 2] == plan.environment[i].1
  {
    paths, variables := Flatten(RoOpts(plan.readOnly)), Flatten(EnvOpts(plan.environment));
    FlattenOptsOf(plan);
    FlattenFixed(plan);
    FlattenFlags(plan);
    FlattenRo(plan.readOnly);
    FlattenEnv(plan.environment);
  }

  /** The head of a printed option is that option, whatever its values are. */
  lemma HeadOfWords(o: Opt, rest: seq<string>)
    ensures var argv := Words(o) + rest;
            Head(argv) == Some(o) && argv[0] != "--" && argv[|Words(o)|..] == rest
  {
  }

  /** Printed options are parsed back one by one. */
  lemma {:induction false} ParseOptions(s: Settings, opts: seq<Opt>, rest: seq<string>)
    ensures Parsed(s, Flatten(opts) + rest) == Parsed(ApplyAll(s, opts), rest)
    decreases |opts|
  {
    if opts == [] {
      assert Flatten(opts) + rest == rest;
    } else {
      var tail := Flatten(opts[1..]) + rest;
      assert Flatten(opts) + rest == Words(opts[0]) + tail;
      HeadOfWords(opts[0], tail);
      ParseOptions(Apply(s, opts[0]), opts[1..], rest);
    }
  }

  lemma HeadIsPrefix(argv: seq<string>)
    requires argv != [] && Head(argv).Some?
    ensures var words := Words(Head(argv).value);
            0 < |words| <= |argv| && argv == words + argv[|words|..]
  {
    var words := Words(Head(argv).value);
    assert |words| == 1 ==> words[0] == argv[0];
    assert |words| == 2 ==> words[1] == argv[1];
  }

  /** Every argument vector is a list of well-formed options up to its end, `--` or a malformed option. */
  lemma {:induction false} SplitOptions(argv: seq<string>) returns (opts: seq<Opt>, end: seq<string>)
    ensures argv == Flatten(opts) + end && (end == [] || end[0] == "--" || Head(end) == None)
    decreases |argv|
  {
    if argv == [] || argv[0] == "--" || Head(argv) == None {
      opts, end := [], argv;
    } else {
      var o := Head(argv).value;
      HeadIsPrefix(argv);
      var rest;
      rest, end := SplitOptions(argv[|Words(o)|..]);
      opts := [o] + rest;
      ConsFlatten(o, rest, end);
    }
  }

  lemma ConsFlatten(o: Opt, rest: seq<Opt>, end: seq<string>)
    ensures Flatten([o] + rest) + end == Words(o) + (Flatten(rest) + end)
  {
    assert ([o] + rest)[1..] == rest;
  }

  /**
   * The helper's language, with `ParseOptions`: whatever is accepted is a list of well-formed options,
   * optionally followed by `--` and the target's arguments, and means what those options mean.
   */
  lemma ParseSound(s: Settings, argv: seq<string>) returns (opts: seq<Opt>, end: seq<string>)
    requires Parsed(s, argv).Some?
    ensures argv == Flatten(opts) + end && (end == [] || end[0] == "--")
    ensures Parsed(s, argv).value ==
            if end == [] then ApplyAll(s, opts) else ApplyAll(s, opts).(targetArgs := end[1..])
  {
    opts, end := SplitOptions(argv);
    ParseOptions(s, opts, end);
  }

  lemma ConsApply(s: Settings, o: Opt, rest: seq<Opt>)
    ensures ApplyAll(s, [o] + rest) == ApplyAll(Apply(s, o), rest)
  {
    assert ([o] + rest)[1..] == rest;
  }

  lemma {:induction false} ApplyAllAppend(s: Settings, a: seq<Opt>, b: seq<Opt>)
    ensures ApplyAll(s, a + b) == ApplyAll(ApplyAll(s, a), b)
    decreases |a|
  {
    if a == [] {
      assert a + b == b;
    } else {
      assert (a + b)[1..] == a[1..] + b;
      ApplyAllAppend(Apply(s, a[0]), a[1..], b);
    }
  }

  lemma {:induction false} ApplyRo(s: Settings, paths: seq<string>)
    ensures ApplyAll(s, RoOpts(paths)) == s.(roPaths := s.roPaths + paths)
    decreases |paths|
  {
    if paths != [] {
      assert RoOpts(paths)[1..] == RoOpts(paths[1..]);
      ApplyRo(s.(roPaths := s.roPaths + [paths[0]]), paths[1..]);
      assert s.roPaths + [paths[0]] + paths[1..] == s.roPaths + paths;
    }
  }

  function Keys(environment: seq<(string, string)>): seq<string> {
    seq(|environment|, i requires 0 <= i < |environment| => environment[i].0)
  }

  function Values(environment: seq<(string, string)>): seq<string> {
    seq(|environment|, i requires 0 <= i < |environment| => environment[i].1)
  }

  lemma {:induction false} ApplyEnv(s: Settings, environment: seq<(string, string)>)
    ensures ApplyAll(s, EnvOpts(environment)) ==
            s.(envKeys := s.envKeys + Keys(environment), envValues := s.envValues + Values(environment))
    decreases |environment|
  {
    if environment != [] {
      var pair := environment[0];
      var s' := s.(envKeys := s.envKeys + [pair.0], envValues := s.envValues + [pair.1]);
      assert EnvOpts(environment)[1..] == EnvOpts(environment[1..]);
      ApplyEnv(s', environment[1..]);
      assert s.envKeys + [pair.0] + Keys(environment[1..]) == s.envKeys + Keys(environment);
      assert s.envValues + [pair.1] + Values(environment[1..]) == s.envValues + Values(environment);
    }
  }

  /** What the helper should make of a plan; private networks are always denied. */
  function SettingsOf(plan: Plan): Settings {
    Settings(plan.executable, ModeName(plan.mode), plan.denyLoopback, true,
             Decimal(plan.maxOpenFiles), Decimal(plan.cpuSeconds), plan.honeypot,
             plan.readOnly, Keys(plan.environment), Values(plan.environment), plan.args)
  }

  lemma ApplyFixed(plan: Plan)
    ensures ApplyAll(DEFAULTS, FixedOpts(plan)) ==
            DEFAULTS.(exe := plan.executable, network := ModeName(plan.mode),
                      maxOpenFiles := Decimal(plan.maxOpenFiles), cpuSeconds := Decimal(plan.cpuSeconds))
  {
    var o := FixedOpts(plan);
    ConsApply(DEFAULTS, o[0], o[1..]);
    ConsApply(Apply(DEFAULTS, o[0]), o[1], o[2..]);
    ConsApply(Apply(Apply(DEFAULTS, o[0]), o[1]), o[2], o[3..]);
    ConsApply(Apply(Apply(Apply(DEFAULTS, o[0]), o[1]), o[2]), o[3], []);
    assert o == [o[0]] + o[1..] && o[1..] == [o[1]] + o[2..] && o[2..] == [o[2]] + o[3..] && o[3..] == [o[3]] + [];
  }

  lemma ApplyFlags(s: Settings, plan: Plan)
    requires s.denyPrivate && !s.honeypot
    ensures ApplyAll(s, FlagOpts(plan)) == s.(denyLoopback := plan.denyLoopback, honeypot := plan.honeypot)
  {
    var loopback := if plan.denyLoopback then DenyLoopback else AllowLoopback;
    var s1 := s.(denyLoopback := plan.denyLoopback);
    var private := if plan.denyPrivateNetworks then [DenyPrivate] else [];
    var honeypot := if plan.honeypot then [Honeypot] else [];
    assert FlagOpts(plan) == [loopback] + (private + honeypot);
    ConsApply(s, loopback, private + honeypot);
    ApplyAllAppend(s1, private, honeypot);
    if plan.denyPrivateNetworks {
      ConsApply(s1, DenyPrivate, []);
      assert private == [DenyPrivate] + [];
    }
    if plan.honeypot {
      ConsApply(s1, Honeypot, []);
      assert honeypot == [Honeypot] + [];
    }
  }

  lemma ApplyPlan(plan: Plan)
    ensures ApplyAll(DEFAULTS, OptsOf(plan)) == SettingsOf(plan).(targetArgs := [])
  {
    var fixed, flags, ro := FixedOpts(plan), FlagOpts(plan), RoOpts(plan.readOnly);
    ApplyAllAppend(DEFAULTS, fixed, flags);
    ApplyAllAppend(DEFAULTS, fixed + flags, ro);
    ApplyAllAppend(DEFAULTS, fixed + flags + ro, EnvOpts(plan.environment));
    ApplyFixed(plan);
    var s1 := ApplyAll(DEFAULTS, fixed);
    ApplyFlags(s1, plan);
    var s2 := ApplyAll(s1, flags);
    ApplyRo(s2, plan.readOnly);
    ApplyEnv(ApplyAll(s2, ro), plan.environment);
    assert [] + plan.readOnly == plan.readOnly;
    assert [] + Keys(plan.environment) == Keys(plan.environment);
    assert [] + Values(plan.environment) == Values(plan.environment);
  }

  /**
   * Round trip: for every plan, whatever strings it holds, the helper reads back exactly the plan's
   * executable, mode, limits, loopback and honeypot flags, paths, environment and arguments; private
   * networks are denied even where the plan does not ask for it.
   */
  lemma RoundTrip(plan: Plan)
    ensures Parsed(DEFAULTS, Flatten(OptsOf(plan)) + ["--"] + plan.args) == Some(SettingsOf(plan))
  {
    assert Flatten(OptsOf(plan)) + ["--"] + plan.args == Flatten(OptsOf(plan)) + (["--"] + plan.args);
    ParseOptions(DEFAULTS, OptsOf(plan), ["--"] + plan.args);
    ApplyPlan(plan);
  }

  /** No argument vector switches the denial of private networks off. */
  lemma {:induction false} PrivateDenialIsPermanent(s: Settings, argv: seq<string>)
    requires s.denyPrivate && Parsed(s, argv).Some?
    ensures Parsed(s, argv).value.denyPrivate
    decreases |argv|
  {
    if argv != [] && argv[0] != "--" {
      var o := Head(argv).value;
      PrivateDenialIsPermanent(Apply(s, o), argv[|Words(o)|..]);
    }
  }

  predicate Digits(text: string) {
    text != "" && forall i | 0 <= i < |text| :: '0' <= text[i] <= '9'
  }

  /** The helper's checks of its settings; whether the executable is there to run is a parameter. */
  predicate Admitted(s: Settings, executableRuns: bool) {
    && s.exe != "" && s.exe[0] == '/'
    && executableRuns
    && (s.network == "external" || s.network == "none")
    && Digits(s.maxOpenFiles) && Digits(s.cpuSeconds)
    && (s.network == "external" ==> s.denyLoopback && s.denyPrivate)
  }

  /**
   * The helper goes on with a plan exactly when its executable is absolute and runs, and external mode denies
   * loopback.
   */
  lemma PlanAdmission(plan: Plan, executableRuns: bool)
    ensures Admitted(SettingsOf(plan), executableRuns) <==>
            && executableRuns
            && plan.executable != "" && plan.executable[0] == '/'
            && (plan.mode.External? ==> plan.denyLoopback)
  {
    DecimalIsDigits(plan.maxOpenFiles);
    DecimalIsDigits(plan.cpuSeconds);
  }

  /**
   * Whatever argument vector the helper is given, it goes on only with an absolute executable that runs, numeric
   * limits and one of two networks, and on the external one only if both loopback and private networks are
   * denied; with these it does go on. An empty vector leaves the defaults, which deny both.
   */
  lemma HelperAdmission(s: Settings, executableRuns: bool)
    ensures !Admitted(s, executableRuns) <==>
            || !executableRuns || s.exe == "" || s.exe[0] != '/'
            || s.network !in {"external", "none"}
            || (s.network == "external" && !(s.denyLoopback && s.denyPrivate))
            || s.maxOpenFiles == "" || (exists i | 0 <= i < |s.maxOpenFiles| :: !('0' <= s.maxOpenFiles[i] <= '9'))
            || s.cpuSeconds == "" || (exists i | 0 <= i < |s.cpuSeconds| :: !('0' <= s.cpuSeconds[i] <= '9'))
    ensures Parsed(DEFAULTS, []) == Some(Settings("", "external", true, true, "128", "300", false, [], [], [], []))
  {
  }

  /** Two plans that print alike agree in everything but the private-network flag. */
  lemma PrintIsInjective(a: Plan, b: Plan)
    requires Flatten(OptsOf(a)) + ["--"] + a.args == Flatten(OptsOf(b)) + ["--"] + b.args
    ensures a == b.(denyPrivateNetworks := a.denyPrivateNetworks)
  {
    RoundTrip(a);
    RoundTrip(b);
    assert SettingsOf(a) == SettingsOf(b);
    DecimalInjective(a.maxOpenFiles, b.maxOpenFiles);
    DecimalInjective(a.cpuSeconds, b.cpuSeconds);
    assert a.environment == b.environment by {
      assert Keys(a.environment) == Keys(b.environment) && Values(a.environment) == Values(b.environment);
      assert |a.environment| == |Keys(a.environment)| && |b.environment| == |Keys(b.environment)|;
      forall i | 0 <= i < |a.environment| ensures a.environment[i] == b.environment[i] {
        assert a.environment[i] == (Keys(a.environment)[i], Values(a.environment)[i]);
        assert b.environment[i] == (Keys(b.environment)[i], Values(b.environment)[i]);
      }
    }
    assert (a.mode.NoNetwork? <==> b.mode.NoNetwork?);
  }
}
