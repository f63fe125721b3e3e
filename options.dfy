/** The startup configuration and the command-line option parser: a
    left-to-right pass over argv that fills a Config, stops early on
    -v/--version and -h/--help, and fails with ARG_ERR on a missing value,
    a value that parses to zero, or an unknown argument. */
module Options {

  datatype Option<T> = None | Some(value: T)

  /** The program's result codes that the parser can produce. */
  const Ok: int := 0
  const ArgErr: int := 8

  /** Refresh interval in microseconds, the executable's name (None stands
      for a null pointer) and the two sensitivities. */
  datatype Config = Config(
    refreshRate: int,
    exeName: Option<string>,
    zoomSensitivity: real,
    panSensitivity: real)

  /** The C library's atoi and atof, taken as given: only whether their
      result is zero matters to the parser. atof's result is the value after
      it has been stored into a float. */
  datatype Parsers = Parsers(atoi: string -> int, atof: string -> real)

  /** Why the parser stopped before the program could start. */
  datatype Stop =
    | ShowVersion
    | ShowHelp
    | MissingValue(flag: string)
    | ZeroValue(flag: string)
    | InvalidArgument(arg: string)
  {
    /** The value main returns. */
    function Code(): (c: int)
      ensures c == Ok <==> (ShowVersion? || ShowHelp?)
      ensures c == Ok || c == ArgErr
    {
      match this
      case ShowVersion => Ok
      case ShowHelp => Ok
      case _ => ArgErr
    }
  }

  datatype Outcome = Proceed(config: Config) | Exit(reason: Stop)

  function Abs(n: int): nat { if n < 0 then -n else n }

  /** 1e6 / fps microseconds, converted to a 32-bit integer by truncation
      toward zero (a negative frame rate gives a negative interval). */
  function RefreshInterval(fps: int): (r: int)
    requires fps != 0
    ensures Abs(r) * Abs(fps) <= 1000000 < (Abs(r) + 1) * Abs(fps)
    ensures r * fps >= 0
    ensures -1000000 <= r <= 1000000
  {
    if fps > 0 then 1000000 / fps else -(1000000 / -fps)
  }

  /** The configuration before argv is read. */
  function InitConfig(): (c: Config)
    ensures c.refreshRate == RefreshInterval(240) == 4166
    ensures c.zoomSensitivity == 0.2 && c.panSensitivity == 1.0
    ensures c.exeName == None
  {
    Config(1000000 / 240, None, 0.2, 1.0)
  }

  /** Integer option value: a zero result is an error. */
  function Stoi(p: Parsers, text: string): (r: Option<int>)
    ensures r.None? <==> p.atoi(text) == 0
    ensures r.Some? ==> r.value == p.atoi(text) && r.value != 0
  {
    var n := p.atoi(text);
    if n == 0 then None else Some(n)
  }

  /** Floating-point option value: a zero result is an error. */
  function Stof(p: Parsers, text: string): (r: Option<real>)
    ensures r.None? <==> p.atof(text) == 0.0
    ensures r.Some? ==> r.value == p.atof(text) && r.value != 0.0
  {
    var v := p.atof(text);
    if v == 0.0 then None else Some(v)
  }

  /** -f: sets the refresh interval from a frame rate, nothing else. */
  function ArgFps(c: Config, text: string, p: Parsers): (r: Option<Config>)
    ensures r.None? <==> p.atoi(text) == 0
    ensures r.Some? ==> r.value == c.(refreshRate := RefreshInterval(p.atoi(text)))
  {
    match Stoi(p, text)
    case None => None
    case Some(n) => Some(c.(refreshRate := RefreshInterval(n)))
  }

  /** -z: sets the zoom sensitivity, nothing else. */
  function ArgZoom(c: Config, text: string, p: Parsers): (r: Option<Config>)
    ensures r.None? <==> p.atof(text) == 0.0
    ensures r.Some? ==> r.value == c.(zoomSensitivity := p.atof(text))
  {
    match Stof(p, text)
    case None => None
    case Some(v) => Some(c.(zoomSensitivity := v))
  }

  /** -p: sets the panning sensitivity, nothing else. */
  function ArgPan(c: Config, text: string, p: Parsers): (r: Option<Config>)
    ensures r.None? <==> p.atof(text) == 0.0
    ensures r.Some? ==> r.value == c.(panSensitivity := p.atof(text))
  {
    match Stof(p, text)
    case None => None
    case Some(v) => Some(c.(panSensitivity := v))
  }

  /** What an argument is, by exact string comparison with the short and
      long spelling of each option. */
  datatype Flag = Version | Fps | Zoom | Pan | Help | Unknown
  {
    predicate TakesValue() { Fps? || Zoom? || Pan? }
  }

  function Classify(arg: string): (f: Flag)
    ensures f == Version <==> arg in {"--version", "-v"}
    ensures f == Fps <==> arg in {"--frames-per-second", "-f"}
    ensures f == Zoom <==> arg in {"--zoom-sensitivity", "-z"}
    ensures f == Pan <==> arg in {"--panning-sensitivity", "-p"}
    ensures f == Help <==> arg in {"--help", "-h"}
  {
    if arg == "--version" || arg == "-v" then Version
    else if arg == "--frames-per-second" || arg == "-f" then Fps
    else if arg == "--zoom-sensitivity" || arg == "-z" then Zoom
    else if arg == "--panning-sensitivity" || arg == "-p" then Pan
    else if arg == "--help" || arg == "-h" then Help
    else Unknown
  }

  /** Applies a valued option to the configuration. */
  function ApplyValue(f: Flag, c: Config, text: string, p: Parsers): Option<Config>
    requires f.TakesValue()
  {
    match f
    case Fps => ArgFps(c, text, p)
    case Zoom => ArgZoom(c, text, p)
    case Pan => ArgPan(c, text, p)
  }

  /** The outcome of reading argv from index i on, with configuration c so
      far. A valued option consumes its own slot and the next one. */
  function ParseFrom(argv: seq<string>, i: nat, c: Config, p: Parsers): Outcome
    decreases |argv| - i
  {
    if i >= |argv| then Proceed(c)
    else
      var f := Classify(argv[i]);
      match f
      case Version => Exit(ShowVersion)
      case Help => Exit(ShowHelp)
      case Unknown => Exit(InvalidArgument(argv[i]))
      case _ =>
        if i + 1 == |argv| then Exit(MissingValue(argv[i]))
        else
          match ApplyValue(f, c, argv[i + 1], p)
          case None => Exit(ZeroValue(argv[i]))
          case Some(c') => ParseFrom(argv, i + 2, c', p)
  }

  /** The configuration main starts from: the defaults, with argv[0] as the
      executable's name. */
  function StartConfig(argv: seq<string>): Config
  {
    InitConfig().(exeName := if |argv| > 0 then Some(argv[0]) else None)
  }

  /** The whole command line; argv[0] is the program itself. */
  function Parse(argv: seq<string>, p: Parsers): Outcome
  {
    ParseFrom(argv, 1, StartConfig(argv), p)
  }

  /** The argument loop of main. */
  method ParseArgs(argv: seq<string>, p: Parsers) returns (outcome: Outcome)
    ensures outcome == Parse(argv, p)
  {
    var config := InitConfig();
    config := config.(exeName := if |argv| > 0 then Some(argv[0]) else None);
    var i := 1;
    while i < |argv|
      invariant i >= 1
      invariant ParseFrom(argv, i, config, p) == Parse(argv, p)
      decreases |argv| - i
    {
      var arg := argv[i];
      var f := Classify(arg);
      if f == Version {
        return Exit(ShowVersion);
      } else if f.TakesValue() {
        if |argv| == i + 1 {
          return Exit(MissingValue(arg));
        }
        i := i + 1;
        var next := ApplyValue(f, config, argv[i], p);
        if next.None? {
          return Exit(ZeroValue(arg));
        }
        config := next.value;
      } else if f == Help {
        return Exit(ShowHelp);
      } else {
        return Exit(InvalidArgument(arg));
      }
      i := i + 1;
    }
    return Proceed(config);
  }

  /** With no options the program starts with the defaults. */
  lemma NoOptionsGivesDefaults(exe: string, p: Parsers)
    ensures Parse([exe], p) == Proceed(InitConfig().(exeName := Some(exe)))
  {
  }

  /** A valued option as the last argument is an error. */
  lemma {:induction false} MissingValueIsError(argv: seq<string>, i: nat, c: Config, p: Parsers)
    requires i + 1 == |argv| && Classify(argv[i]).TakesValue()
    ensures ParseFrom(argv, i, c, p) == Exit(MissingValue(argv[i]))
    ensures ParseFrom(argv, i, c, p).reason.Code() == ArgErr
  {
  }

  /** A valued option whose value parses to zero is an error, whatever
      follows it. */
  lemma {:induction false} ZeroValueIsError(argv: seq<string>, i: nat, c: Config, p: Parsers)
    requires i + 1 < |argv| && Classify(argv[i]).TakesValue()
    requires ApplyValue(Classify(argv[i]), c, argv[i + 1], p).None?
    ensures ParseFrom(argv, i, c, p) == Exit(ZeroValue(argv[i]))
    ensures ParseFrom(argv, i, c, p).reason.Code() == ArgErr
  {
  }

  /** A valued option with a good value consumes two slots and parsing
      carries on after them with that one field changed. */
  lemma {:induction false} ValuedOptionConsumesTwo(argv: seq<string>, i: nat, c: Config, p: Parsers)
    requires i + 1 < |argv|
    ensures Classify(argv[i]) == Fps && p.atoi(argv[i + 1]) != 0 ==>
      ParseFrom(argv, i, c, p) == ParseFrom(argv, i + 2, c.(refreshRate := RefreshInterval(p.atoi(argv[i + 1]))), p)
    ensures Classify(argv[i]) == Zoom && p.atof(argv[i + 1]) != 0.0 ==>
      ParseFrom(argv, i, c, p) == ParseFrom(argv, i + 2, c.(zoomSensitivity := p.atof(argv[i + 1])), p)
    ensures Classify(argv[i]) == Pan && p.atof(argv[i + 1]) != 0.0 ==>
      ParseFrom(argv, i, c, p) == ParseFrom(argv, i + 2, c.(panSensitivity := p.atof(argv[i + 1])), p)
  {
  }

  /** An exit other than a missing value is decided by the arguments read so
      far: appending more arguments does not change it. */
  lemma {:induction false} ExitIgnoresLaterArguments(argv: seq<string>, rest: seq<string>, i: nat, c: Config, p: Parsers)
    requires ParseFrom(argv, i, c, p).Exit? && !ParseFrom(argv, i, c, p).reason.MissingValue?
    ensures ParseFrom(argv + rest, i, c, p) == ParseFrom(argv, i, c, p)
    decreases |argv| - i
  {
    var all := argv + rest;
    assert i < |argv|;
    assert all[i] == argv[i];
    var f := Classify(argv[i]);
    if f.TakesValue() {
      assert i + 1 < |argv|;
      assert all[i + 1] == argv[i + 1];
      var next := ApplyValue(f, c, argv[i + 1], p);
      if next.Some? {
        ExitIgnoresLaterArguments(argv, rest, i + 2, next.value, p);
      }
    }
  }

  /** Parsing a prefix successfully lands exactly at its end, and parsing
      the longer command line resumes from there with the configuration the
      prefix produced. */
  lemma {:induction false} PrefixThenRest(argv: seq<string>, rest: seq<string>, i: nat, c: Config, c': Config, p: Parsers)
    requires i <= |argv| && ParseFrom(argv, i, c, p) == Proceed(c')
    ensures ParseFrom(argv + rest, i, c, p) == ParseFrom(argv + rest, |argv|, c', p)
    decreases |argv| - i
  {
    var all := argv + rest;
    if i < |argv| {
      assert all[i] == argv[i];
      var f := Classify(argv[i]);
      assert f.TakesValue() && i + 1 < |argv|;
      assert all[i + 1] == argv[i + 1];
      var next := ApplyValue(f, c, argv[i + 1], p);
      PrefixThenRest(argv, rest, i + 2, next.value, c', p);
    }
  }

  /** -v or -h reached after well-formed options ends parsing with 0, and
      nothing after it is looked at. */
  lemma StopFlagEndsParsing(before: seq<string>, flag: string, after: seq<string>, p: Parsers, c: Config)
    requires |before| >= 1 && Parse(before, p) == Proceed(c)
    requires Classify(flag) == Version || Classify(flag) == Help
    ensures Parse(before + [flag] + after, p).Exit?
    ensures Parse(before + [flag] + after, p).reason == (if Classify(flag) == Version then ShowVersion else ShowHelp)
    ensures Parse(before + [flag] + after, p).reason.Code() == Ok
  {
    var all := before + [flag] + after;
    assert all == before + ([flag] + after);
    assert StartConfig(all) == StartConfig(before);
    PrefixThenRest(before, [flag] + after, 1, StartConfig(before), c, p);
    assert all[|before|] == flag;
  }

  /** An unknown argument reached after well-formed options is an error,
      whatever follows it. */
  lemma UnknownArgumentIsError(before: seq<string>, arg: string, after: seq<string>, p: Parsers, c: Config)
    requires |before| >= 1 && Parse(before, p) == Proceed(c)
    requires Classify(arg) == Unknown
    ensures Parse(before + [arg] + after, p) == Exit(InvalidArgument(arg))
  {
    var all := before + [arg] + after;
    assert all == before + ([arg] + after);
    assert StartConfig(all) == StartConfig(before);
    PrefixThenRest(before, [arg] + after, 1, StartConfig(before), c, p);
    assert all[|before|] == arg;
  }

  /** What a successful parse can produce: the name is kept, both
      sensitivities are nonzero and the refresh interval fits in 32 bits. */
  lemma {:induction false} ProceedConfigSound(argv: seq<string>, i: nat, c: Config, p: Parsers)
    requires c.zoomSensitivity != 0.0 && c.panSensitivity != 0.0
    requires -1000000 <= c.refreshRate <= 1000000
    requires ParseFrom(argv, i, c, p).Proceed?
    ensures ParseFrom(argv, i, c, p).config.exeName == c.exeName
    ensures ParseFrom(argv, i, c, p).config.zoomSensitivity != 0.0
    ensures ParseFrom(argv, i, c, p).config.panSensitivity != 0.0
    ensures -1000000 <= ParseFrom(argv, i, c, p).config.refreshRate <= 1000000
    decreases |argv| - i
  {
    if i < |argv| {
      var f := Classify(argv[i]);
      var next := ApplyValue(f, c, argv[i + 1], p);
      ProceedConfigSound(argv, i + 2, next.value, p);
    }
  }

  /** The same for the whole command line: the transform engine is never
      started with a zero sensitivity. */
  lemma ParseConfigSound(argv: seq<string>, p: Parsers)
    requires Parse(argv, p).Proceed?
    ensures Parse(argv, p).config.exeName == (if |argv| > 0 then Some(argv[0]) else None)
    ensures Parse(argv, p).config.zoomSensitivity != 0.0
    ensures Parse(argv, p).config.panSensitivity != 0.0
    ensures -1000000 <= Parse(argv, p).config.refreshRate <= 1000000
  {
    ProceedConfigSound(argv, 1, StartConfig(argv), p);
  }
}
