/** The command-line scan at the start of qt_monkey's `main` (qtmonkey_app.cpp):
    `--script <path>` options, then `--user-app <path>` followed by the user
    application's own arguments. `argv` includes the program name at index 0,
    which the scan skips. */
module MonkeyAppMain {

  const UserAppFlag := "--user-app"
  const ScriptFlag := "--script"

  /** Why `main` returns `EXIT_FAILURE` before launching anything. */
  datatype Failure =
    | MissingValue(flag: string)      // a flag is the last argument
    | UnknownOption(arg: string)      // an argument before `--user-app` is neither flag
    | NoUserApp                       // `--user-app` never appears

  datatype ScanResult =
    | ExitFailure(why: Failure)
    | Launch(scripts: seq<string>, appPath: string, appArgs: seq<string>)

  /** The scan from position `i`, with `scripts` collected so far. */
  function ScanFrom(argv: seq<string>, i: nat, scripts: seq<string>): (r: ScanResult)
    decreases |argv| - i
  {
    if i >= |argv| then ExitFailure(NoUserApp)
    else if argv[i] == UserAppFlag then
      if i + 1 >= |argv| then ExitFailure(MissingValue(UserAppFlag))
      else Launch(scripts, argv[i + 1], argv[i + 2..])
    else if argv[i] == ScriptFlag then
      if i + 1 >= |argv| then ExitFailure(MissingValue(ScriptFlag))
      else ScanFrom(argv, i + 2, scripts + [argv[i + 1]])
    else ExitFailure(UnknownOption(argv[i]))
  }

  /** What `main` decides from its command line. */
  function Scan(argv: seq<string>): (r: ScanResult)
  {
    ScanFrom(argv, 1, [])
  }

  /** The argument-scanning part of `main`: the option loop with its early exits,
      the check that a user application was named, and the copy of its arguments. */
  method ParseCommandLine(argv: seq<string>) returns (r: ScanResult)
    ensures r == Scan(argv)
  {
    var userAppOffset := -1;
    var scripts: seq<string> := [];
    var i := 1;
    while i < |argv|
      invariant 1 <= i
      invariant userAppOffset == -1
      invariant ScanFrom(argv, i, scripts) == Scan(argv)
      decreases |argv| - i
    {
      if argv[i] == UserAppFlag {
        if i + 1 >= |argv| {
          return ExitFailure(MissingValue(UserAppFlag));
        }
        i := i + 1;
        userAppOffset := i;
        break;
      } else if argv[i] == ScriptFlag {
        if i + 1 >= |argv| {
          return ExitFailure(MissingValue(ScriptFlag));
        }
        i := i + 1;
        scripts := scripts + [argv[i]];
      } else {
        return ExitFailure(UnknownOption(argv[i]));
      }
      i := i + 1;
    }
    if userAppOffset == -1 {
      return ExitFailure(NoUserApp);
    }
    var userAppArgs: seq<string> := [];
    var j := userAppOffset + 1;
    while j < |argv|
      invariant userAppOffset + 1 <= j <= |argv|
      invariant userAppArgs == argv[userAppOffset + 1..j]
    {
      assert argv[userAppOffset + 1..j + 1] == argv[userAppOffset + 1..j] + [argv[j]];
      userAppArgs := userAppArgs + [argv[j]];
      j := j + 1;
    }
    r := Launch(scripts, argv[userAppOffset], userAppArgs);
  }

  // ---------------------------------------------------------------- a printer

  /** `--script p` for each path, in order. */
  function ScriptOptions(paths: seq<string>): (args: seq<string>)
    ensures |args| == 2 * |paths|
  {
    if paths == [] then [] else [ScriptFlag, paths[0]] + ScriptOptions(paths[1..])
  }

  /** The command line (after the program name) that asks for a launch. */
  function Render(scripts: seq<string>, appPath: string, appArgs: seq<string>): (args: seq<string>)
  {
    ScriptOptions(scripts) + [UserAppFlag, appPath] + appArgs
  }

  /** Scanning past `--script` options appends their paths in order. */
  lemma {:induction false} ScanScriptOptions(argv: seq<string>, i: nat, scripts: seq<string>, paths: seq<string>)
    requires i + 2 * |paths| <= |argv|
    requires argv[i..i + 2 * |paths|] == ScriptOptions(paths)
    ensures ScanFrom(argv, i, scripts) == ScanFrom(argv, i + 2 * |paths|, scripts + paths)
    decreases paths
  {
    if paths == [] {
      assert scripts + paths == scripts;
    } else {
      assert argv[i] == argv[i..i + 2 * |paths|][0] == ScriptFlag;
      assert argv[i + 1] == argv[i..i + 2 * |paths|][1] == paths[0];
      assert argv[i + 2..i + 2 * |paths|] == argv[i..i + 2 * |paths|][2..];
      ScanScriptOptions(argv, i + 2, scripts + [paths[0]], paths[1..]);
      assert scripts + [paths[0]] + paths[1..] == scripts + paths;
    }
  }

  /** Every launch request is understood as written: scripts in order, the app
      path, and the app's arguments, even those that look like options. */
  lemma RenderRoundTrip(prog: string, scripts: seq<string>, appPath: string, appArgs: seq<string>)
    ensures Scan([prog] + Render(scripts, appPath, appArgs)) == Launch(scripts, appPath, appArgs)
  {
    var argv := [prog] + Render(scripts, appPath, appArgs);
    var n := 2 * |scripts|;
    assert argv[1..1 + n] == ScriptOptions(scripts);
    ScanScriptOptions(argv, 1, [], scripts);
    assert [] + scripts == scripts;
    assert argv[1 + n] == UserAppFlag;
    assert argv[2 + n] == appPath;
    assert argv[3 + n..] == appArgs;
  }

  /** A scan from `i` that launches has read a rendered command line from `i` on,
      adding its script paths to those already collected. */
  lemma {:induction false} LaunchFrom(argv: seq<string>, i: nat, scripts: seq<string>)
    requires ScanFrom(argv, i, scripts).Launch?
    ensures i < |argv|
    ensures scripts <= ScanFrom(argv, i, scripts).scripts
    ensures argv[i..] == Render(ScanFrom(argv, i, scripts).scripts[|scripts|..],
                                ScanFrom(argv, i, scripts).appPath,
                                ScanFrom(argv, i, scripts).appArgs)
    decreases |argv| - i
  {
    var r := ScanFrom(argv, i, scripts);
    if argv[i] == UserAppFlag {
      assert r.scripts[|scripts|..] == [];
      assert argv[i..] == [UserAppFlag, argv[i + 1]] + argv[i + 2..];
    } else {
      var more := scripts + [argv[i + 1]];
      LaunchFrom(argv, i + 2, more);
      var tail := r.scripts[|more|..];
      assert r.scripts[|scripts|..] == [argv[i + 1]] + tail;
      assert ([argv[i + 1]] + tail)[1..] == tail;
      assert argv[i..] == [ScriptFlag, argv[i + 1]] + argv[i + 2..];
    }
  }

  /** The scan launches exactly the command lines `Render` produces: whenever it
      launches, the arguments after the program name are the rendering of the result. */
  lemma LaunchIsRender(argv: seq<string>)
    requires Scan(argv).Launch?
    ensures |argv| >= 1
    ensures argv[1..] == Render(Scan(argv).scripts, Scan(argv).appPath, Scan(argv).appArgs)
  {
    LaunchFrom(argv, 1, []);
  }

  /** `main` launches the user application with these scripts, path and arguments
      exactly when they are what the command line spells out. */
  lemma LaunchExactly(argv: seq<string>, scripts: seq<string>, appPath: string, appArgs: seq<string>)
    ensures Scan(argv) == Launch(scripts, appPath, appArgs)
            <==> |argv| >= 1 && argv[1..] == Render(scripts, appPath, appArgs)
  {
    if Scan(argv) == Launch(scripts, appPath, appArgs) {
      LaunchIsRender(argv);
    }
    if |argv| >= 1 && argv[1..] == Render(scripts, appPath, appArgs) {
      assert argv == [argv[0]] + Render(scripts, appPath, appArgs);
      RenderRoundTrip(argv[0], scripts, appPath, appArgs);
    }
  }

  /** A launching scan has read `--user-app` in option position, right after the
      `--script` options it collected. */
  lemma LaunchReadsUserAppFlag(argv: seq<string>)
    requires Scan(argv).Launch?
    ensures 2 + 2 * |Scan(argv).scripts| < |argv|
    ensures argv[1 + 2 * |Scan(argv).scripts|] == UserAppFlag
    ensures argv[2 + 2 * |Scan(argv).scripts|] == Scan(argv).appPath
  {
    LaunchIsRender(argv);
    var k := 2 * |Scan(argv).scripts|;
    assert argv[1..][k] == UserAppFlag;
    assert argv[1..][k + 1] == Scan(argv).appPath;
  }

  /** Without `--user-app` anywhere after the program name, `main` fails. */
  lemma NoUserAppFails(argv: seq<string>)
    requires forall k :: 1 <= k < |argv| ==> argv[k] != UserAppFlag
    ensures Scan(argv).ExitFailure?
  {
    if Scan(argv).Launch? {
      LaunchReadsUserAppFlag(argv);
      assert false;
    }
  }

  /** The failures of `main`'s scan, each for the command line that causes it. */
  lemma Failures(prog: string, paths: seq<string>, arg: string, rest: seq<string>)
    ensures Scan([prog] + ScriptOptions(paths)) == ExitFailure(NoUserApp)
    ensures Scan([prog] + ScriptOptions(paths) + [ScriptFlag]) == ExitFailure(MissingValue(ScriptFlag))
    ensures Scan([prog] + ScriptOptions(paths) + [UserAppFlag]) == ExitFailure(MissingValue(UserAppFlag))
    ensures arg != ScriptFlag && arg != UserAppFlag ==>
              Scan([prog] + ScriptOptions(paths) + [arg] + rest) == ExitFailure(UnknownOption(arg))
  {
    var n := 2 * |paths|;
    var a1 := [prog] + ScriptOptions(paths);
    assert a1[1..1 + n] == ScriptOptions(paths);
    ScanScriptOptions(a1, 1, [], paths);
    var a2 := a1 + [ScriptFlag];
    assert a2[1..1 + n] == ScriptOptions(paths);
    ScanScriptOptions(a2, 1, [], paths);
    var a3 := a1 + [UserAppFlag];
    assert a3[1..1 + n] == ScriptOptions(paths);
    ScanScriptOptions(a3, 1, [], paths);
    var a4 := a1 + [arg] + rest;
    assert a4[1..1 + n] == ScriptOptions(paths);
    ScanScriptOptions(a4, 1, [], paths);
  }
}
