/**
 * Running a script (`main` modules of the three packages): how the
 * command line selects the program and rewrites `sys.argv` and
 * `sys.path`, how an exception leaving the program becomes a
 * `SystemExit`, and how the value carried by `SystemExit` becomes the exit
 * status.
 */
module Runner {

  import opened Base
  import opened Text

  /** STATUS_CONTROL_C_EXIT, the Windows status of a process ended by Ctrl+C. */
  const ControlCExit := 0xC000013A

  /** A value given to `sys.exit()`, or an exception. */
  datatype ExitValue =
    | NoValue                               // None
    | IntValue(i: int)
    | BoolValue(b: bool)
    | TextValue(s: string)                  // any other object
    | Exception(code: Option<ExitValue>)    // None: it has no `code` attribute

  /** The exit status, and the value shown to the user as an error, if any. */
  datatype Exit = Exit(status: int, shown: Option<ExitValue>)

  /** An exception's `code` replaces it; anything else stays. */
  function Unwrap(value: ExitValue): ExitValue
  {
    if value.Exception? && value.code.Some? then value.code.value else value
  }

  /** Python's `int(value)` for the values that are ints (bool is one). */
  predicate IsInt(v: ExitValue) { v.IntValue? || v.BoolValue? }

  function IntOf(v: ExitValue): int
    requires IsInt(v)
  {
    if v.IntValue? then v.i else if v.b then 1 else 0
  }

  /** `handle_system_exit(value)` of `main` and of `ahkpy/main.py`. */
  function HandleSystemExit(value: ExitValue): (r: Exit)
    ensures r.shown.Some? <==> value != NoValue && Unwrap(value) != NoValue && !IsInt(Unwrap(value))
    ensures r.shown.Some? ==> r == Exit(1, Some(Unwrap(value)))
    ensures r.shown.None? && (value == NoValue || Unwrap(value) == NoValue) ==> r.status == 0
    ensures IsInt(Unwrap(value)) ==> r == Exit(IntOf(Unwrap(value)), None)
  {
    if value == NoValue then Exit(0, None)
    else
      var v := Unwrap(value);
      if v == NoValue then Exit(0, None)
      else if IsInt(v) then Exit(IntOf(v), None)
      else Exit(1, Some(v))
  }

  /** `handle_system_exit(value)` of the `ahk` package: there is no check for None before the `code` lookup. */
  function LegacyHandleSystemExit(value: ExitValue): (r: Exit)
  {
    var v := Unwrap(value);
    if value.Exception? && value.code == Some(NoValue) then Exit(0, None)
    else if IsInt(v) then Exit(IntOf(v), None)
    else Exit(1, Some(v))
  }

  /** `sys.exit(n)` ends the process with n; `sys.exit()` with 0; `sys.exit("bye")` shows "bye" and gives 1. */
  lemma SystemExitStatus(n: int, s: string)
    ensures HandleSystemExit(Exception(Some(IntValue(n)))) == Exit(n, None)
    ensures HandleSystemExit(Exception(Some(NoValue))) == Exit(0, None)
    ensures HandleSystemExit(Exception(Some(TextValue(s)))) == Exit(1, Some(TextValue(s)))
    ensures HandleSystemExit(Exception(Some(BoolValue(true)))) == Exit(1, None)
  {
  }

  /**
   * The two versions agree on every SystemExit (an exception carrying a
   * code); they differ only on None, which the `ahk` version shows as an
   * error.
   */
  lemma HandleSystemExitVersions(value: ExitValue)
    ensures value.Exception? ==> LegacyHandleSystemExit(value) == HandleSystemExit(value)
    ensures value != NoValue ==> LegacyHandleSystemExit(value) == HandleSystemExit(value)
    ensures HandleSystemExit(NoValue) == Exit(0, None)
    ensures LegacyHandleSystemExit(NoValue) == Exit(1, Some(NoValue))
  {
  }

  // ----- run_code / run_module -----

  /** How the program ended. */
  datatype Ending =
    | Completed
    | SystemExit(code: ExitValue)   // `sys.exit(code)`
    | KeyboardInterrupt
    | OtherException

  /** `run_code` and `run_module`: SystemExit passes through; any other exception becomes `sys.exit(status)`. */
  function RunCode(e: Ending): (r: Ending)
    ensures e.Completed? || e.SystemExit? ==> r == e
    ensures e.KeyboardInterrupt? ==> r == SystemExit(IntValue(ControlCExit))
    ensures e.OtherException? ==> r == SystemExit(IntValue(1))
  {
    match e
    case KeyboardInterrupt => SystemExit(IntValue(ControlCExit))
    case OtherException => SystemExit(IntValue(1))
    case _ => e
  }

  /** `run_code` of `ahkpy/main.py`: every exception but SystemExit gives status 1. */
  function OlderRunCode(e: Ending): (r: Ending)
    ensures e.Completed? || e.SystemExit? ==> r == e
    ensures e.KeyboardInterrupt? || e.OtherException? ==> r == SystemExit(IntValue(1))
  {
    if e.KeyboardInterrupt? || e.OtherException? then SystemExit(IntValue(1)) else e
  }

  /** The status the process ends with: 0 on completion, else what `handle_system_exit` makes of the SystemExit. */
  function Status(e: Ending): int
  {
    match e
    case Completed => 0
    case SystemExit(code) => HandleSystemExit(Exception(Some(code))).status
    case _ => 1
  }

  /** A failing program never ends with status 0; Ctrl+C is reported as such, only by the current version. */
  lemma FailureStatus(e: Ending)
    requires e.KeyboardInterrupt? || e.OtherException?
    ensures Status(RunCode(e)) != 0 && Status(OlderRunCode(e)) == 1
    ensures Status(RunCode(e)) == (if e.KeyboardInterrupt? then ControlCExit else 1)
    ensures RunCode(RunCode(e)) == RunCode(e)
  {
  }

  // ----- the command line -----

  /** What `run_from_args` goes on to run. */
  datatype Program =
    | Source(code: string)        // `-c CMD`
    | ModuleRun(name: string)     // `-m MOD`
    | Interactive                 // the console, when stdin is a terminal
    | StdinSource                 // the code read from stdin
    | PathRun(file: string)       // a script file or directory
    | Exits(status: int)          // usage: `sys.exit(status)`
    | IndexError                  // `args[0]` of an empty list

  /** The options argparse produces for `main`: -q, --no-tray, -c or -m, and the remaining words. */
  datatype Options = Options(quiet: bool, tray: bool, cmd: bool, asModule: bool, args: seq<string>)

  /** The interpreter state `run_from_args` changes. */
  /** `version()`'s query for the AutoHotkey version. */
  const VersionQuery := Call("GetVar", [S("A_AhkVersion")])

  class Interpreter {
    var argv: seq<string>
    var path: seq<string>
    /** The module-level `quiet` flag (no error message boxes). */
    var quiet: bool

    constructor (argv: seq<string>, path: seq<string>)
      ensures this.argv == argv && this.path == path && !quiet
    {
      this.argv, this.path, quiet := argv, path, false;
    }

    /** `if d not in sys.path: sys.path.insert(0, d)`. */
    method AddToPath(d: string)
      modifies this
      ensures path == (if d in old(path) then old(path) else [d] + old(path))
      ensures argv == old(argv) && quiet == old(quiet)
    {
      if d !in path {
        path := [d] + path;
      }
    }

    /**
     * `run_from_args` of `main`. The parser's version text asks for
     * A_AhkVersion before anything is parsed. `hasStdin`/`isTty` describe `sys.stdin`;
     * `cwd` and `scriptDir` are the absolute working directory and the
     * script's directory.
     */
    method RunFromArgs(host: Host, opts: Options, hasStdin: bool, isTty: bool, cwd: string, scriptDir: string)
      returns (p: Program)
      modifies this, host
      ensures host.log == old(host.log) + [VersionQuery] + (if opts.tray then [Call("Menu", [S("Tray"), S("Icon")])] else [])
      ensures var args := opts.args;
        && p == Dispatch(opts, hasStdin, isTty)
        && argv == NewArgv(opts, hasStdin, old(argv))
        && quiet == (opts.quiet || p == Interactive)
        && path == (if PathEntry(opts, hasStdin, cwd, scriptDir).None? || PathEntry(opts, hasStdin, cwd, scriptDir).value in old(path)
                    then old(path) else [PathEntry(opts, hasStdin, cwd, scriptDir).value] + old(path))
    {
      host.Emit(VersionQuery);
      var args := opts.args;
      quiet := opts.quiet;
      if opts.tray {
        host.Emit(Call("Menu", [S("Tray"), S("Icon")]));
      }
      if opts.cmd {
        argv := ["-c"] + (if |args| > 0 then args[1..] else []);
        if |args| == 0 {
          return IndexError;
        }
        return Source(args[0]);
      } else if opts.asModule {
        argv := args;
        AddToPath(cwd);
        if |args| == 0 {
          return IndexError;
        }
        return ModuleRun(args[0]);
      } else if hasStdin && (|args| == 0 || args[0] == "-") {
        argv := if |args| > 0 then args else [""];
        if isTty {
          quiet := true;
          return Interactive;
        }
        return StdinSource;
      } else if |args| > 0 && args[0] != "" {
        argv := args;
        AddToPath(scriptDir);
        return PathRun(args[0]);
      }
      return Exits(2);
    }

    /** `run_from_args` of `ahkpy/main.py`: a usage check on the raw argv first, and no interactive mode. */
    method OlderRunFromArgs(opts: Options, cwd: string, scriptDir: string) returns (p: Program)
      modifies this
      ensures p == OlderDispatch(old(argv), opts)
      ensures |old(argv)| < 2 ==> argv == old(argv) && path == old(path) && quiet == old(quiet)
      ensures |old(argv)| >= 2 ==> quiet == opts.quiet
      ensures |old(argv)| >= 2 && opts.cmd ==> argv == ["-c"] + Tail(opts.args) && path == old(path)
      ensures |old(argv)| >= 2 && !opts.cmd && opts.asModule ==>
        argv == opts.args && path == (if cwd in old(path) then old(path) else [cwd] + old(path))
      ensures p == StdinSource ==> argv == ["-"] + opts.args[1..] && path == old(path)
      ensures |old(argv)| >= 2 && !opts.cmd && !opts.asModule && (p == IndexError || p == Exits(0)) ==>
        argv == old(argv) && path == old(path)
      ensures p.PathRun? ==>
        argv == opts.args && path == (if scriptDir in old(path) then old(path) else [scriptDir] + old(path))
    {
      if |argv| < 2 {
        return Exits(2);
      }
      var args := opts.args;
      quiet := opts.quiet;
      if opts.cmd {
        argv := ["-c"] + Tail(args);
        if |args| == 0 {
          return IndexError;
        }
        return Source(args[0]);
      } else if opts.asModule {
        argv := args;
        AddToPath(cwd);
        if |args| == 0 {
          return IndexError;
        }
        return ModuleRun(args[0]);
      } else if |args| == 0 {
        return IndexError;
      } else if args[0] == "-" {
        argv := ["-"] + args[1..];
        return StdinSource;
      } else if args[0] != "" {
        argv := args;
        AddToPath(scriptDir);
        return PathRun(args[0]);
      }
      return Exits(0);
    }

    /** `run_from_args` of the `ahk` package, over its own `parse_args`. */
    method LegacyRunFromArgs(cwd: string, scriptDir: string) returns (p: Program)
      modifies this
      ensures p == LegacyDispatch(ParseArgs(old(argv)))
      ensures ParseArgs(old(argv)).Some? ==> quiet == ParseArgs(old(argv)).value.quiet
      ensures ParseArgs(old(argv)).None? ==> quiet == old(quiet)
      ensures p.ModuleRun? ==>
        argv == [p.name] + ParseArgs(old(argv)).value.rest
        && path == (if cwd in old(path) then old(path) else [cwd] + old(path))
      ensures p == StdinSource ==> argv == old(argv)[1..] && path == old(path)
      ensures p.PathRun? ==>
        argv == [p.file] + ParseArgs(old(argv)).value.rest
        && path == (if scriptDir in old(path) then old(path) else [scriptDir] + old(path))
      ensures p.Exits? ==> argv == old(argv) && path == old(path)
    {
      var a := ParseArgs(argv);
      if a.None? {
        return Exits(2);
      }
      quiet := a.value.quiet;
      if a.value.help {
        return Exits(0);
      }
      var moduleName, file, rest := a.value.moduleName, a.value.file, a.value.rest;
      if moduleName.Some? && moduleName.value != "" {
        argv := [moduleName.value] + rest;
        AddToPath(cwd);
        return ModuleRun(moduleName.value);
      } else if file == Some("-") {
        argv := argv[1..];
        return StdinSource;
      } else if file.Some? && file.value != "" {
        argv := [file.value] + rest;
        AddToPath(scriptDir);
        return PathRun(file.value);
      }
      return Exits(0);
    }
  }

  function Tail(s: seq<string>): seq<string> { if |s| > 0 then s[1..] else [] }

  /** The program `main`'s `run_from_args` chooses. */
  function Dispatch(opts: Options, hasStdin: bool, isTty: bool): Program
  {
    var args := opts.args;
    if opts.cmd then (if |args| == 0 then IndexError else Source(args[0]))
    else if opts.asModule then (if |args| == 0 then IndexError else ModuleRun(args[0]))
    else if hasStdin && (|args| == 0 || args[0] == "-") then (if isTty then Interactive else StdinSource)
    else if |args| > 0 && args[0] != "" then PathRun(args[0])
    else Exits(2)
  }

  /** The `sys.argv` the program sees. */
  function NewArgv(opts: Options, hasStdin: bool, argv: seq<string>): seq<string>
  {
    var args := opts.args;
    if opts.cmd then ["-c"] + Tail(args)
    else if opts.asModule then args
    else if hasStdin && (|args| == 0 || args[0] == "-") then (if |args| > 0 then args else [""])
    else if |args| > 0 && args[0] != "" then args
    else argv
  }

  /** The directory put in front of `sys.path`, if it is not there yet. */
  function PathEntry(opts: Options, hasStdin: bool, cwd: string, scriptDir: string): Option<string>
  {
    if opts.cmd then None
    else if opts.asModule then Some(cwd)
    else if hasStdin && (|opts.args| == 0 || opts.args[0] == "-") then None
    else if |opts.args| > 0 && opts.args[0] != "" then Some(scriptDir)
    else None
  }

  /** `-c CMD ARGS` gives the program `["-c", ARGS...]`: `['-c']` for no words after the command. */
  lemma CommandArgv(opts: Options, hasStdin: bool, isTty: bool, argv: seq<string>)
    requires opts.cmd && |opts.args| >= 1
    ensures NewArgv(opts, hasStdin, argv) == ["-c"] + opts.args[1..]
    ensures Dispatch(opts, hasStdin, isTty) == Source(opts.args[0])
    ensures NewArgv(opts.(args := ["x"]), hasStdin, argv) == ["-c"]
    ensures NewArgv(opts.(args := ["x", "hello"]), hasStdin, argv) == ["-c", "hello"]
  {
  }

  /** Reading stdin: `[""]` with no words, the words themselves otherwise. */
  lemma StdinArgv(opts: Options, isTty: bool, argv: seq<string>)
    requires !opts.cmd && !opts.asModule
    ensures opts.args == [] ==> NewArgv(opts, true, argv) == [""]
                                && Dispatch(opts, true, isTty) == (if isTty then Interactive else StdinSource)
    ensures |opts.args| > 0 && opts.args[0] == "-" ==> NewArgv(opts, true, argv) == opts.args
    ensures opts.args == [] ==> Dispatch(opts, false, isTty) == Exits(2) && NewArgv(opts, false, argv) == argv
  {
  }

  /**
   * For a module or a script, the program's `sys.argv` is the words
   * starting at its name, and only a module or a script touch `sys.path`.
   */
  lemma ArgvStartsWithProgram(opts: Options, hasStdin: bool, isTty: bool, argv: seq<string>, cwd: string, scriptDir: string)
    ensures var p := Dispatch(opts, hasStdin, isTty);
      && (p.ModuleRun? || p.PathRun? ==> NewArgv(opts, hasStdin, argv) == opts.args && |opts.args| > 0)
      && (p.ModuleRun? ==> NewArgv(opts, hasStdin, argv)[0] == p.name && PathEntry(opts, hasStdin, cwd, scriptDir) == Some(cwd))
      && (p.PathRun? ==> NewArgv(opts, hasStdin, argv)[0] == p.file && PathEntry(opts, hasStdin, cwd, scriptDir) == Some(scriptDir))
      && (PathEntry(opts, hasStdin, cwd, scriptDir).Some? <==> p.ModuleRun? || p.PathRun? || (!opts.cmd && opts.asModule && p == IndexError))
  {
  }

  /** The program `ahkpy/main.py`'s `run_from_args` chooses. */
  function OlderDispatch(argv: seq<string>, opts: Options): Program
  {
    var args := opts.args;
    if |argv| < 2 then Exits(2)
    else if opts.cmd then (if |args| == 0 then IndexError else Source(args[0]))
    else if opts.asModule then (if |args| == 0 then IndexError else ModuleRun(args[0]))
    else if |args| == 0 then IndexError
    else if args[0] == "-" then StdinSource
    else if args[0] != "" then PathRun(args[0])
    else Exits(0)
  }

  /** The older version reads stdin only after "-", never runs a console, and exits with 0 on an empty name. */
  lemma OlderDispatchVersions(argv: seq<string>, opts: Options, isTty: bool)
    requires |argv| >= 2 && |opts.args| > 0
    ensures var p := OlderDispatch(argv, opts);
      && p != Interactive
      && (p == StdinSource <==> !opts.cmd && !opts.asModule && opts.args[0] == "-")
      && (p == StdinSource ==> Dispatch(opts, true, false) == StdinSource)
      && (!opts.cmd && !opts.asModule && opts.args[0] == "" ==> p == Exits(0) && Dispatch(opts, true, isTty) == Exits(2))
  {
  }

  // ----- the ahk package's own argument parser -----

  /** `(help, quiet, module, file, rest)`. */
  datatype Args = Args(help: bool, quiet: bool, moduleName: Option<string>, file: Option<string>, rest: seq<string>)

  predicate IsHelp(w: string) { w == "-h" || w == "--help" }
  predicate IsQuiet(w: string) { w == "-q" || w == "--quiet" }

  /**
   * `parse_args()` over `sys.argv`: help only as the first word, quiet only
   * as the first word, then "-m MOD" or a file, then the rest in order.
   */
  function ParseArgs(argv: seq<string>): (r: Option<Args>)
    ensures r.Some? ==> |argv| >= 2
    ensures r.Some? && r.value.help ==> r.value == Args(true, false, None, None, []) && IsHelp(argv[1])
    ensures r.Some? && !r.value.help ==> (r.value.moduleName.Some? <==> r.value.file.None?)
    ensures r.Some? ==> (r.value.quiet <==> IsQuiet(argv[1]))
  {
    if |argv| < 2 then None
    else
      var args := argv[1..];
      if IsHelp(args[0]) then Some(Args(true, false, None, None, []))
      else
        var quiet := IsQuiet(args[0]);
        var words := if quiet then args[1..] else args;
        if |words| < 1 then None
        else if words[0] == "-m" then
          if |words| < 2 then None else Some(Args(false, quiet, Some(words[1]), None, words[2..]))
        else Some(Args(false, quiet, None, Some(words[0]), words[1..]))
  }

  /** A command line that `parse_args` reads back as `a`. */
  function Unparse(prog: string, a: Args): seq<string>
    requires a.moduleName.Some? || a.file.Some?
  {
    [prog] + (if a.quiet then ["-q"] else [])
    + (if a.moduleName.Some? then ["-m", a.moduleName.value] else [a.file.value]) + a.rest
  }

  /** The arguments a command line can express: a file name that is not read as an option. */
  predicate Expressible(a: Args)
  {
    && !a.help
    && (a.moduleName.Some? <==> a.file.None?)
    && (a.file.Some? ==> a.file.value != "-m" && (!a.quiet ==> !IsHelp(a.file.value) && !IsQuiet(a.file.value)))
  }

  lemma {:induction false} ParseUnparse(prog: string, a: Args)
    requires Expressible(a)
    ensures ParseArgs(Unparse(prog, a)) == Some(a)
  {
    var argv := Unparse(prog, a);
    var tail := (if a.moduleName.Some? then ["-m", a.moduleName.value] else [a.file.value]) + a.rest;
    var args := (if a.quiet then ["-q"] else []) + tail;
    assert argv == [prog] + args;
    assert argv[1..] == args;
    var words := if a.quiet then args[1..] else args;
    if a.quiet {
      assert args[0] == "-q" && !IsHelp("-q") && IsQuiet("-q");
      assert args[1..] == tail;
    } else {
      assert args[0] == tail[0];
      assert !IsHelp("-m") && !IsQuiet("-m");
    }
    assert words == tail;
    ParseTail(a, tail);
  }

  lemma ParseTail(a: Args, tail: seq<string>)
    requires Expressible(a)
    requires tail == (if a.moduleName.Some? then ["-m", a.moduleName.value] else [a.file.value]) + a.rest
    ensures |tail| >= 1
    ensures a.moduleName.Some? ==> tail[0] == "-m" && |tail| >= 2 && tail[1] == a.moduleName.value && tail[2..] == a.rest
    ensures a.moduleName.None? ==> tail[0] == a.file.value && tail[0] != "-m" && tail[1..] == a.rest
  {
    if a.moduleName.Some? {
      assert tail[2..] == a.rest;
    } else {
      assert tail[1..] == a.rest;
    }
  }

  /** Only "-m" selects a module: the declared "--module" is taken as a file name. */
  lemma LongModuleIsFile(prog: string, m: string)
    ensures ParseArgs([prog, "--module", m]) == Some(Args(false, false, None, Some("--module"), [m]))
    ensures ParseArgs([prog, "-m", m]) == Some(Args(false, false, Some(m), None, []))
    ensures ParseArgs([prog, "-m"]) == None && ParseArgs([prog, "-q"]) == None && ParseArgs([prog]) == None
    ensures ParseArgs([prog, "f", "-q"]) == Some(Args(false, false, None, Some("f"), ["-q"]))
    ensures ParseArgs([prog, "-q", "-h"]) == Some(Args(false, true, None, Some("-h"), []))
  {
    LongModuleFlag(prog, m);
    ShortModuleFlag(prog, m);
    TrailingQuiet(prog);
    QuietThenHelp(prog);
  }

  lemma LongModuleFlag(prog: string, m: string)
    ensures ParseArgs([prog, "--module", m]) == Some(Args(false, false, None, Some("--module"), [m]))
  {
    var words := [prog, "--module", m][1..];
    assert words == ["--module", m];
    assert !IsHelp("--module") && !IsQuiet("--module") && "--module" != "-m";
    assert words[1..] == [m];
  }

  lemma ShortModuleFlag(prog: string, m: string)
    ensures ParseArgs([prog, "-m", m]) == Some(Args(false, false, Some(m), None, []))
  {
    var words := [prog, "-m", m][1..];
    assert words == ["-m", m];
    assert !IsHelp("-m") && !IsQuiet("-m");
    assert words[2..] == [];
  }

  lemma TrailingQuiet(prog: string)
    ensures ParseArgs([prog, "f", "-q"]) == Some(Args(false, false, None, Some("f"), ["-q"]))
  {
    var words := [prog, "f", "-q"][1..];
    assert words == ["f", "-q"];
    assert !IsHelp("f") && !IsQuiet("f") && "f" != "-m";
    assert words[1..] == ["-q"];
  }

  lemma QuietThenHelp(prog: string)
    ensures ParseArgs([prog, "-q", "-h"]) == Some(Args(false, true, None, Some("-h"), []))
  {
    var args := [prog, "-q", "-h"][1..];
    assert args == ["-q", "-h"];
    assert !IsHelp("-q") && IsQuiet("-q");
    var words := args[1..];
    assert words == ["-h"];
    assert "-h" != "-m";
    assert words[1..] == [];
  }

  /** The program the `ahk` package's `run_from_args` chooses. */
  function LegacyDispatch(a: Option<Args>): Program
  {
    if a.None? then Exits(2)
    else if a.value.help then Exits(0)
    else if a.value.moduleName.Some? && a.value.moduleName.value != "" then ModuleRun(a.value.moduleName.value)
    else if a.value.file == Some("-") then StdinSource
    else if a.value.file.Some? && a.value.file.value != "" then PathRun(a.value.file.value)
    else Exits(0)
  }

  /** Every expressible command line runs what it names. */
  lemma LegacyRunsWhatItNames(prog: string, a: Args)
    requires Expressible(a)
    ensures var p := LegacyDispatch(ParseArgs(Unparse(prog, a)));
      && (a.moduleName.Some? && a.moduleName.value != "" ==> p == ModuleRun(a.moduleName.value))
      && (a.file == Some("-") ==> p == StdinSource)
      && (a.file.Some? && a.file.value != "" && a.file.value != "-" ==> p == PathRun(a.file.value))
  {
    ParseUnparse(prog, a);
  }
}
