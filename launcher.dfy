/**
 * The `py -m ahkpy` launcher: which AutoHotkey executable it starts, how
 * it picks the build matching the interpreter's architecture, how it
 * relaunches AutoHotkey on request and which status it exits with.
 *
 * Paths are Windows paths whose components are separated by a single
 * backslash.
 */
module Launcher {

  import opened Base
  import opened Text

  /** The default install location. */
  const DefaultAhk := "C:\\Program Files\\AutoHotkey\\AutoHotkey.exe"

  /** AutoHotkey exits with this code to ask to be started again. */
  const Restart := 65530

  const TwoTo32 := 0x1_0000_0000
  const TwoTo31 := 0x8000_0000

  /** The position of the last `c` in `s`. */
  function LastIndex(s: string, c: char): (r: Option<nat>)
    ensures r.Some? ==> r.value < |s| && s[r.value] == c && forall j :: r.value < j < |s| ==> s[j] != c
    ensures r.None? ==> forall j :: 0 <= j < |s| ==> s[j] != c
  {
    if |s| == 0 then None
    else if s[|s| - 1] == c then Some(|s| - 1)
    else LastIndex(s[..|s| - 1], c)
  }

  lemma {:induction false} LastIndexAfter(a: string, b: string, c: char)
    requires forall j :: 0 <= j < |b| ==> b[j] != c
    ensures LastIndex(a + [c] + b, c) == Some(|a|)
  {
    var s := a + [c] + b;
    if |b| == 0 {
      assert s[|s| - 1] == c;
    } else {
      var b' := b[..|b| - 1];
      assert s[|s| - 1] == b[|b| - 1];
      assert s[..|s| - 1] == a + [c] + b';
      LastIndexAfter(a, b', c);
    }
  }

  /** `Path(p).name`: the last component. */
  function Name(p: string): string
  {
    var k := LastIndex(p, '\\');
    if k.None? then p else p[k.value + 1..]
  }

  /** `str(Path(p).parent)`: the path up to the last separator, "." for a bare name. */
  function Parent(p: string): string
  {
    var k := LastIndex(p, '\\');
    if k.None? then "." else p[..k.value]
  }

  lemma NameOfJoin(dir: string, name: string)
    requires forall j :: 0 <= j < |name| ==> name[j] != '\\'
    ensures Name(dir + "\\" + name) == name && Parent(dir + "\\" + name) == dir
  {
    LastIndexAfter(dir, name, '\\');
    var s := dir + "\\" + name;
    assert s[|dir| + 1..] == name;
    assert s[..|dir|] == dir;
  }

  lemma NameHasNoSeparator(p: string)
    ensures forall j :: 0 <= j < |Name(p)| ==> Name(p)[j] != '\\'
  {
  }

  /**
   * `get_ahk_exe_path`: a non-empty AUTOHOTKEY environment value, else
   * the executable associated with .ahk files when its name starts with
   * "autohotkey" (in any case), else the default location.
   */
  function ExePath(env: string, assoc: string): (r: string)
    ensures env != "" ==> r == env
    ensures env == "" && assoc != "" && StartsWith(Lower(Name(assoc)), "autohotkey") ==> r == assoc
    ensures env == "" && !(assoc != "" && StartsWith(Lower(Name(assoc)), "autohotkey")) ==> r == DefaultAhk
  {
    if env != "" then env
    else if assoc != "" && StartsWith(Lower(Name(assoc)), "autohotkey") then assoc
    else DefaultAhk
  }

  /** The executable path is never empty, and without the environment variable it is named after AutoHotkey. */
  lemma ExePathNamed(env: string, assoc: string)
    ensures ExePath(env, assoc) != ""
    ensures env == "" ==> StartsWith(Lower(Name(ExePath(env, assoc))), "autohotkey")
  {
    if env == "" && !(assoc != "" && StartsWith(Lower(Name(assoc)), "autohotkey")) {
      assert ExePath(env, assoc) == DefaultAhk;
      DefaultAhkNamed();
    }
  }

  lemma DefaultAhkNamed()
    ensures DefaultAhk != "" && StartsWith(Lower(Name(DefaultAhk)), "autohotkey")
  {
    DefaultAhkParts();
    LowerAutoHotkey();
    AhkExeSlices();
  }

  lemma DefaultAhkParts()
    ensures Name(DefaultAhk) == "AutoHotkey.exe"
    ensures Parent(DefaultAhk) == "C:\\Program Files\\AutoHotkey"
  {
    assert DefaultAhk == "C:\\Program Files\\AutoHotkey" + "\\" + "AutoHotkey.exe";
    NameOfJoin("C:\\Program Files\\AutoHotkey", "AutoHotkey.exe");
  }

  lemma LowerAutoHotkey()
    ensures Lower("AutoHotkey.exe") == "autohotkey.exe"
  {
    var l := Lower("AutoHotkey.exe");
    assert l[0] == 'a' && l[4] == 'h';
  }

  /** `get_ahk_by_assoc() or AHK` of `ahkpy/launcher.py`: no environment variable, no name check. */
  function OlderExePath(assoc: string): (r: string)
    ensures r != ""
    ensures assoc != "" ==> r == assoc
  {
    if assoc != "" then assoc else DefaultAhk
  }

  /**
   * `fix_ahk_platform`: a path to "autohotkey.exe" (in any case) is
   * rewritten to the Unicode build of the given word size in the same
   * directory, `<stem>U<arch><suffix>`; any other path is kept.
   */
  function FixPlatform(p: string, arch: nat): string
  {
    var name := Name(p);
    if Lower(name) == "autohotkey.exe" then Parent(p) + "\\" + BuildName(name, arch)
    else p
  }

  /** `stem + "U" + arch + suffix` for a name whose stem is its first ten characters. */
  function BuildName(name: string, arch: nat): string
    requires |name| >= 10
  {
    name[..10] + "U" + NatStr(arch) + name[10..]
  }

  /** The rewritten path lies in the same directory and names the build, keeping the case of the original name. */
  lemma FixPlatformRenames(p: string, arch: nat)
    requires Lower(Name(p)) == "autohotkey.exe"
    ensures Parent(FixPlatform(p, arch)) == Parent(p)
    ensures Name(FixPlatform(p, arch)) == Name(p)[..10] + "U" + NatStr(arch) + Name(p)[10..]
    ensures Lower(Name(FixPlatform(p, arch))) == "autohotkeyu" + NatStr(arch) + ".exe"
  {
    var name := Name(p);
    assert |name| == 14;
    var newName := BuildName(name, arch);
    assert FixPlatform(p, arch) == Parent(p) + "\\" + newName;
    NameHasNoSeparator(p);
    BuildNameHasNoSeparator(name, arch);
    NameOfJoin(Parent(p), newName);
    BuildNameLower(name, arch);
  }

  lemma BuildNameHasNoSeparator(name: string, arch: nat)
    requires |name| >= 10 && forall j :: 0 <= j < |name| ==> name[j] != '\\'
    ensures var n := BuildName(name, arch);
      forall j :: 0 <= j < |n| ==> n[j] != '\\'
  {
    var d := NatStr(arch);
    var n := name[..10] + "U" + d + name[10..];
    forall j | 0 <= j < |n|
      ensures n[j] != '\\'
    {
      if 11 <= j < 11 + |d| {
        assert n[j] == d[j - 11] && IsDigit(d[j - 11]);
      }
    }
  }

  lemma LowerConcat(a: string, b: string)
    ensures Lower(a + b) == Lower(a) + Lower(b)
  {
  }

  lemma BuildNameLower(name: string, arch: nat)
    requires Lower(name) == "autohotkey.exe"
    ensures |name| == 14 && Lower(BuildName(name, arch)) == "autohotkeyu" + NatStr(arch) + ".exe"
  {
    var d := NatStr(arch);
    LowerSlices(name, 10);
    AhkExeSlices();
    LowerConcat4(name[..10], "U", d, name[10..]);
    assert Lower("U") == "u";
    DigitsLower(d);
    BuildLiteral(d);
  }

  lemma LowerSlices(s: string, k: nat)
    requires k <= |s|
    ensures Lower(s[..k]) == Lower(s)[..k] && Lower(s[k..]) == Lower(s)[k..]
  {
  }

  lemma AhkExeSlices()
    ensures "autohotkey.exe"[..10] == "autohotkey" && "autohotkey.exe"[10..] == ".exe"
  {
  }

  lemma LowerConcat4(a: string, b: string, c: string, d: string)
    ensures Lower(a + b + c + d) == Lower(a) + Lower(b) + Lower(c) + Lower(d)
  {
    LowerConcat(a, b);
    LowerConcat(a + b, c);
    LowerConcat(a + b + c, d);
  }

  lemma BuildLiteral(d: string)
    ensures "autohotkey" + "u" + d + ".exe" == "autohotkeyu" + d + ".exe"
  {
    assert "autohotkey" + "u" == "autohotkeyu";
  }

  lemma DigitsLower(s: string)
    requires AllDigits(s)
    ensures Lower(s) == s
  {
  }

  /** Rewriting twice changes nothing more: the new name is no longer "autohotkey.exe". */
  lemma FixPlatformIdempotent(p: string, arch: nat)
    ensures FixPlatform(FixPlatform(p, arch), arch) == FixPlatform(p, arch)
  {
    if Lower(Name(p)) == "autohotkey.exe" {
      FixPlatformRenames(p, arch);
      BuildNotAhkExe(NatStr(arch));
    }
  }

  lemma BuildNotAhkExe(d: string)
    ensures "autohotkeyu" + d + ".exe" != "autohotkey.exe"
  {
    var n := "autohotkeyu" + d + ".exe";
    assert n[10] == 'u';
    assert "autohotkey.exe"[10] == '.';
  }

  /** The default install location becomes the 64-bit build beside it. */
  lemma DefaultAhkBuild()
    ensures FixPlatform(DefaultAhk, 64) == "C:\\Program Files\\AutoHotkey\\AutoHotkeyU64.exe"
  {
    DefaultAhkParts();
    LowerAutoHotkey();
    assert FixPlatform(DefaultAhk, 64) == "C:\\Program Files\\AutoHotkey" + "\\" + BuildName("AutoHotkey.exe", 64);
    DefaultBuildName();
    DefaultBuildPath();
  }

  lemma DefaultBuildName()
    ensures BuildName("AutoHotkey.exe", 64) == "AutoHotkeyU64.exe"
  {
    assert NatStr(64) == "64";
    assert "AutoHotkey.exe"[..10] == "AutoHotkey" && "AutoHotkey.exe"[10..] == ".exe";
  }

  lemma DefaultBuildPath()
    ensures "C:\\Program Files\\AutoHotkey" + "\\" + "AutoHotkeyU64.exe" == "C:\\Program Files\\AutoHotkey\\AutoHotkeyU64.exe"
  {
  }

  /** A path already naming a build is kept. */
  lemma BuildPathKept()
    ensures FixPlatform("D:\\AHK\\AutoHotkeyU64.exe", 64) == "D:\\AHK\\AutoHotkeyU64.exe"
  {
    NameOfJoin("D:\\AHK", "AutoHotkeyU64.exe");
    assert "D:\\AHK\\AutoHotkeyU64.exe" == "D:\\AHK" + "\\" + "AutoHotkeyU64.exe";
  }

  /** `ctypes.c_int32(code).value`: the low 32 bits, read as two's complement. */
  function Int32Of(code: int): (r: int)
    ensures -TwoTo31 <= r < TwoTo31
    ensures (r - code) % TwoTo32 == 0
  {
    var low := code % TwoTo32;
    if low >= TwoTo31 then low - TwoTo32 else low
  }

  /** The unsigned 32-bit reading of a status. */
  function Unsigned(status: int): int { status % TwoTo32 }

  /** Reinterpreting loses nothing: a 32-bit return code is recovered, and a status in range is kept. */
  lemma Int32RoundTrip(code: int, status: int)
    ensures 0 <= code < TwoTo32 ==> Unsigned(Int32Of(code)) == code
    ensures -TwoTo31 <= status < TwoTo31 ==> Int32Of(status) == status
    ensures 0 <= code < TwoTo31 ==> Int32Of(code) == code
    ensures Int32Of(0xC000013A) == -1073741510 && Int32Of(0xFFFF_FFFF) == -1
  {
  }

  /** How the launcher ends: with an exit status, or still waiting on AutoHotkey. */
  datatype Outcome = Exited(status: int) | Running

  /** The first return code that is not a restart request, if any. */
  function FirstExit(codes: seq<int>): (r: Option<nat>)
    ensures r.Some? ==> r.value < |codes| && codes[r.value] != Restart
    ensures r.Some? ==> forall j :: 0 <= j < r.value ==> codes[j] == Restart
    ensures r.None? ==> forall j :: 0 <= j < |codes| ==> codes[j] == Restart
  {
    if |codes| == 0 then None
    else if codes[0] != Restart then Some(0)
    else
      var r := FirstExit(codes[1..]);
      if r.None? then None else Some(r.value + 1)
  }

  function Repeat(c: Call, n: nat): (r: seq<Call>)
    ensures |r| == n && forall j :: 0 <= j < n ==> r[j] == c
  {
    if n == 0 then [] else Repeat(c, n - 1) + [c]
  }

  /** `[ahk_exe_path, python_ahk_path] + sys.argv[1:]`: the program's own name is dropped. */
  function LaunchArgs(exe: string, script: string, argv: seq<string>): (r: seq<Value>)
    ensures |argv| > 0 ==> |r| == |argv| + 1
    ensures |argv| == 0 ==> r == [S(exe), S(script)]
    ensures r[..2] == [S(exe), S(script)] && forall j :: 2 <= j < |r| ==> r[j] == S(argv[j - 1])
  {
    [S(exe), S(script)] + seq(|argv| - (if |argv| > 0 then 1 else 0), j requires 0 <= j < |argv| - (if |argv| > 0 then 1 else 0) => S(argv[j + 1]))
  }

  /**
   * The loop of `main`. `codes` are the return codes of the successive
   * AutoHotkey runs; the child is started again exactly while it returns
   * the restart code, each time with the same arguments, built once from
   * the executable, the script and `argv`. `signed` selects the current
   * version, which exits with the 32-bit signed reading of the code;
   * `ahkpy/launcher.py` exits with the code as it is.
   */
  method Supervise(host: Host, exe: string, script: string, argv: seq<string>, codes: seq<int>, signed: bool)
    returns (r: Outcome, launches: nat)
    modifies host
    ensures FirstExit(codes).Some? ==>
      && launches == FirstExit(codes).value + 1
      && r == Exited(if signed then Int32Of(codes[launches - 1]) else codes[launches - 1])
    ensures FirstExit(codes).None? ==> launches == |codes| && r == Running
    ensures host.log == old(host.log) + Repeat(Call("Popen", LaunchArgs(exe, script, argv)), launches)
  {
    var args := LaunchArgs(exe, script, argv);
    var i := 0;
    while i < |codes|
      invariant 0 <= i <= |codes|
      invariant forall j :: 0 <= j < i ==> codes[j] == Restart
      invariant host.log == old(host.log) + Repeat(Call("Popen", args), i)
    {
      host.Emit(Call("Popen", args));
      if codes[i] != Restart {
        FirstExitAt(codes, i);
        r := Exited(if signed then Int32Of(codes[i]) else codes[i]);
        return r, i + 1;
      }
      i := i + 1;
    }
    r := Running;
    return r, i;
  }

  lemma FirstExitAt(codes: seq<int>, i: nat)
    requires i < |codes| && codes[i] != Restart
    requires forall j :: 0 <= j < i ==> codes[j] == Restart
    ensures FirstExit(codes) == Some(i)
  {
  }
}
