/**
 * The effect of the command-line options on the program's mode flags
 * (the getopt loop of main in src/main.c). Options arrive already split by
 * getopt; each one updates the flags, except -v, -h and an unknown option,
 * which end the program with an exit code.
 */
module Options {
  import opened Wrappers
  import opened Buttons
  import opened CStrings
  import opened ProcessName

  /** One option as getopt returns it, with its argument where it takes one. */
  datatype CliOption =
    | Ignored                      // -k, -1
    | Version                      // -v
    | Sudo                         // -s
    | Kill                         // -X
    | PKill                        // -Z
    | PcQuit                       // -P
    | Hotkey(name: string)         // -H
    | DumpConfig                   // -d
    | GamePrefix(prefix: string)   // -g
    | ConfigFile(path: string)     // -c
    | Xbox                         // -x
    | DefaultControl(name: string) // -p
    | Help                         // -h, or '?' for an unknown option

  /** The globals and locals of main that the options set. */
  datatype Flags = Flags(
    configMode: bool,
    xbox360Mode: bool,
    wantKill: bool,
    wantSudo: bool,
    wantPcQuit: bool,
    dumpConfig: bool,
    hotkey: Option<Gbtn>,
    gamePrefix: string,
    defaultControl: string,
    configFiles: seq<string>)

  /** Either parsing goes on with these flags, or main returns this code. */
  datatype Outcome = Continue(flags: Flags) | Exit(code: int)

  /** The effect of one option; hotkeys is the button-name table find_button searches. */
  function ApplyOption(f: Flags, o: CliOption, hotkeys: map<string, Gbtn>): Outcome
  {
    match o
    case Ignored => Continue(f)
    case Version => Exit(0)
    case Sudo => Continue(f.(wantSudo := true))
    case Kill => Continue(f.(wantKill := true))
    case PKill => Continue(f.(wantKill := false))
    case PcQuit => Continue(f.(wantPcQuit := true))
    case Hotkey(name) => Continue(if name in hotkeys then f.(hotkey := Some(hotkeys[name])) else f)
    case DumpConfig => Continue(f.(dumpConfig := true))
    case GamePrefix(prefix) => Continue(f.(gamePrefix := Truncate(prefix, MaxProcessName - 1)))
    case ConfigFile(path) =>
      Continue(f.(configFiles := f.configFiles + [path], configMode := true, xbox360Mode := false))
    case Xbox => Continue(f.(configMode := false, xbox360Mode := true))
    case DefaultControl(name) => Continue(f.(defaultControl := name))
    case Help => Exit(1)
  }

  /** The options applied left to right, stopping at the first exit. */
  function ApplyOptions(f: Flags, opts: seq<CliOption>, hotkeys: map<string, Gbtn>): Outcome
    decreases |opts|
  {
    if opts == [] then Continue(f)
    else
      match ApplyOption(f, opts[0], hotkeys)
      case Exit(code) => Exit(code)
      case Continue(g) => ApplyOptions(g, opts[1..], hotkeys)
  }

  predicate IsModeOption(o: CliOption) { o.ConfigFile? || o.Xbox? }

  predicate IsKillOption(o: CliOption) { o.Kill? || o.PKill? }

  predicate IsExitOption(o: CliOption) { o.Version? || o.Help? }

  /** The last option satisfying p, if any. */
  function LastOf(opts: seq<CliOption>, p: CliOption -> bool): Option<CliOption>
  {
    if opts == [] then None
    else
      var rest := LastOf(opts[1..], p);
      if rest.Some? then rest else if p(opts[0]) then Some(opts[0]) else None
  }

  /** What one option does to the mode, kill and config-file flags, and when it exits. */
  lemma ApplyOptionEffect(f: Flags, o: CliOption, hotkeys: map<string, Gbtn>)
    ensures ApplyOption(f, o, hotkeys).Exit? <==> IsExitOption(o)
    ensures ApplyOption(f, o, hotkeys).Continue? ==>
      var g := ApplyOption(f, o, hotkeys).flags;
      && (if IsModeOption(o) then g.configMode == o.ConfigFile? && g.xbox360Mode == o.Xbox?
          else g.configMode == f.configMode && g.xbox360Mode == f.xbox360Mode)
      && (if IsKillOption(o) then g.wantKill == o.Kill? else g.wantKill == f.wantKill)
      && g.configFiles == f.configFiles + (if o.ConfigFile? then [o.path] else [])
  {
  }

  /** One step of the fold. */
  lemma ApplyOptionsStep(f: Flags, opts: seq<CliOption>, hotkeys: map<string, Gbtn>)
    requires opts != [] && ApplyOption(f, opts[0], hotkeys).Continue?
    ensures ApplyOptions(f, opts, hotkeys) == ApplyOptions(ApplyOption(f, opts[0], hotkeys).flags, opts[1..], hotkeys)
  {
  }

  /**
   * Of -c and -x the last one given decides the mode: -c leaves only config
   * mode on, -x only xbox360 mode; with neither, the modes are as before.
   */
  lemma {:induction false} LastModeOptionWins(f: Flags, opts: seq<CliOption>, hotkeys: map<string, Gbtn>)
    requires ApplyOptions(f, opts, hotkeys).Continue?
    ensures var g := ApplyOptions(f, opts, hotkeys).flags;
      match LastOf(opts, IsModeOption)
      case None => g.configMode == f.configMode && g.xbox360Mode == f.xbox360Mode
      case Some(o) => g.configMode == o.ConfigFile? && g.xbox360Mode == o.Xbox?
    decreases |opts|
  {
    if opts != [] {
      ApplyOptionEffect(f, opts[0], hotkeys);
      ApplyOptionsStep(f, opts, hotkeys);
      var g := ApplyOption(f, opts[0], hotkeys).flags;
      LastModeOptionWins(g, opts[1..], hotkeys);
    }
  }

  /** Config mode and xbox360 mode are never both on after the options, if they were not before. */
  lemma ModesExclusive(f: Flags, opts: seq<CliOption>, hotkeys: map<string, Gbtn>)
    requires !(f.configMode && f.xbox360Mode)
    requires ApplyOptions(f, opts, hotkeys).Continue?
    ensures var g := ApplyOptions(f, opts, hotkeys).flags; !(g.configMode && g.xbox360Mode)
  {
    LastModeOptionWins(f, opts, hotkeys);
  }

  /** Of -X and -Z the last one given decides want_kill: -X sets it, -Z clears it. */
  lemma {:induction false} LastKillOptionWins(f: Flags, opts: seq<CliOption>, hotkeys: map<string, Gbtn>)
    requires ApplyOptions(f, opts, hotkeys).Continue?
    ensures var g := ApplyOptions(f, opts, hotkeys).flags;
      match LastOf(opts, IsKillOption)
      case None => g.wantKill == f.wantKill
      case Some(o) => g.wantKill == o.Kill?
    decreases |opts|
  {
    if opts != [] {
      ApplyOptionEffect(f, opts[0], hotkeys);
      ApplyOptionsStep(f, opts, hotkeys);
      var g := ApplyOption(f, opts[0], hotkeys).flags;
      LastKillOptionWins(g, opts[1..], hotkeys);
    }
  }

  /** Parsing ends with an exit code exactly when -v, -h or an unknown option is among the options. */
  lemma {:induction false} ExitIffExitOption(f: Flags, opts: seq<CliOption>, hotkeys: map<string, Gbtn>)
    ensures ApplyOptions(f, opts, hotkeys).Exit? <==> exists i :: 0 <= i < |opts| && IsExitOption(opts[i])
    decreases |opts|
  {
    if opts != [] {
      match ApplyOption(f, opts[0], hotkeys)
      case Exit(_) =>
        assert IsExitOption(opts[0]);
      case Continue(g) =>
        ExitIffExitOption(g, opts[1..], hotkeys);
        if exists i :: 0 <= i < |opts| && IsExitOption(opts[i]) {
          var i :| 0 <= i < |opts| && IsExitOption(opts[i]);
          assert i > 0 && opts[1..][i - 1] == opts[i];
        }
        if exists i :: 0 <= i < |opts[1..]| && IsExitOption(opts[1..][i]) {
          var i :| 0 <= i < |opts[1..]| && IsExitOption(opts[1..][i]);
          assert opts[i + 1] == opts[1..][i];
        }
    }
  }

  /** Every -c file is loaded, in the order given. */
  lemma {:induction false} ConfigFilesInOrder(f: Flags, opts: seq<CliOption>, hotkeys: map<string, Gbtn>)
    requires ApplyOptions(f, opts, hotkeys).Continue?
    ensures ApplyOptions(f, opts, hotkeys).flags.configFiles == f.configFiles + ConfigPaths(opts)
    decreases |opts|
  {
    if opts != [] {
      ApplyOptionEffect(f, opts[0], hotkeys);
      ApplyOptionsStep(f, opts, hotkeys);
      var g := ApplyOption(f, opts[0], hotkeys).flags;
      ConfigFilesInOrder(g, opts[1..], hotkeys);
    }
  }

  /** The arguments of the -c options, in order. */
  function ConfigPaths(opts: seq<CliOption>): seq<string>
  {
    if opts == [] then []
    else (if opts[0].ConfigFile? then [opts[0].path] else []) + ConfigPaths(opts[1..])
  }

  /** The getopt loop: apply the options in order, returning at -v, -h or an unknown option. */
  method ParseOptions(init: Flags, opts: seq<CliOption>, hotkeys: map<string, Gbtn>) returns (out: Outcome)
    ensures out == ApplyOptions(init, opts, hotkeys)
  {
    var f := init;
    var i := 0;
    while i < |opts|
      invariant 0 <= i <= |opts|
      invariant ApplyOptions(init, opts, hotkeys) == ApplyOptions(f, opts[i..], hotkeys)
    {
      assert opts[i..][1..] == opts[i + 1..];
      ghost var before := f;
      match opts[i] {
        case Ignored =>
        case Version => return Exit(0);
        case Sudo =>
          if !f.wantSudo { f := f.(wantSudo := true); }
        case Kill =>
          if !f.wantKill { f := f.(wantKill := true); }
        case PKill =>
          if f.wantKill { f := f.(wantKill := false); }
        case PcQuit =>
          if !f.wantPcQuit { f := f.(wantPcQuit := true); }
        case Hotkey(name) =>
          if name in hotkeys { f := f.(hotkey := Some(hotkeys[name])); }
        case DumpConfig => f := f.(dumpConfig := true);
        case GamePrefix(prefix) => f := f.(gamePrefix := Truncate(prefix, MaxProcessName - 1));
        case ConfigFile(path) =>
          f := f.(configFiles := f.configFiles + [path]);
          f := f.(configMode := true, xbox360Mode := false);
        case Xbox => f := f.(configMode := false, xbox360Mode := true);
        case DefaultControl(name) => f := f.(defaultControl := name);
        case Help => return Exit(1);
      }
      assert ApplyOption(before, opts[i], hotkeys) == Continue(f);
      i := i + 1;
    }
    out := Continue(f);
  }
}
