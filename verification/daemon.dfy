/** The set-up part of the pwm-fancontrol daemon's `main`: the option
    switch, the file lists built by prepending, the check that both lists
    are non-empty, and the seeding of the last written duty from the first
    PWM file. */
module Daemon {
  import opened Outcomes
  import opened Thermal

  /** An option as getopt hands it to the switch: `-d`, `-v`, `-i file`,
      `-p file`, `-t file`, or anything getopt reports as unknown. */
  datatype Opt =
    | DaemonFlag
    | VerboseFlag
    | PidFile(path: string)
    | PwmFile(path: string)
    | TempFile(path: string)
    | Unrecognized

  /** What the option switch collects. The file lists are in list order:
      the head is the most recently added file. */
  datatype Config = Config(
    daemon: bool,
    verbose: bool,
    lockFile: Option<string>,
    pwmFiles: seq<string>,
    tempFiles: seq<string>)

  /** How `main` gets as far as the loop: it exits with a status, or it
      enters the loop with a configuration and a seeded last duty. */
  datatype Launch = Exit(code: int) | Running(config: Config, fanPwm: int)

  /** stringlist_add: the new item becomes the head of the list. */
  function StringListAdd(list: seq<string>, item: string): (r: seq<string>)
    ensures |r| == |list| + 1 && r[0] == item && r[1..] == list
  {
    [item] + list
  }

  function Reverse<T>(s: seq<T>): (r: seq<T>)
    ensures |r| == |s|
    ensures forall i :: 0 <= i < |s| ==> r[i] == s[|s| - 1 - i]
  {
    if s == [] then [] else [s[|s| - 1]] + Reverse(s[..|s| - 1])
  }

  /** The `-p` arguments in command-line order. */
  function PwmArgs(opts: seq<Opt>): (ps: seq<string>)
    ensures |ps| <= |opts|
  {
    if opts == [] then []
    else
      var last := opts[|opts| - 1];
      PwmArgs(opts[..|opts| - 1]) + if last.PwmFile? then [last.path] else []
  }

  /** The `-t` arguments in command-line order. */
  function TempArgs(opts: seq<Opt>): (ts: seq<string>)
    ensures |ts| <= |opts|
  {
    if opts == [] then []
    else
      var last := opts[|opts| - 1];
      TempArgs(opts[..|opts| - 1]) + if last.TempFile? then [last.path] else []
  }

  /** One case of the option switch; None is the `default` case, which
      prints the usage text and makes `main` return 1. */
  function ApplyOpt(c: Config, o: Opt): Option<Config> {
    match o
    case DaemonFlag => Some(c.(daemon := true))
    case VerboseFlag => Some(c.(verbose := true))
    case PidFile(p) => Some(c.(lockFile := Some(p)))
    case PwmFile(p) => Some(c.(pwmFiles := StringListAdd(c.pwmFiles, p)))
    case TempFile(p) => Some(c.(tempFiles := StringListAdd(c.tempFiles, p)))
    case Unrecognized => None
  }

  /** The getopt loop of `main`. It fails exactly when an unknown option
      occurs; otherwise each file list holds its arguments in reverse
      command-line order, because every file is prepended. */
  function ParseOptions(opts: seq<Opt>): (r: Option<Config>)
    ensures r.Some? <==> Unrecognized !in opts
    ensures r.Some? ==> r.value.pwmFiles == Reverse(PwmArgs(opts))
    ensures r.Some? ==> r.value.tempFiles == Reverse(TempArgs(opts))
  {
    if opts == [] then Some(Config(false, false, None, [], []))
    else
      var earlier, o := opts[..|opts| - 1], opts[|opts| - 1];
      assert opts == earlier + [o];
      match ParseOptions(earlier)
      case None => None
      case Some(c) =>
        ReverseAppend(PwmArgs(earlier), if o.PwmFile? then [o.path] else []);
        ReverseAppend(TempArgs(earlier), if o.TempFile? then [o.path] else []);
        ApplyOpt(c, o)
  }

  /** Appending at most one element at the end puts it at the front of the
      reversal. */
  lemma ReverseAppend<T>(s: seq<T>, t: seq<T>)
    requires |t| <= 1
    ensures Reverse(s + t) == Reverse(t) + Reverse(s)
  {
  }

  /** The duty `main` assumes before the first iteration: what the first
      PWM file holds, or 0 when it cannot be read. */
  function Seed(r: Reading): (pwm: int)
    ensures r.Read? ==> pwm == r.value
    ensures r.ReadError? ==> pwm == 0
  {
    match r
    case Read(v) => v
    case ReadError => 0
  }

  /** `main` up to the loop. `read` gives the outcome of reading each
      file. Without a `-p` or a `-t` file, or on an unknown option, `main`
      returns 1; otherwise the last duty is seeded from the head of the PWM
      list, which is the last `-p` file given. */
  function Start(opts: seq<Opt>, read: string -> Reading): (l: Launch)
    ensures l.Exit? <==> Unrecognized in opts || PwmArgs(opts) == [] || TempArgs(opts) == []
    ensures l.Exit? ==> l.code == 1
    ensures l.Running? ==> l.fanPwm == Seed(read(PwmArgs(opts)[|PwmArgs(opts)| - 1]))
    ensures l.Running? ==> l.config.pwmFiles == Reverse(PwmArgs(opts)) && l.config.tempFiles == Reverse(TempArgs(opts))
  {
    match ParseOptions(opts)
    case None => Exit(1)
    case Some(c) =>
      if c.pwmFiles == [] || c.tempFiles == [] then Exit(1)
      else Running(c, Seed(read(c.pwmFiles[0])))
  }

  /** When the first PWM file cannot be read the seed is 0, below every
      duty the loop computes, so the first iteration writes every PWM file. */
  lemma FailedSeedForcesFirstWrite(opts: seq<Opt>, read: string -> Reading, readings: seq<Reading>)
    requires Start(opts, read).Running?
    requires read(Start(opts, read).config.pwmFiles[0]) == ReadError
    ensures |Step(readings, Start(opts, read).fanPwm, Start(opts, read).config.pwmFiles).writes|
      == |PwmArgs(opts)|
  {
  }
}
