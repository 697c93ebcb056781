/**
 * Go/src/Programmierwettbewerb-Server/shared/shared.go: the constants the
 * server and the middleware share with the bots, `Max` and `Min`, and the
 * decision part of `log`: whether a message is printed at all, and the
 * padded line number that precedes it.
 */
module GoShared {
  import opened Wrappers

  /** `vector.Vec2`, whose `float32` coordinates are carried as reals. */
  datatype Vec2 = Vec2(x: real, y: real)

  /** `BotActionType` is a `uint8`; its constants are numbered by `iota`. */
  type BotActionType = n: nat | n < 256

  const BatNone: BotActionType := 0
  const BatThrow: BotActionType := 1
  const BatSplit: BotActionType := 2

  /** `BotCommand`: what the middleware forwards to the server. */
  datatype BotCommand = BotCommand(action: BotActionType, target: Vec2)

  /** `LogType` is a Go `int`, 64 bits wide; its bits select the gating flags. */
  type LogType = bv64

  /** `LtAlways` is `iota` (0); `LtVerbose` and `LtDebug` are `1 << iota` (bits 1 and 2). */
  const LtAlways: LogType := 0
  const LtVerbose: LogType := 1 << 1
  const LtDebug: LogType := 1 << 2

  /** The package variables that steer `log`. */
  datatype LogSettings = LogSettings(
    debug: bool, verbose: bool, mute: bool, printLineNumber: bool, prefix: string)

  /** The values the package variables start with. */
  const DefaultSettings: LogSettings := LogSettings(false, false, false, true, "")

  /** `Max`. */
  function Max(a: int, b: int): (m: int)
    ensures m >= a && m >= b && (m == a || m == b)
  {
    if a > b then a else b
  }

  /** `Min`. */
  function Min(a: int, b: int): (m: int)
    ensures m <= a && m <= b && (m == a || m == b)
  {
    if a < b then a else b
  }

  /**
   * The early returns of `log`: nothing is printed when muted, and a
   * non-zero `logType` is dropped when it has the verbose bit and verbose
   * logging is off, or the debug bit and debug logging is off.
   */
  predicate Emits(settings: LogSettings, logType: LogType) {
    if settings.mute then false
    else if logType != 0 && logType & LtVerbose != 0 && !settings.verbose then false
    else if logType != 0 && logType & LtDebug != 0 && !settings.debug then false
    else true
  }

  /** The line number left-padded with spaces to five characters. */
  function Padded(lineString: string): (r: string)
  {
    if |lineString| < 5 then seq(5 - |lineString|, _ => ' ') + lineString else lineString
  }

  /** The padding loop of `log`: prepend a space while the line string is shorter than five characters. */
  method PadLineNumber(lineString: string) returns (r: string)
    ensures r == Padded(lineString)
    ensures |r| == Max(5, |lineString|)
    ensures r[|r| - |lineString|..] == lineString
    ensures forall i :: 0 <= i < |r| - |lineString| ==> r[i] == ' '
  {
    r := lineString;
    while |r| < 5
      invariant |lineString| <= |r| <= Max(5, |lineString|)
      invariant r[|r| - |lineString|..] == lineString
      invariant forall i :: 0 <= i < |r| - |lineString| ==> r[i] == ' '
      decreases 5 - |r|
    {
      r := [' '] + r;
    }
  }

  /**
   * `log`: what it prints before calling `f`, or `None` when it returns
   * `(0, nil)` without printing.  The clock reading and the caller's line
   * number are parameters; `f`'s own output follows the returned text.
   */
  function Log(settings: LogSettings, logType: LogType, stamp: string, lineString: string): (r: Option<string>)
    ensures r.Some? <==> Emits(settings, logType)
  {
    if !Emits(settings, logType) then None
    else
      var prefix := if |settings.prefix| > 0 then settings.prefix + " " else "";
      var line := if settings.printLineNumber then stamp + " Line:" + Padded(lineString) + " |  " else "";
      Some(prefix + line)
  }

  /** Muted, `log` prints nothing whatever the log type. */
  lemma MuteSilences(settings: LogSettings, logType: LogType, stamp: string, lineString: string)
    ensures settings.mute ==> Log(settings, logType, stamp, lineString) == None
  {
  }

  /**
   * The verbose and debug bits are distinct, so a message tagged with both
   * is printed only when both flags are on; `LtAlways` is printed unless
   * muted.
   */
  lemma GatingBits(settings: LogSettings)
    ensures LtVerbose != LtDebug && LtVerbose & LtDebug == 0
    ensures Emits(settings, LtAlways) <==> !settings.mute
    ensures Emits(settings, LtVerbose) <==> !settings.mute && settings.verbose
    ensures Emits(settings, LtDebug) <==> !settings.mute && settings.debug
    ensures Emits(settings, LtDebug | LtVerbose) <==> !settings.mute && settings.debug && settings.verbose
  {
  }

  /** Padding keeps the digits and reaches at least five characters. */
  lemma PaddedShape(lineString: string)
    ensures |Padded(lineString)| == Max(5, |lineString|)
    ensures |lineString| >= 5 ==> Padded(lineString) == lineString
    ensures Padded(lineString)[|Padded(lineString)| - |lineString|..] == lineString
  {
  }
}
