/**
 * The logger (`Scribe`): where one `write` call goes (console, log file or
 * both), the colour it is printed in, and the log file's own error and
 * warning messages, which never reach the log again.
 */
module Logging {
  import opened Wrappers
  import opened Text

  const DefaultModifiers: string := "c"
  const DefaultColor: string := "default"

  /** The ANSI escape code printed before a message of each colour. */
  const ColorCodes: map<string, string> := map[
    "purple" := "\U{1b}[95m",
    "cyan" := "\U{1b}[96m",
    "darkcyan" := "\U{1b}[36m",
    "blue" := "\U{1b}[94m",
    "green" := "\U{1b}[92m",
    "yellow" := "\U{1b}[93m",
    "red" := "\U{1b}[91m",
    "default" := "\U{1b}[0m"
  ]

  const LogWriteError: string := "[Scribe] Error writing to log file:\n[Scribe] "
  const LogUnsetWarning: string := "[Scribe] Warning: Log directory or file name not set!"
  const LogDirError: string := "[Scribe] Error creating log directory:\n[Scribe] "

  /** The decision `write` takes for one call. */
  datatype Routing = Routing(toConsole: bool, toLog: bool, color: string)

  /**
   * `write`'s decision.  Omitted or empty modifiers and colour fall back to
   * the logger's defaults; verbose mode sends everything to both sinks unless
   * the modifiers contain "-v"; otherwise "c" selects the console and "l" the
   * log file.
   */
  function Route(verbose: bool, defaultModifiers: string, defaultColor: string,
                 modifiers: Option<string>, colorName: Option<string>): (r: Routing)
    ensures r.color == OrElse(colorName, defaultColor)
    ensures !verbose ==> (r.toConsole <==> Contains(OrElse(modifiers, defaultModifiers), "c"))
    ensures !verbose ==> (r.toLog <==> Contains(OrElse(modifiers, defaultModifiers), "l"))
  {
    var m := OrElse(modifiers, defaultModifiers);
    var c := OrElse(colorName, defaultColor);
    if verbose && !Contains(m, "-v") then Routing(true, true, c)
    else Routing(Contains(m, "c"), Contains(m, "l"), c)
  }

  /** In verbose mode a call without "-v" reaches both sinks, whatever its other modifiers. */
  lemma RouteVerboseReachesBoth(defaultModifiers: string, defaultColor: string,
                                modifiers: Option<string>, colorName: Option<string>)
    requires !Contains(OrElse(modifiers, defaultModifiers), "-v")
    ensures Route(true, defaultModifiers, defaultColor, modifiers, colorName).toConsole
    ensures Route(true, defaultModifiers, defaultColor, modifiers, colorName).toLog
  {
  }

  /** With "-v" in the modifiers a call is routed as if verbose mode were off: "c" selects the console, "l" the log. */
  lemma RouteIgnoresVerbose(defaultModifiers: string, defaultColor: string,
                            modifiers: Option<string>, colorName: Option<string>)
    requires Contains(OrElse(modifiers, defaultModifiers), "-v")
    ensures Route(true, defaultModifiers, defaultColor, modifiers, colorName)
         == Route(false, defaultModifiers, defaultColor, modifiers, colorName)
    ensures Route(true, defaultModifiers, defaultColor, modifiers, colorName).toConsole
            <==> Contains(OrElse(modifiers, defaultModifiers), "c")
    ensures Route(true, defaultModifiers, defaultColor, modifiers, colorName).toLog
            <==> Contains(OrElse(modifiers, defaultModifiers), "l")
  {
  }

  /** The "d" (debug) modifier is heard only in verbose mode, and then by both sinks. */
  lemma {:induction false} RouteDebugOnlyWhenVerbose(verbose: bool, defaultModifiers: string, defaultColor: string,
                                                    colorName: Option<string>)
    ensures Route(verbose, defaultModifiers, defaultColor, Some("d"), colorName).toConsole == verbose
    ensures Route(verbose, defaultModifiers, defaultColor, Some("d"), colorName).toLog == verbose
  {
    ContainsChar("d", 'c');
    ContainsChar("d", 'l');
  }

  /** Omitted and empty modifiers behave like the default "c": console only, or both when verbose. */
  lemma RouteDefaultModifiers(verbose: bool, defaultColor: string, modifiers: Option<string>, colorName: Option<string>)
    requires !Truthy(modifiers)
    ensures Route(verbose, DefaultModifiers, defaultColor, modifiers, colorName).toConsole
    ensures Route(verbose, DefaultModifiers, defaultColor, modifiers, colorName).toLog == verbose
  {
    ContainsChar("c", 'l');
  }

  /**
   * The modifiers of the logger's own messages ("c-v" in `writeLog`, "c-vred"
   * in `setLogDir`) reach the console and never the log file, in any mode:
   * `writeLog` is never re-entered from its own messages.
   */
  lemma OwnMessagesConsoleOnly(verbose: bool, defaultModifiers: string, defaultColor: string,
                               modifiers: string, colorName: Option<string>)
    requires modifiers == "c-v" || modifiers == "c-vred"
    ensures Route(verbose, defaultModifiers, defaultColor, Some(modifiers), colorName).toConsole
    ensures !Route(verbose, defaultModifiers, defaultColor, Some(modifiers), colorName).toLog
  {
    assert Contains(modifiers, "-v") by { assert modifiers[1..][..2] == "-v"; }
    assert Contains(modifiers, "c") by { assert modifiers[..1] == "c"; }
    ContainsChar(modifiers, 'l');
  }

  /**
   * `setLogDir` passes "c-v" "red", which Python concatenates into the one
   * modifier string "c-vred" with no colour: the error is printed in the
   * logger's default colour, not in red.
   */
  lemma SetLogDirErrorUsesDefaultColor(verbose: bool, defaultModifiers: string, defaultColor: string)
    ensures Route(verbose, defaultModifiers, defaultColor, Some("c-v" + "red"), None)
         == Routing(true, false, defaultColor)
  {
    OwnMessagesConsoleOnly(verbose, defaultModifiers, defaultColor, "c-v" + "red", None);
  }

  /** A console line: colour code, message, reset code. */
  function Paint(s: string, colorName: string): string
    requires colorName in ColorCodes
  {
    ColorCodes[colorName] + s + ColorCodes[DefaultColor]
  }

  datatype LogLine = LogLine(path: string, text: string)

  /** The file `writeLog` appends to, `<logDir>/<logName>.txt`, when both are set and non-empty. */
  function LogPath(logDir: Option<string>, logName: Option<string>): (p: Option<string>)
    ensures p.Some? <==> Truthy(logDir) && Truthy(logName)
  {
    if Truthy(logDir) && Truthy(logName) then Some(PathJoin(logDir.value, logName.value) + ".txt") else None
  }

  /** The console lines `writeLog` prints about itself: a warning when no file is set, an error when appending fails. */
  function LogConsoleLines(path: Option<string>, appendError: Option<string>): (lines: seq<string>)
    ensures |lines| <= 1
    ensures lines == [] <==> path.Some? && appendError.None?
  {
    match path
    case None => [Paint(LogUnsetWarning, "yellow")]
    case Some(_) => if appendError.Some? then [Paint(LogWriteError + appendError.value, "red")] else []
  }

  /**
   * The line `writeLog` appends to the file, if it can.  Every `writeLog`
   * leaves exactly one line behind: this one in the file, or its warning or
   * error on the console.
   */
  function LogFileLines(path: Option<string>, s: string, appendError: Option<string>): (lines: seq<LogLine>)
    ensures |lines| + |LogConsoleLines(path, appendError)| == 1
    ensures forall l :: l in lines ==> Some(l.path) == path && |l.text| == |s| + 1 && l.text[..|s|] == s && l.text[|s|] == '\n'
  {
    if path.Some? && appendError.None? then [LogLine(path.value, s + "\n")] else []
  }

  /**
   * The logger.  `console` holds the lines printed and `logFile` the lines
   * appended to log files, in order; both only ever grow.  Appending to the
   * log file and creating its directory are oracles: `appendError` and
   * `mkdirError` are the message of the exception raised, if any.  A
   * `raised` result stands for the KeyError an unknown colour name raises.
   */
  class Scribe {
    var logDir: Option<string>
    var logName: Option<string>
    var verbose: bool
    var outputModifiers: string
    var color: string
    var console: seq<string>
    var logFile: seq<LogLine>

    constructor (defaultLogDir: Option<string>, defaultLogName: Option<string>, verboseEnabled: bool,
                 mkdirError: Option<string>)
      ensures logName == defaultLogName && verbose == verboseEnabled
      ensures outputModifiers == DefaultModifiers && color == DefaultColor && logFile == []
      ensures Truthy(defaultLogDir) && mkdirError.None? ==> logDir == defaultLogDir && console == []
      ensures Truthy(defaultLogDir) && mkdirError.Some? ==>
                logDir == None && console == [Paint(LogDirError + mkdirError.value, DefaultColor)]
      ensures !Truthy(defaultLogDir) ==> logDir == None && console == []
    {
      logDir := None;
      logName := defaultLogName;
      verbose := verboseEnabled;
      outputModifiers := DefaultModifiers;
      color := DefaultColor;
      console := [];
      logFile := [];
      new;
      if Truthy(defaultLogDir) {
        var _ := SetLogDir(defaultLogDir.value, mkdirError);
      }
    }

    /** `write`: route one message to the console, the log file or both. */
    method Write(s: string, modifiers: Option<string>, colorName: Option<string>, appendError: Option<string>)
      returns (raised: bool)
      modifies this
      decreases if Route(verbose, outputModifiers, color, modifiers, colorName).toLog then 1 else 0, 1
      ensures logDir == old(logDir) && logName == old(logName) && verbose == old(verbose)
      ensures outputModifiers == old(outputModifiers) && color == old(color)
      ensures var r := Route(verbose, outputModifiers, color, modifiers, colorName);
              && raised == (r.toConsole && r.color !in ColorCodes)
              && (raised ==> console == old(console) && logFile == old(logFile))
              && (!raised ==>
                    && console == old(console) + (if r.toConsole then [Paint(s, r.color)] else [])
                                 + (if r.toLog then LogConsoleLines(LogPath(logDir, logName), appendError) else [])
                    && logFile == old(logFile)
                                 + (if r.toLog then LogFileLines(LogPath(logDir, logName), s, appendError) else []))
    {
      var m := OrElse(modifiers, outputModifiers);
      var c := OrElse(colorName, color);
      raised := false;
      if verbose && !Contains(m, "-v") {
        raised := WriteConsole(s, c);
        if raised {
          return;
        }
        WriteLog(s, appendError);
      } else {
        if Contains(m, "c") {
          raised := WriteConsole(s, c);
          if raised {
            return;
          }
        }
        if Contains(m, "l") {
          WriteLog(s, appendError);
        }
      }
    }

    /** `writeConsole`: print one line wrapped in the colour's code and the reset code. */
    method WriteConsole(s: string, colorName: string) returns (raised: bool)
      modifies this`console
      ensures raised == (colorName !in ColorCodes)
      ensures console == if raised then old(console) else old(console) + [Paint(s, colorName)]
    {
      raised := colorName !in ColorCodes;
      if !raised {
        console := console + [Paint(s, colorName)];
      }
    }

    /** `writeLog`: append to `<logDir>/<logName>.txt`, or report on the console why it could not. */
    method WriteLog(s: string, appendError: Option<string>)
      modifies this
      decreases 1, 0
      ensures logDir == old(logDir) && logName == old(logName) && verbose == old(verbose)
      ensures outputModifiers == old(outputModifiers) && color == old(color)
      ensures console == old(console) + LogConsoleLines(LogPath(logDir, logName), appendError)
      ensures logFile == old(logFile) + LogFileLines(LogPath(logDir, logName), s, appendError)
    {
      var path := LogPath(logDir, logName);
      if path.Some? {
        if appendError.None? {
          logFile := logFile + [LogLine(path.value, s + "\n")];
        } else {
          OwnMessagesConsoleOnly(verbose, outputModifiers, color, "c-v", Some("red"));
          var _ := Write(LogWriteError + appendError.value, Some("c-v"), Some("red"), None);
        }
      } else {
        OwnMessagesConsoleOnly(verbose, outputModifiers, color, "c-v", Some("yellow"));
        var _ := Write(LogUnsetWarning, Some("c-v"), Some("yellow"), None);
      }
    }

    /**
     * `setLogDir`: the directory is kept only if it could be created;
     * otherwise the error goes to the console in the default colour (see
     * SetLogDirErrorUsesDefaultColor).
     */
    method SetLogDir(logDirPath: string, mkdirError: Option<string>) returns (raised: bool)
      modifies this
      ensures logName == old(logName) && verbose == old(verbose)
      ensures outputModifiers == old(outputModifiers) && color == old(color) && logFile == old(logFile)
      ensures mkdirError.None? ==> !raised && logDir == Some(logDirPath) && console == old(console)
      ensures mkdirError.Some? ==>
                && logDir == old(logDir)
                && raised == (color !in ColorCodes)
                && console == old(console) + (if raised then [] else [Paint(LogDirError + mkdirError.value, color)])
    {
      if mkdirError.None? {
        logDir := Some(logDirPath);
        raised := false;
      } else {
        SetLogDirErrorUsesDefaultColor(verbose, outputModifiers, color);
        raised := Write(LogDirError + mkdirError.value, Some("c-v" + "red"), None, None);
      }
    }
  }
}
