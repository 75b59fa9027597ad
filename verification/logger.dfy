/**
 * The backend's levelled logger (backend/pkg/logger/logger.go): five
 * levels, a configuration applied once, a line format with optional
 * terminal colours, and a gate that drops messages below the configured
 * level. The package-level state (the configuration, the level and the
 * five loggers) is one `Logger` object; what the loggers print is the
 * sequence `written`. The clock and the caller lookup are parameters.
 */
module Logging {
  import opened Wrappers
  import opened Text

  /** `Level` is a Go `int`: any value, of which five are named. */
  type Level = int

  const DEBUG: Level := 0
  const INFO: Level := 1
  const WARN: Level := 2
  const ERROR: Level := 3
  const FATAL: Level := 4

  const ColorReset := "\U{1B}[0m"
  const ColorRed := "\U{1B}[31m"
  const ColorGreen := "\U{1B}[32m"
  const ColorYellow := "\U{1B}[33m"
  const ColorBlue := "\U{1B}[34m"
  const ColorPurple := "\U{1B}[35m"
  const ColorCyan := "\U{1B}[36m"
  const ColorWhite := "\U{1B}[37m"

  const DefaultTimeFormat := "2006-01-02 15:04:05"

  datatype OutputType = ConsoleOutput | FileOutput | BothOutput

  /** Where console output goes: the writer the caller gave, or standard output. */
  datatype Console = Stdout | Given(id: nat)

  datatype Config = Config(level: Level, outputType: OutputType, console: Option<Console>,
                           timeFormat: string, showCaller: bool, enableColor: bool)

  /** `Level.String`. */
  function LevelName(l: Level): (name: string)
    ensures name == "UNKNOWN" <==> !(DEBUG <= l <= FATAL)
  {
    if l == DEBUG then "DEBUG"
    else if l == INFO then "INFO"
    else if l == WARN then "WARN"
    else if l == ERROR then "ERROR"
    else if l == FATAL then "FATAL"
    else "UNKNOWN"
  }

  /** The five named levels have five different names, so a level can be told from its name. */
  lemma LevelNamesDistinct(a: Level, b: Level)
    requires DEBUG <= a <= FATAL && DEBUG <= b <= FATAL && a != b
    ensures LevelName(a) != LevelName(b)
  {
  }

  /** `getLevelColor`: one colour per named level, white for any other value. */
  function LevelColor(l: Level): (c: string)
    ensures c == ColorWhite <==> !(DEBUG <= l <= FATAL)
  {
    if l == DEBUG then ColorBlue
    else if l == INFO then ColorGreen
    else if l == WARN then ColorYellow
    else if l == ERROR then ColorRed
    else if l == FATAL then ColorPurple
    else ColorWhite
  }

  /** The five levels get five different colours, none of them the fallback white. */
  lemma LevelColorsDistinct(a: Level, b: Level)
    requires DEBUG <= a <= FATAL && DEBUG <= b <= FATAL && a != b
    ensures LevelColor(a) != LevelColor(b) && LevelColor(a) != ColorWhite
  {
  }

  /** `getMethodColor`: one colour per common method, white for any other. */
  function MethodColor(verb: string): (c: string)
    ensures c == ColorWhite <==> verb !in {"GET", "POST", "PUT", "DELETE", "PATCH", "OPTIONS"}
    ensures verb == "GET" ==> c == ColorGreen
    ensures verb == "DELETE" ==> c == ColorRed
  {
    if verb == "GET" then ColorGreen
    else if verb == "POST" then ColorBlue
    else if verb == "PUT" then ColorYellow
    else if verb == "DELETE" then ColorRed
    else if verb == "PATCH" then ColorPurple
    else if verb == "OPTIONS" then ColorCyan
    else ColorWhite
  }

  /** The defaults `Init` fills in: the time layout and standard output. */
  function WithDefaults(cfg: Config): (c: Config)
    ensures c.timeFormat != "" && c.console.Some?
    ensures c.level == cfg.level && c.outputType == cfg.outputType && c.enableColor == cfg.enableColor
    ensures cfg.timeFormat != "" ==> c.timeFormat == cfg.timeFormat
    ensures cfg.console.Some? ==> c.console == cfg.console
  {
    cfg.(timeFormat := if cfg.timeFormat == "" then DefaultTimeFormat else cfg.timeFormat,
         console := if cfg.console.None? then Some(Stdout) else cfg.console)
  }

  /**
   * Whether a line is coloured. The source also accepts the both-outputs
   * case when the output equals a multi-writer it builds afresh for the
   * comparison; a fresh writer never equals the stored one, so only the
   * console-only output is coloured.
   */
  predicate Colored(cfg: Config)
  {
    cfg.enableColor && cfg.outputType == ConsoleOutput
  }

  /** `formatMessage`, given the formatted time and the caller's `file:line` if one was found. */
  function FormatMessage(l: Level, message: string, cfg: Config, time: string, site: Option<string>): (line: string)
    ensures HasPrefix(line, "[" + time + "] [")
    ensures !Colored(cfg) ==> HasSuffix(line, " " + message)
    ensures Colored(cfg) ==> HasSuffix(line, " " + LevelColor(l) + message + ColorReset)
  {
    var caller := if cfg.showCaller && site.Some? then " [" + site.value + "]" else "";
    var name := if Colored(cfg) then LevelColor(l) + LevelName(l) + ColorReset else LevelName(l);
    var text := if Colored(cfg) then LevelColor(l) + message + ColorReset else message;
    "[" + time + "] [" + name + "]" + caller + " " + text
  }

  /** Without colour a line is `[<time>] [<LEVEL>]<caller> <message>`, and the message is its tail. */
  lemma FormatShape(l: Level, message: string, cfg: Config, time: string, site: Option<string>)
    requires !Colored(cfg)
    ensures var line := FormatMessage(l, message, cfg, time, site);
      line[..|time| + 4] == "[" + time + "] [" && line[|time| + 4..][..|LevelName(l)|] == LevelName(l)
      && line[|line| - |message|..] == message
  {
    var line := FormatMessage(l, message, cfg, time, site);
    var caller := if cfg.showCaller && site.Some? then " [" + site.value + "]" else "";
    assert line == ("[" + time + "] [") + LevelName(l) + ("]" + caller + " ") + message;
  }

  /** With both outputs, lines carry no colour codes even when colour is enabled. */
  lemma BothOutputUncolored(cfg: Config, l: Level, message: string, time: string, site: Option<string>)
    requires cfg.outputType == BothOutput
    ensures !Colored(cfg)
    ensures FormatMessage(l, message, cfg, time, site) == FormatMessage(l, message, cfg.(enableColor := false), time, site)
  {
  }

  /**
   * The request line the HTTP middleware logs at INFO, without the
   * duration. The package-level middleware colours the bracketed method;
   * the `Logger` method resets first and colours only the name inside the
   * brackets.
   */
  function RequestLine(verb: string, uri: string, status: string, enableColor: bool, packageLevel: bool): (line: string)
    ensures HasSuffix(line, " " + uri + " " + status)
    ensures !enableColor ==> HasPrefix(line, "[" + verb + "] ")
    ensures enableColor && packageLevel ==> HasPrefix(line, MethodColor(verb) + "[" + verb + "]")
    ensures enableColor && !packageLevel ==> HasPrefix(line, ColorReset + "[" + MethodColor(verb) + verb)
  {
    var head :=
      if !enableColor then "[" + verb + "]"
      else if packageLevel then MethodColor(verb) + "[" + verb + "]"
      else ColorReset + "[" + MethodColor(verb) + verb;
    var m :=
      if !enableColor then head
      else if packageLevel then head + ColorReset
      else head + ColorReset + "]";
    var tail := " " + uri + " " + status;
    assert (m + tail)[|m + tail| - |tail|..] == tail;
    assert (m + tail)[..|head|] == head;
    assert !enableColor ==> (m + tail)[..|head| + 1] == head + " ";
    m + tail
  }

  /** Without colour both middlewares log the same line, starting with the bracketed method. */
  lemma RequestLinePlain(verb: string, uri: string, status: string)
    ensures RequestLine(verb, uri, status, false, true) == RequestLine(verb, uri, status, false, false)
    ensures HasPrefix(RequestLine(verb, uri, status, false, true), "[" + verb + "] ")
  {
  }

  /** The package-level logger state. */
  class Logger {
    var initialized: bool
    var config: Config
    var level: Level
    var written: seq<string>
    var exited: bool
    /** Logging before `Init` dereferences a nil logger. */
    var panicked: bool

    constructor ()
      ensures !initialized && level == DEBUG && written == [] && !exited && !panicked
    {
      initialized := false;
      config := Config(DEBUG, ConsoleOutput, None, "", false, false);
      level := DEBUG;
      written := [];
      exited := false;
      panicked := false;
    }

    /** `Init`: applies `cfg` with its defaults on the first call only. */
    method Init(cfg: Config)
      modifies this
      ensures old(initialized) ==> config == old(config) && level == old(level)
      ensures !old(initialized) ==> config == WithDefaults(cfg) && level == cfg.level
      ensures initialized && written == old(written) && exited == old(exited) && panicked == old(panicked)
    {
      if !initialized {
        config := WithDefaults(cfg);
        level := cfg.level;
        initialized := true;
      }
    }

    /**
     * `SetOutput`: switches the output, keeping the console when none is
     * given, then points the five loggers at it; before `Init` they are
     * nil, so that last step panics after the configuration has changed.
     */
    method SetOutput(outputType: OutputType, console: Option<Console>)
      modifies this
      ensures config == old(config).(outputType := outputType,
                                     console := if console.Some? then console else old(config).console)
      ensures panicked <==> old(panicked) || !old(initialized)
      ensures initialized == old(initialized) && level == old(level) && written == old(written)
      ensures exited == old(exited)
    {
      config := config.(outputType := outputType, console := if console.Some? then console else config.console);
      if !initialized {
        panicked := true;
      }
    }

    /** `SetColorEnabled`. */
    method SetColorEnabled(enabled: bool)
      modifies this
      ensures config == old(config).(enableColor := enabled)
      ensures initialized == old(initialized) && level == old(level) && written == old(written)
      ensures exited == old(exited) && panicked == old(panicked)
    {
      config := config.(enableColor := enabled);
    }

    /**
     * `Debug`, `Info`, `Warn` and `Error` at level `l`: the line is written
     * iff the configured level is at most `l`.
     */
    method Log(l: Level, message: string, time: string, site: Option<string>)
      modifies this
      ensures level <= l && old(initialized) ==> written == old(written) + [FormatMessage(l, message, config, time, site)]
      ensures level <= l && !old(initialized) ==> panicked && written == old(written)
      ensures level > l ==> written == old(written)
      ensures panicked <==> old(panicked) || (level <= l && !old(initialized))
      ensures initialized == old(initialized) && config == old(config) && level == old(level) && exited == old(exited)
    {
      if level <= l {
        if initialized {
          written := written + [FormatMessage(l, message, config, time, site)];
        } else {
          panicked := true;
        }
      }
    }

    /**
     * `Fatal`: writes and exits, but only when the gate lets the line
     * through; before `Init` the write panics on the nil logger instead.
     */
    method Fatal(message: string, time: string, site: Option<string>)
      modifies this
      ensures exited <==> old(exited) || (level <= FATAL && old(initialized))
      ensures level <= FATAL && old(initialized) ==>
        written == old(written) + [FormatMessage(FATAL, message, config, time, site)]
      ensures level > FATAL || !old(initialized) ==> written == old(written)
      ensures panicked <==> old(panicked) || (level <= FATAL && !old(initialized))
      ensures initialized == old(initialized) && config == old(config) && level == old(level)
    {
      Log(FATAL, message, time, site);
      if level <= FATAL && initialized {
        exited := true;
      }
    }
  }
}
