/**
 * The central logger of the AI Mail extension: four numbered levels, one
 * module-wide threshold that `setLogLevel` changes, the line format
 * `[timestamp] [LEVEL] [module] message`, and the per-module loggers that
 * `createLogger` hands out.
 *
 * The clock (`toISOString`) and `JSON.stringify(data, null, 2)` are
 * parameters; the console is the list of lines written to it.
 */
module Logger {
  import opened Js

  const DEBUG: int := 0
  const INFO: int := 1
  const WARN: int := 2
  const ERROR: int := 3

  /** The keys of `LogLevel`, in the order `Object.keys` lists them. */
  const LevelNames: seq<string> := ["DEBUG", "INFO", "WARN", "ERROR"]

  /** `LogLevel[name]` */
  function LevelValue(name: string): Option<int> {
    if name == "DEBUG" then Some(DEBUG)
    else if name == "INFO" then Some(INFO)
    else if name == "WARN" then Some(WARN)
    else if name == "ERROR" then Some(ERROR)
    else None
  }

  /** `keys.find(key => LogLevel[key] === level)` */
  function FindName(keys: seq<string>, level: int): (r: Option<string>)
    ensures r.Some? ==> r.value in keys && LevelValue(r.value) == Some(level)
    ensures r.None? ==> forall k :: k in keys ==> LevelValue(k) != Some(level)
  {
    if keys == [] then None
    else if LevelValue(keys[0]) == Some(level) then Some(keys[0])
    else FindName(keys[1..], level)
  }

  /** The name `formatMessage` prints for a level: its `LogLevel` key, or `undefined`. */
  function LevelString(level: int): string {
    FindName(LevelNames, level).GetOr("undefined")
  }

  /** Every level has its own name, and the name looks the level up again. */
  lemma LevelNamesRoundTrip(level: int)
    ensures 0 <= level <= 3 ==> LevelValue(LevelString(level)) == Some(level)
    ensures (level < 0 || level > 3) ==> LevelString(level) == "undefined"
  {
    if 0 <= level <= 3 {
      assert LevelValue(LevelNames[level]) == Some(level);
    }
  }

  /** `String.prototype.toUpperCase` on ASCII letters. */
  function Upper(s: string): (r: string)
    ensures |r| == |s|
    ensures forall i :: 0 <= i < |s| ==> r[i] == if 'a' <= s[i] <= 'z' then (s[i] as int - 32) as char else s[i]
  {
    if s == [] then [] else [if 'a' <= s[0] <= 'z' then (s[0] as int - 32) as char else s[0]] + Upper(s[1..])
  }

  /** What `setLogLevel` is given. */
  datatype LevelArgument = Named(name: string) | Numbered(n: real)

  /** `LogLevel[level.toUpperCase()] || LogLevel.INFO` for a string, the number itself otherwise. */
  function LevelOf(arg: LevelArgument): (r: real)
    ensures arg.Numbered? ==> r == arg.n
    ensures arg.Named? && LevelValue(Upper(arg.name)).Some? && LevelValue(Upper(arg.name)).value != 0 ==>
      r == LevelValue(Upper(arg.name)).value as real
    ensures arg.Named? && (LevelValue(Upper(arg.name)).None? || LevelValue(Upper(arg.name)).value == 0) ==> r == INFO as real
  {
    match arg
    case Numbered(n) => n
    case Named(name) =>
      match LevelValue(Upper(name))
      case Some(v) => if v != 0 then v as real else INFO as real
      case None => INFO as real
  }

  /** A name already in capitals is its own upper case. */
  lemma UpperOfCapitals(s: string)
    requires forall i :: 0 <= i < |s| ==> !('a' <= s[i] <= 'z')
    ensures Upper(s) == s
  {
  }

  /** The names map to their levels whatever their case. */
  lemma NamedLevels()
    ensures LevelOf(Named("INFO")) == 1.0 && LevelOf(Named("WARN")) == 2.0 && LevelOf(Named("ERROR")) == 3.0
  {
    UpperOfCapitals("INFO");
    UpperOfCapitals("WARN");
    UpperOfCapitals("ERROR");
  }

  /** Case does not matter. */
  lemma LowerCaseName()
    ensures LevelOf(Named("warn")) == 2.0
  {
    assert Upper("warn") == "WARN";
  }

  /** `'debug'`, like `'DEBUG'`, sets INFO: DEBUG's value 0 is falsy, so `|| LogLevel.INFO` replaces it. */
  lemma DebugNameSetsInfo()
    ensures LevelOf(Named("debug")) == 1.0 && LevelOf(Named("DEBUG")) == 1.0
  {
    UpperOfCapitals("DEBUG");
    assert Upper("debug") == "DEBUG";
  }

  /** An unknown name sets INFO. */
  lemma UnknownNameSetsInfo(name: string)
    requires LevelValue(Upper(name)).None?
    ensures LevelOf(Named(name)) == 1.0
  {
  }

  /** No string can set the threshold back to DEBUG. */
  lemma NoNameSelectsDebug(name: string)
    ensures LevelOf(Named(name)) >= 1.0
  {
  }

  /**
   * `formatMessage`. `timestamp` is the clock's ISO text and `stringify`
   * is `JSON.stringify(data, null, 2)`.
   */
  function FormatMessage(level: int, moduleName: string, message: string, data: Option<Json>,
                         timestamp: string, stringify: Json -> string): (r: string)
  {
    var formatted := "[" + timestamp + "] [" + LevelString(level) + "] [" + moduleName + "] " + message;
    if data.Some? && data.value != JNull then formatted + "\n" + stringify(data.value) else formatted
  }

  /**
   * Data extends the plain line by a newline and its JSON text; `null` and
   * `undefined` data leave the line as it is.
   */
  lemma FormatMessageData(level: int, moduleName: string, message: string, data: Option<Json>,
                          timestamp: string, stringify: Json -> string)
    ensures var plain := FormatMessage(level, moduleName, message, None, timestamp, stringify);
      && plain == "[" + timestamp + "] [" + LevelString(level) + "] [" + moduleName + "] " + message
      && (data.None? || data == Some(JNull) ==> FormatMessage(level, moduleName, message, data, timestamp, stringify) == plain)
      && (data.Some? && data.value != JNull ==>
            FormatMessage(level, moduleName, message, data, timestamp, stringify) == plain + "\n" + stringify(data.value))
  {
  }

  /**
   * With single-line inputs a log entry spans several lines exactly when it
   * carries data: the data's JSON text is the only thing after a newline.
   */
  lemma {:induction false} MultiLineIffData(level: int, moduleName: string, message: string, data: Option<Json>,
                                            timestamp: string, stringify: Json -> string)
    requires '\n' !in timestamp && '\n' !in moduleName && '\n' !in message
    ensures '\n' in FormatMessage(level, moduleName, message, data, timestamp, stringify) <==> data.Some? && data.value != JNull
  {
    var plain := "[" + timestamp + "] [" + LevelString(level) + "] [" + moduleName + "] " + message;
    assert '\n' !in LevelString(level);
    assert '\n' !in plain by {
      forall i | 0 <= i < |plain| ensures plain[i] != '\n' {
        var a := "[" + timestamp + "] [";
        var b := a + LevelString(level) + "] [";
        var c := b + moduleName + "] ";
        if i < |a| {
          if 1 <= i <= |timestamp| { assert plain[i] == timestamp[i - 1]; }
        } else if i < |a| + |LevelString(level)| {
          assert plain[i] == LevelString(level)[i - |a|];
        } else if i < |b| {
        } else if i < |b| + |moduleName| {
          assert plain[i] == moduleName[i - |b|];
        } else if i < |c| {
        } else {
          assert plain[i] == message[i - |c|];
        }
      }
    }
    if data.Some? && data.value != JNull {
      assert (plain + "\n" + stringify(data.value))[|plain|] == '\n';
    }
  }

  /** The console method `logToConsole` picks. */
  datatype ConsoleMethod = Log | Info | Warn | Error

  function ConsoleFor(level: int): Option<ConsoleMethod> {
    if level == DEBUG then Some(Log)
    else if level == INFO then Some(Info)
    else if level == WARN then Some(Warn)
    else if level == ERROR then Some(Error)
    else None
  }

  datatype ConsoleLine = ConsoleLine(via: ConsoleMethod, text: string)

  /** `createLogger(moduleName)`: the methods below, bound to the name. */
  datatype BoundLogger = BoundLogger(moduleName: string)

  /** The module's state: `currentLogLevel` and what has been written to the console. */
  class LoggerState {
    var currentLogLevel: real
    var console: seq<ConsoleLine>

    /** At load the threshold is DEBUG and nothing has been written. */
    constructor ()
      ensures currentLogLevel == DEBUG as real && console == []
    {
      currentLogLevel := DEBUG as real;
      console := [];
    }

    /** `setLogLevel` */
    method SetLogLevel(arg: LevelArgument)
      modifies this
      ensures currentLogLevel == LevelOf(arg) && console == old(console)
    {
      match arg
      case Named(name) =>
        var v := LevelValue(Upper(name));
        if v.Some? && v.value != 0 {
          currentLogLevel := v.value as real;
        } else {
          currentLogLevel := INFO as real;
        }
      case Numbered(n) =>
        currentLogLevel := n;
    }

    /**
     * `logToConsole`: a message below the threshold is dropped; any other is
     * formatted and written with the level's console method.
     */
    method LogToConsole(level: int, moduleName: string, message: string, data: Option<Json>,
                        timestamp: string, stringify: Json -> string)
      modifies this
      ensures currentLogLevel == old(currentLogLevel)
      ensures (level as real) < currentLogLevel || ConsoleFor(level).None? ==> console == old(console)
      ensures (level as real) >= currentLogLevel && ConsoleFor(level).Some? ==>
        console == old(console) + [ConsoleLine(ConsoleFor(level).value, FormatMessage(level, moduleName, message, data, timestamp, stringify))]
    {
      if (level as real) < currentLogLevel {
        return;
      }
      var formatted := FormatMessage(level, moduleName, message, data, timestamp, stringify);
      var m := ConsoleFor(level);
      if m.Some? {
        console := console + [ConsoleLine(m.value, formatted)];
      }
    }

    /** `logger.debug`, `info`, `warn` and `error`: each logs at its own level under the bound module name. */
    method Debug(logger: BoundLogger, message: string, data: Option<Json>, timestamp: string, stringify: Json -> string)
      modifies this
      ensures currentLogLevel == old(currentLogLevel)
      ensures console == old(console) + (if currentLogLevel <= DEBUG as real
        then [ConsoleLine(Log, FormatMessage(DEBUG, logger.moduleName, message, data, timestamp, stringify))] else [])
    {
      LogToConsole(DEBUG, logger.moduleName, message, data, timestamp, stringify);
    }

    method Info(logger: BoundLogger, message: string, data: Option<Json>, timestamp: string, stringify: Json -> string)
      modifies this
      ensures currentLogLevel == old(currentLogLevel)
      ensures console == old(console) + (if currentLogLevel <= INFO as real
        then [ConsoleLine(ConsoleMethod.Info, FormatMessage(INFO, logger.moduleName, message, data, timestamp, stringify))] else [])
    {
      LogToConsole(INFO, logger.moduleName, message, data, timestamp, stringify);
    }

    method Warn(logger: BoundLogger, message: string, data: Option<Json>, timestamp: string, stringify: Json -> string)
      modifies this
      ensures currentLogLevel == old(currentLogLevel)
      ensures console == old(console) + (if currentLogLevel <= WARN as real
        then [ConsoleLine(ConsoleMethod.Warn, FormatMessage(WARN, logger.moduleName, message, data, timestamp, stringify))] else [])
    {
      LogToConsole(WARN, logger.moduleName, message, data, timestamp, stringify);
    }

    method Error(logger: BoundLogger, message: string, data: Option<Json>, timestamp: string, stringify: Json -> string)
      modifies this
      ensures currentLogLevel == old(currentLogLevel)
      ensures console == old(console) + (if currentLogLevel <= ERROR as real
        then [ConsoleLine(ConsoleMethod.Error, FormatMessage(ERROR, logger.moduleName, message, data, timestamp, stringify))] else [])
    {
      LogToConsole(ERROR, logger.moduleName, message, data, timestamp, stringify);
    }

    /** `logFunctionCall` and `logFunctionResult`: DEBUG lines naming the function. */
    method LogFunctionCall(logger: BoundLogger, functionName: string, args: Option<Json>, timestamp: string, stringify: Json -> string)
      modifies this
      ensures currentLogLevel == old(currentLogLevel)
      ensures console == old(console) + (if currentLogLevel <= DEBUG as real
        then [ConsoleLine(Log, FormatMessage(DEBUG, logger.moduleName, "Function called: " + functionName, args, timestamp, stringify))] else [])
    {
      LogToConsole(DEBUG, logger.moduleName, "Function called: " + functionName, args, timestamp, stringify);
    }

    method LogFunctionResult(logger: BoundLogger, functionName: string, result: Option<Json>, timestamp: string, stringify: Json -> string)
      modifies this
      ensures currentLogLevel == old(currentLogLevel)
      ensures console == old(console) + (if currentLogLevel <= DEBUG as real
        then [ConsoleLine(Log, FormatMessage(DEBUG, logger.moduleName, "Function result: " + functionName, result, timestamp, stringify))] else [])
    {
      LogToConsole(DEBUG, logger.moduleName, "Function result: " + functionName, result, timestamp, stringify);
    }

    /** `logError`: an ERROR line with the error's message, always followed by its `{ stack, error }` data. */
    method LogError(logger: BoundLogger, functionName: string, errorMessage: string, errorData: Json,
                    timestamp: string, stringify: Json -> string)
      modifies this
      ensures currentLogLevel == old(currentLogLevel)
      ensures var data := JObj(map["stack" := Get(Some(errorData), "stack").GetOr(JNull), "error" := errorData]);
        console == old(console) + (if currentLogLevel <= ERROR as real
          then [ConsoleLine(ConsoleMethod.Error, FormatMessage(ERROR, logger.moduleName, "Error in " + functionName + ": " + errorMessage,
                                                  Some(data), timestamp, stringify))] else [])
    {
      var data := JObj(map["stack" := Get(Some(errorData), "stack").GetOr(JNull), "error" := errorData]);
      LogToConsole(ERROR, logger.moduleName, "Error in " + functionName + ": " + errorMessage, Some(data), timestamp, stringify);
    }
  }

  /** What one call at `level` through `via` writes under `threshold`: its line when the level is admitted, else nothing. */
  function WrittenAt(threshold: real, level: int, via: ConsoleMethod, moduleName: string, message: string, data: Option<Json>,
                     timestamp: string, stringify: Json -> string): seq<ConsoleLine>
  {
    if threshold <= level as real then [ConsoleLine(via, FormatMessage(level, moduleName, message, data, timestamp, stringify))]
    else []
  }

  /** One call at each of the four levels, in order, under `threshold`. */
  function WrittenAtEachLevel(threshold: real, moduleName: string, message: string, data: Option<Json>,
                              timestamp: string, stringify: Json -> string): seq<ConsoleLine>
  {
    WrittenAt(threshold, DEBUG, Log, moduleName, message, data, timestamp, stringify)
    + WrittenAt(threshold, INFO, ConsoleMethod.Info, moduleName, message, data, timestamp, stringify)
    + WrittenAt(threshold, WARN, ConsoleMethod.Warn, moduleName, message, data, timestamp, stringify)
    + WrittenAt(threshold, ERROR, ConsoleMethod.Error, moduleName, message, data, timestamp, stringify)
  }

  /**
   * After `setLogLevel(arg)`, one call at each of the four levels writes
   * exactly the admitted ones, in order.
   */
  method ThresholdFilters(logger: BoundLogger, arg: LevelArgument, message: string, data: Option<Json>,
                          timestamp: string, stringify: Json -> string)
    returns (lines: seq<ConsoleLine>)
    ensures lines == WrittenAtEachLevel(LevelOf(arg), logger.moduleName, message, data, timestamp, stringify)
  {
    var state := new LoggerState();
    state.SetLogLevel(arg);
    state.Debug(logger, message, data, timestamp, stringify);
    state.Info(logger, message, data, timestamp, stringify);
    state.Warn(logger, message, data, timestamp, stringify);
    state.Error(logger, message, data, timestamp, stringify);
    lines := state.console;
  }

  /**
   * The threshold drops every level below it and nothing else: the lines
   * written are those of the levels from the threshold up, so a threshold
   * above ERROR writes nothing and one at or below DEBUG writes all four.
   */
  lemma ThresholdKeepsLevelsFromIt(threshold: real, moduleName: string, message: string, data: Option<Json>,
                                   timestamp: string, stringify: Json -> string)
    ensures var lines := WrittenAtEachLevel(threshold, moduleName, message, data, timestamp, stringify);
      && (threshold > ERROR as real ==> lines == [])
      && (threshold <= DEBUG as real ==> |lines| == 4)
      && (forall i :: 0 <= i < |lines| ==> ConsoleLevel(lines[i].via) as real >= threshold)
  {
  }

  /** The level a console method is used for. */
  function ConsoleLevel(via: ConsoleMethod): int {
    match via
    case Log => DEBUG
    case Info => INFO
    case Warn => WARN
    case Error => ERROR
  }

  /** A named level is never DEBUG, whose value 0 is falsy: it lies between INFO and ERROR. */
  lemma NamedLevelAboveDebug(name: string)
    ensures INFO as real <= LevelOf(Named(name)) <= ERROR as real
  {
  }

  /** At WARN only the warning and the error get through. */
  lemma WarnThresholdFilters(moduleName: string, message: string, data: Option<Json>, timestamp: string, stringify: Json -> string)
    ensures var lines := WrittenAtEachLevel(LevelOf(Named("WARN")), moduleName, message, data, timestamp, stringify);
      && |lines| == 2 && lines[0].via == ConsoleMethod.Warn && lines[1].via == ConsoleMethod.Error
      && lines[0].text == FormatMessage(WARN, moduleName, message, data, timestamp, stringify)
  {
    UpperOfCapitals("WARN");
  }
}
