/**
 * The plugin's logger `ACF_Canto_Logger`: a level fixed when the logger is
 * built, a filter that keeps the messages at or below that level, and the
 * line format handed to `error_log`. The lines written so far are the
 * logger's observable state.
 */
module Logging {
  import opened Php
  import opened Wp

  const LevelError: int := 1
  const LevelWarning: int := 2
  const LevelInfo: int := 3
  const LevelDebug: int := 4

  const Prefix: string := "[ACF Canto Field] "

  /** `get_log_level()`: nothing is logged without `WP_DEBUG`; with it, the
      (integer) `ACF_CANTO_LOG_LEVEL` constant when defined, else INFO. */
  function LogLevelFor(wpDebug: bool, levelConstant: Option<int>): (level: int)
    ensures !wpDebug ==> level == 0
    ensures wpDebug && levelConstant.None? ==> level == LevelInfo
    ensures wpDebug && levelConstant.Some? ==> level == levelConstant.value
  {
    if !wpDebug then 0
    else match levelConstant
      case Some(c) => c
      case None => LevelInfo
  }

  /** The name printed for a level; `UNKNOWN` outside 1..4. */
  function LevelName(level: int): (name: string)
    ensures name in ["ERROR", "WARNING", "INFO", "DEBUG", "UNKNOWN"]
    ensures name == "UNKNOWN" <==> !(LevelError <= level <= LevelDebug)
    ensures level == LevelError ==> name == "ERROR"
    ensures level == LevelWarning ==> name == "WARNING"
    ensures level == LevelInfo ==> name == "INFO"
    ensures level == LevelDebug ==> name == "DEBUG"
  {
    if level == LevelError then "ERROR"
    else if level == LevelWarning then "WARNING"
    else if level == LevelInfo then "INFO"
    else if level == LevelDebug then "DEBUG"
    else "UNKNOWN"
  }

  /** `sprintf('[%s] %s: %s', ...)`, with ` | Context: <json>` when the
      context is not empty. */
  function FormatLine(encode: Value -> string, level: int, message: string, context: Value): (line: string)
    ensures |line| > |Prefix| && line[..|Prefix|] == Prefix
    ensures Empty(context) ==> |line| == |Prefix| + |LevelName(level)| + 2 + |message|
    ensures !Empty(context) ==> |line| >= |Prefix| + |LevelName(level)| + 2 + |message| + |" | Context: "|
    ensures var n := |Prefix| + |LevelName(level)| + 2;
            && line[|Prefix|..n] == LevelName(level) + ": "
            && line[n..n + |message|] == message
            && (!Empty(context) ==> line[n + |message|..] == " | Context: " + encode(context))
  {
    var head := Prefix + (LevelName(level) + ": ");
    var tail := if !Empty(context) then " | Context: " + encode(context) else "";
    var line := head + message + tail;
    assert line[..|Prefix|] == Prefix;
    assert line[|Prefix|..|head|] == LevelName(level) + ": ";
    assert line[|head|..|head| + |message|] == message;
    assert line[|head| + |message|..] == tail;
    line
  }

  /** Every line starts with the prefix; its next character tells the five
      level names apart; with an empty context the line ends in the message
      itself. */
  lemma {:induction false} FormatLineReadsBack(encode: Value -> string, l1: int, m1: string, c1: Value, l2: int, m2: string, c2: Value)
    ensures var line := FormatLine(encode, l1, m1, c1);
            && |line| > |Prefix| && line[..|Prefix|] == Prefix
            && (Empty(c1) ==> line[|Prefix| + |LevelName(l1)| + 2..] == m1)
    ensures FormatLine(encode, l1, m1, c1)[|Prefix|] == FormatLine(encode, l2, m2, c2)[|Prefix|] ==>
              LevelName(l1) == LevelName(l2)
  {
    var line1 := FormatLine(encode, l1, m1, c1);
    var line2 := FormatLine(encode, l2, m2, c2);
    var k1 := |Prefix| + |LevelName(l1)| + 2;
    var k2 := |Prefix| + |LevelName(l2)| + 2;
    assert line1[|Prefix|] == line1[|Prefix|..k1][0] == LevelName(l1)[0];
    assert line2[|Prefix|] == line2[|Prefix|..k2][0] == LevelName(l2)[0];
    if Empty(c1) {
      assert line1[k1..] == line1[k1..k1 + |m1|];
    }
  }

  /** The parts of the context `api_request` logs. */
  function ApiContext(url: string, args: Value, response: Option<Response>): (ctx: Value)
    ensures ctx.Dict? && "url" in ctx.fields && ctx.fields["url"] == Str(url)
    ensures !Empty(ctx)
  {
    var base := map[
      "url" := Str(url),
      "method" := GetOr(args, "method", Str("GET")),
      "timeout" := GetOr(args, "timeout", Str("default"))];
    match response
    case None => Dict(base)
    case Some(Transport(message)) => Dict(base["error" := Str(message)])
    case Some(Http(code, body, _)) => Dict(base["response_code" := Int(code)]["response_size" := Int(|body|)])
  }

  /** The context `exception` logs: the exception's class, message, file,
      line and trace. */
  function ExceptionContext(className: string, message: string, file: string, line: int, trace: string): Value {
    Dict(map[
      "exception_class" := Str(className),
      "message" := Str(message),
      "file" := Str(file),
      "line" := Int(line),
      "trace" := Str(trace)])
  }

  /** `$message ?: 'Exception occurred'` */
  function ExceptionMessage(message: string): (m: string)
    ensures !EmptyStr(m)
    ensures !EmptyStr(message) ==> m == message
  {
    if EmptyStr(message) then "Exception occurred" else message
  }

  class Logger {
    const logLevel: int
    /** `json_encode`, as an oracle. */
    const encode: Value -> string
    /** The lines passed to `error_log` so far. */
    var emitted: seq<string>

    constructor (wpDebug: bool, levelConstant: Option<int>, encode: Value -> string)
      ensures logLevel == LogLevelFor(wpDebug, levelConstant)
      ensures this.encode == encode && emitted == []
    {
      logLevel := LogLevelFor(wpDebug, levelConstant);
      this.encode := encode;
      emitted := [];
    }

    /** `is_enabled($level)` */
    predicate IsEnabled(level: int) {
      level <= logLevel
    }

    /** `get_current_level()` */
    function CurrentLevel(): (level: int)
      ensures IsEnabled(level) && !IsEnabled(level + 1)
    {
      logLevel
    }

    /** `log($level, $message, $context)`: one line exactly when the level is
        enabled. */
    method Log(level: int, message: string, context: Value)
      modifies this
      ensures emitted == old(emitted) + (if IsEnabled(level) then [FormatLine(encode, level, message, context)] else [])
    {
      if level > logLevel {
        return;
      }
      emitted := emitted + [FormatLine(encode, level, message, context)];
    }

    method Error(message: string, context: Value)
      modifies this
      ensures emitted == old(emitted) + (if IsEnabled(LevelError) then [FormatLine(encode, LevelError, message, context)] else [])
    {
      Log(LevelError, message, context);
    }

    method Warning(message: string, context: Value)
      modifies this
      ensures emitted == old(emitted) + (if IsEnabled(LevelWarning) then [FormatLine(encode, LevelWarning, message, context)] else [])
    {
      Log(LevelWarning, message, context);
    }

    method Info(message: string, context: Value)
      modifies this
      ensures emitted == old(emitted) + (if IsEnabled(LevelInfo) then [FormatLine(encode, LevelInfo, message, context)] else [])
    {
      Log(LevelInfo, message, context);
    }

    method Debug(message: string, context: Value)
      modifies this
      ensures emitted == old(emitted) + (if IsEnabled(LevelDebug) then [FormatLine(encode, LevelDebug, message, context)] else [])
    {
      Log(LevelDebug, message, context);
    }

    /** `exception($exception, $message)`: logged at ERROR with the
        exception's details as context. */
    method Exception(className: string, exceptionMessage: string, file: string, line: int, trace: string, message: string)
      modifies this
      ensures emitted == old(emitted)
                + (if IsEnabled(LevelError)
                   then [FormatLine(encode, LevelError, ExceptionMessage(message),
                                    ExceptionContext(className, exceptionMessage, file, line, trace))]
                   else [])
    {
      var context := ExceptionContext(className, exceptionMessage, file, line, trace);
      Error(ExceptionMessage(message), context);
    }

    /** `api_request($url, $args, $response)`: logged only at DEBUG level. */
    method ApiRequest(url: string, args: Value, response: Option<Response>)
      modifies this
      ensures emitted == old(emitted)
                + (if logLevel >= LevelDebug then [FormatLine(encode, LevelDebug, "API Request", ApiContext(url, args, response))] else [])
    {
      if logLevel < LevelDebug {
        return;
      }
      Debug("API Request", ApiContext(url, args, response));
    }
  }

  /** Without `WP_DEBUG` none of the four levels is enabled, and neither is
      the API-request trace; with `WP_DEBUG` and no level constant, errors,
      warnings and information are logged but debug lines and API requests
      are not; with the constant, exactly the levels up to it are logged. */
  lemma LevelFilter(wpDebug: bool, levelConstant: Option<int>, level: int)
    ensures !wpDebug && LevelError <= level ==> level > LogLevelFor(wpDebug, levelConstant)
    ensures !wpDebug ==> LogLevelFor(wpDebug, levelConstant) < LevelDebug
    ensures wpDebug && levelConstant.None? ==>
              (level <= LogLevelFor(wpDebug, levelConstant) <==> level <= LevelInfo)
              && LogLevelFor(wpDebug, levelConstant) < LevelDebug
    ensures wpDebug && levelConstant.Some? ==>
              (level <= LogLevelFor(wpDebug, levelConstant) <==> level <= levelConstant.value)
  {
  }
}
