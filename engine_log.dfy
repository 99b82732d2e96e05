/**
 * The engine's logging helpers: the three `Log` overloads of `XamarinEngine`, the
 * callbacks that `RegisterEventHandlers` defines (each of which only calls one of
 * them; the method itself has no caller), and `String.TrimEnd('\n', '\r')`.
 * Writing to the logger is modelled by returning the entry that would be written.
 */
module EngineLog {
  import opened Wrappers
  import opened DebugClient
  import Decimal

  datatype Level = Info | Error

  /** One logger call: its level, its message and the exception attached to it, if any. */
  datatype LogEntry = LogEntry(level: Level, message: string, exception: Option<ExceptionInfo>)

  predicate IsLineBreak(c: char) {
    c == '\n' || c == '\r'
  }

  predicate IsPrefix(p: string, s: string) {
    |p| <= |s| && p == s[..|p|]
  }

  /**
   * `TrimEnd('\n', '\r')`: removes the maximal trailing run of line-break
   * characters. The result is a prefix of `s`, does not end in a line break, and
   * everything cut off is a line break.
   */
  function TrimEnd(s: string): (r: string)
    ensures IsPrefix(r, s)
    ensures |r| == 0 || !IsLineBreak(r[|r| - 1])
    ensures forall i :: |r| <= i < |s| ==> IsLineBreak(s[i])
    decreases |s|
  {
    if |s| > 0 && IsLineBreak(s[|s| - 1]) then TrimEnd(s[..|s| - 1]) else s
  }

  /** Any prefix with the three properties of `TrimEnd` is the one it returns. */
  lemma TrimEndUnique(s: string, p: string)
    requires IsPrefix(p, s)
    requires |p| == 0 || !IsLineBreak(p[|p| - 1])
    requires forall i :: |p| <= i < |s| ==> IsLineBreak(s[i])
    ensures p == TrimEnd(s)
  {
  }

  lemma TrimEndIdempotent(s: string)
    ensures TrimEnd(TrimEnd(s)) == TrimEnd(s)
  {
  }

  /** Appending line breaks does not change the trimmed text. */
  lemma TrimEndIgnoresAppendedLineBreaks(s: string, t: string)
    requires forall i :: 0 <= i < |t| ==> IsLineBreak(t[i])
    ensures TrimEnd(s + t) == TrimEnd(s)
  {
    var r := TrimEnd(s);
    assert (s + t)[..|r|] == r;
    TrimEndUnique(s + t, r);
  }

  /** Text that does not end in a line break is logged as it is. */
  lemma TrimEndKeepsUnbrokenText(s: string)
    requires |s| == 0 || !IsLineBreak(s[|s| - 1])
    ensures TrimEnd(s) == s
  {
  }

  // ---------------------------------------------------------------------------
  // Log(string methodeName, Exception ex)

  /**
   * Logs `ex` at error level with the method name as the message, and answers
   * `true`: the session is told to continue.
   */
  function LogException(methodName: string, ex: ExceptionInfo): (r: (LogEntry, bool))
    ensures r.0 == LogEntry(Error, methodName, Some(ex))
    ensures r.1
  {
    (LogEntry(Error, methodName, Some(ex)), true)
  }

  // ---------------------------------------------------------------------------
  // Log(string methodeName, bool stderr, string text)

  /**
   * A log or output line from the session: error level exactly when it came from
   * standard error, and the text without its trailing line breaks. The method
   * name is not part of the entry.
   */
  function LogLine(methodName: string, stderr: bool, text: string): (e: LogEntry)
    ensures e.level == Error <==> stderr
    ensures e.exception == None
    ensures e.message == TrimEnd(text)
  {
    LogEntry(if stderr then Error else Info, TrimEnd(text), None)
  }

  lemma LogLineMessage(methodName: string, stderr: bool, text: string)
    ensures var m := LogLine(methodName, stderr, text).message;
      IsPrefix(m, text) && (|m| == 0 || !IsLineBreak(m[|m| - 1])) &&
      (forall i :: |m| <= i < |text| ==> IsLineBreak(text[i])) &&
      TrimEnd(m) == m
  {
  }

  lemma LogLineIgnoresMethodName(name1: string, name2: string, stderr: bool, text: string)
    ensures LogLine(name1, stderr, text) == LogLine(name2, stderr, text)
  {
  }

  // ---------------------------------------------------------------------------
  // Log(string methodeName, object sender, TargetEventArgs x)

  const ThreadTag := ": Thread=("

  /**
   * The text logged for a target event: the method name alone, unless the event
   * arguments name a thread, in which case
   * `<name>: Thread=(<id>, <thread name>, <location>)`.
   */
  function TargetEventMessage(methodName: string, x: Option<TargetEventArgs>): (m: string)
    ensures IsPrefix(methodName, m)
    ensures m == methodName <==> x.None? || x.value.thread.None?
    ensures m != methodName ==> m[|m| - 1] == ')'
  {
    match x
    case None => methodName
    case Some(args) =>
      match args.thread
      case None => methodName
      case Some(t) =>
        methodName + ThreadTag + Decimal.FormatInt(t.id) + ", " + t.name + ", " + t.location + ")"
  }

  /** The entry written for a target event: always at info level, with no exception. */
  function LogTargetEvent(methodName: string, x: Option<TargetEventArgs>): (e: LogEntry)
    ensures e.level == Info && e.exception == None
    ensures e.message == TargetEventMessage(methodName, x)
  {
    LogEntry(Info, TargetEventMessage(methodName, x), None)
  }

  /**
   * The fields of a thread message: after the method name and the thread tag
   * come the id's digits, which read back as the id, then ", ", then the thread's
   * name, ", ", its location and the closing parenthesis.
   */
  lemma ThreadMessageFields(methodName: string, t: ThreadInfo)
    ensures var m := TargetEventMessage(methodName, Some(TargetEventArgs(Some(t))));
      var k := |methodName| + |ThreadTag|;
      var d := |Decimal.FormatInt(t.id)|;
      k + d + 2 <= |m| &&
      m[|methodName|..k] == ThreadTag &&
      Decimal.ParseInt(m[k..k + d]) == Some(t.id) &&
      m[k + d..k + d + 2] == ", " &&
      m[k + d + 2..] == t.name + ", " + t.location + ")"
  {
    var m := TargetEventMessage(methodName, Some(TargetEventArgs(Some(t))));
    var f := Decimal.FormatInt(t.id);
    var k := |methodName| + |ThreadTag|;
    assert m == methodName + ThreadTag + f + ", " + (t.name + ", " + t.location + ")");
    assert m[k..k + |f|] == f;
    assert m[|methodName|..k] == ThreadTag;
    assert m[k + |f|..k + |f| + 2] == ", ";
    assert m[k + |f| + 2..] == t.name + ", " + t.location + ")";
    Decimal.FormatParseRoundTrip(t.id);
  }

  // ---------------------------------------------------------------------------
  // The callbacks defined in RegisterEventHandlers. That method is private and
  // has no caller in the engine, so these callbacks are defined but never set
  // on the session.

  /** The session events the engine subscribes to. */
  datatype SessionEvent =
    | TargetReady | TargetExited | TargetUnhandledException | TargetThreadStarted
    | TargetThreadStopped | TargetStopped | TargetStarted | TargetSignaled
    | TargetInterrupted | TargetExceptionThrown | TargetHitBreakpoint

  /** `nameof(_session.<event>)`. */
  function EventName(e: SessionEvent): string {
    match e
    case TargetReady => "TargetReady"
    case TargetExited => "TargetExited"
    case TargetUnhandledException => "TargetUnhandledException"
    case TargetThreadStarted => "TargetThreadStarted"
    case TargetThreadStopped => "TargetThreadStopped"
    case TargetStopped => "TargetStopped"
    case TargetStarted => "TargetStarted"
    case TargetSignaled => "TargetSignaled"
    case TargetInterrupted => "TargetInterrupted"
    case TargetExceptionThrown => "TargetExceptionThrown"
    case TargetHitBreakpoint => "TargetHitBreakpoint"
  }

  /**
   * The handler of a session event: every handler logs its event's name and
   * arguments, except the TargetStarted handler, which passes null arguments.
   */
  function OnSessionEvent(e: SessionEvent, x: Option<TargetEventArgs>): (entry: LogEntry)
    ensures entry.level == Info && entry.exception == None
    ensures IsPrefix(EventName(e), entry.message)
    ensures e == TargetStarted ==> entry.message == "TargetStarted"
    ensures e != TargetStarted ==> entry == LogTargetEvent(EventName(e), x)
  {
    LogTargetEvent(EventName(e), if e == TargetStarted then None else x)
  }

  /** Different events are logged under different names. */
  lemma EventNamesDistinct(e1: SessionEvent, e2: SessionEvent)
    requires e1 != e2
    ensures EventName(e1) != EventName(e2)
  {
  }

  /**
   * The `LogWriter` and `OutputWriter` callbacks, which are the same: both log
   * under the name "LogWriter", at error level exactly for standard error, the
   * text without its trailing line breaks.
   */
  function OnWriter(stderr: bool, text: string): (e: LogEntry)
    ensures e.level == Error <==> stderr
    ensures e.exception == None
    ensures IsPrefix(e.message, text) && TrimEnd(e.message) == e.message
    ensures forall i :: |e.message| <= i < |text| ==> IsLineBreak(text[i])
  {
    LogLine("LogWriter", stderr, text)
  }

  /**
   * The `ExceptionHandler` callback of `RegisterEventHandlers`: logs the
   * exception under the name "ExceptionHandler" and always answers `true`
   * ("continue").
   */
  function ExceptionHandler(ex: ExceptionInfo): (resume: bool)
    ensures resume
  {
    LogException("ExceptionHandler", ex).1
  }

  function ExceptionHandlerEntry(ex: ExceptionInfo): (e: LogEntry)
    ensures e.level == Error && e.message == "ExceptionHandler" && e.exception == Some(ex)
  {
    LogException("ExceptionHandler", ex).0
  }
}
