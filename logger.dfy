/**
 * The logger: one mutable threshold, a filter that compares a message's
 * level with it, and a dispatch that formats the line and picks the stream.
 *
 * Printing is replaced by returning the chosen stream and the line, and
 * the clock reading by a timestamp parameter; colour is not modelled.
 */
module Logging {
  import opened Wrappers
  import opened Levels

  /** The two destinations a line can go to. */
  datatype Stream = Stdout | Stderr

  /** One emitted line together with the stream it is written to. */
  type Output = (Stream, string)

  /** The line `[ts] TAG message`, with single spaces between the three parts. */
  function FormatLine(timestamp: string, level: LogLevel, message: string): (line: string)
    ensures |line| == |timestamp| + |message| + 10
    ensures line[0] == '[' && line[|timestamp| + 1] == ']' && line[|timestamp| + 2] == ' '
    ensures line[1..|timestamp| + 1] == timestamp
    ensures line[|timestamp| + 3..|timestamp| + 9] == Tag(level)
    ensures line[|timestamp| + 9] == ' ' && line[|timestamp| + 10..] == message
  {
    "[" + timestamp + "] " + Tag(level) + " " + message
  }

  /**
   * Splits a line back into timestamp, level and message, given the width
   * of the timestamp; None when the line does not have the layout of
   * FormatLine.
   */
  function ParseLine(line: string, width: nat): (r: Option<(string, LogLevel, string)>)
    ensures r.Some? ==> |r.value.0| == width
  {
    if |line| < width + 10 then None
    else if line[0] != '[' || line[width + 1] != ']' || line[width + 2] != ' ' || line[width + 9] != ' ' then None
    else match LevelOfTag(line[width + 3..width + 9])
      case None => None
      case Some(level) => Some((line[1..width + 1], level, line[width + 10..]))
  }

  /** Formatting loses nothing: the line parses back into its three parts. */
  lemma ParseFormat(timestamp: string, level: LogLevel, message: string)
    ensures ParseLine(FormatLine(timestamp, level, message), |timestamp|) == Some((timestamp, level, message))
  {
  }

  /** A line that parses is exactly the formatted line of what it parses to. */
  lemma FormatParse(line: string, width: nat)
    requires ParseLine(line, width).Some?
    ensures var (timestamp, level, message) := ParseLine(line, width).value;
      FormatLine(timestamp, level, message) == line
  {
    var (timestamp, level, message) := ParseLine(line, width).value;
    var f := FormatLine(timestamp, level, message);
    assert |f| == |line|;
    forall i | 0 <= i < |line| ensures f[i] == line[i] {
      if 1 <= i < width + 1 {
        assert f[i] == f[1..width + 1][i - 1];
      } else if width + 3 <= i < width + 9 {
        assert f[i] == f[width + 3..width + 9][i - width - 3];
        assert line[i] == line[width + 3..width + 9][i - width - 3];
      } else if width + 10 <= i {
        assert f[i] == f[width + 10..][i - width - 10];
      }
    }
  }

  /** The stream a level is written to: Error to stderr, everything else to stdout. */
  function StreamOf(level: LogLevel): (s: Stream)
    ensures s == Stderr <==> level == Error
  {
    if level == Error then Stderr else Stdout
  }

  /**
   * What one log call prints under a given threshold: nothing when the
   * level is above the threshold, otherwise the formatted line on the
   * stream of its level.
   */
  function Dispatch(threshold: LogLevel, level: LogLevel, timestamp: string, message: string): (r: Option<Output>)
    ensures r.Some? <==> Rank(level) <= Rank(threshold)
    ensures r.Some? ==> (r.value.0 == Stderr <==> level == Error)
    ensures r.Some? ==> ParseLine(r.value.1, |timestamp|) == Some((timestamp, level, message))
  {
    if Le(level, threshold) then Some((StreamOf(level), FormatLine(timestamp, level, message)))
    else None
  }

  /** Error is printed, on stderr, whatever the threshold. */
  lemma ErrorAlwaysEmitted(threshold: LogLevel, timestamp: string, message: string)
    ensures Dispatch(threshold, Error, timestamp, message) == Some((Stderr, FormatLine(timestamp, Error, message)))
  {
  }

  /** The default threshold Info lets every level through. */
  lemma DefaultEmitsAll(level: LogLevel, timestamp: string, message: string)
    ensures Dispatch(Info, level, timestamp, message) == Some((StreamOf(level), FormatLine(timestamp, level, message)))
  {
  }

  /** Threshold Error drops Warn and Info; threshold Warn drops only Info. */
  lemma RestrictiveThresholds(level: LogLevel, timestamp: string, message: string)
    ensures Dispatch(Error, level, timestamp, message).Some? <==> level == Error
    ensures Dispatch(Warn, level, timestamp, message).Some? <==> level != Info
  {
  }

  /** Raising the threshold never hides a message that was printed before. */
  lemma DispatchMonotonic(t: LogLevel, t': LogLevel, level: LogLevel, timestamp: string, message: string)
    requires Le(t, t')
    requires Dispatch(t, level, timestamp, message).Some?
    ensures Dispatch(t', level, timestamp, message) == Dispatch(t, level, timestamp, message)
  {
  }

  /**
   * A logger object. Its one field is the threshold; the lock that guards
   * it in a concurrent program is not modelled.
   */
  class Logger {
    var logLevel: LogLevel

    /** A new logger starts at Info, which prints every level. */
    constructor ()
      ensures logLevel == Info
      ensures forall level :: ShouldLog(level)
    {
      logLevel := Info;
    }

    /** Overwrites the threshold; setting the same level twice is the same as once. */
    method SetLogLevel(level: LogLevel)
      modifies this
      ensures logLevel == level
    {
      logLevel := level;
    }

    /** The filter: a level passes when it is at most the threshold. */
    predicate ShouldLog(level: LogLevel)
      reads this
      ensures ShouldLog(level) <==> Rank(level) <= Rank(logLevel)
    {
      Le(level, logLevel)
    }

    /** One log call: what it prints, if anything, and where. The threshold is only read. */
    method Log(level: LogLevel, timestamp: string, message: string) returns (out: Option<Output>)
      ensures out.Some? <==> ShouldLog(level)
      ensures out == Dispatch(logLevel, level, timestamp, message)
    {
      if ShouldLog(level) {
        out := Some((StreamOf(level), FormatLine(timestamp, level, message)));
      } else {
        out := None;
      }
    }

    /** Logs at Info. */
    method LogInfo(timestamp: string, message: string) returns (out: Option<Output>)
      ensures out == Dispatch(logLevel, Info, timestamp, message)
      ensures out == Some((Stdout, FormatLine(timestamp, Info, message))) <==> logLevel == Info
    {
      out := Log(Info, timestamp, message);
    }

    /** Logs at Warn. */
    method LogWarn(timestamp: string, message: string) returns (out: Option<Output>)
      ensures out == Dispatch(logLevel, Warn, timestamp, message)
      ensures out == Some((Stdout, FormatLine(timestamp, Warn, message))) <==> logLevel != Error
    {
      out := Log(Warn, timestamp, message);
    }

    /** Logs at Error, which always reaches stderr. */
    method LogError(timestamp: string, message: string) returns (out: Option<Output>)
      ensures out == Dispatch(logLevel, Error, timestamp, message)
      ensures out == Some((Stderr, FormatLine(timestamp, Error, message)))
    {
      out := Log(Error, timestamp, message);
    }
  }

  /**
   * The three threshold settings exercised on one logger: at the default
   * everything is printed, at Warn the Info message is dropped, at Error
   * only the Error message is printed.
   */
  method Scenarios(timestamp: string) returns (atDefault: seq<Option<Output>>, atWarn: seq<Option<Output>>, atError: seq<Option<Output>>)
    ensures atDefault == [Some((Stdout, FormatLine(timestamp, Info, "a"))),
                          Some((Stdout, FormatLine(timestamp, Warn, "b"))),
                          Some((Stderr, FormatLine(timestamp, Error, "c")))]
    ensures atWarn == [None, Some((Stdout, FormatLine(timestamp, Warn, "shown"))),
                       Some((Stderr, FormatLine(timestamp, Error, "shown2")))]
    ensures atError == [None, None, Some((Stderr, FormatLine(timestamp, Error, "only")))]
  {
    var logger := new Logger();
    var i := logger.LogInfo(timestamp, "a");
    var w := logger.LogWarn(timestamp, "b");
    var e := logger.LogError(timestamp, "c");
    atDefault := [i, w, e];
    logger.SetLogLevel(Warn);
    i := logger.LogInfo(timestamp, "hidden");
    w := logger.LogWarn(timestamp, "shown");
    e := logger.LogError(timestamp, "shown2");
    atWarn := [i, w, e];
    logger.SetLogLevel(Error);
    i := logger.LogInfo(timestamp, "x");
    w := logger.LogWarn(timestamp, "y");
    e := logger.LogError(timestamp, "only");
    atError := [i, w, e];
  }
}
