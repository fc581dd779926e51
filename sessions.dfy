/**
 * A sequence of calls on one logger, as a program makes them over its
 * lifetime: threshold changes interleaved with log calls. Running it
 * gives the final threshold and every line printed, in order.
 */
module Sessions {
  import opened Wrappers
  import opened Levels
  import opened Logging

  datatype Call = SetLevel(level: LogLevel) | LogAt(level: LogLevel, timestamp: string, message: string)

  /** The lines a single dispatch contributes: none or one. */
  function Printed(o: Option<Output>): (s: seq<Output>)
    ensures |s| <= 1 && (s == [] <==> o.None?)
  {
    if o.Some? then [o.value] else []
  }

  /**
   * Runs the calls in order from the given threshold: a SetLevel call
   * replaces the threshold, a log call prints what Dispatch gives under the
   * threshold current at that point. Each call prints at most one line, and
   * without SetLevel calls the threshold is never changed.
   */
  function Run(threshold: LogLevel, calls: seq<Call>): (r: (LogLevel, seq<Output>))
    ensures |r.1| <= |calls|
    ensures (forall i :: 0 <= i < |calls| ==> calls[i].LogAt?) ==> r.0 == threshold
    decreases |calls|
  {
    if calls == [] then (threshold, [])
    else match calls[0]
      case SetLevel(l) => Run(l, calls[1..])
      case LogAt(l, ts, m) =>
        var rest := Run(threshold, calls[1..]);
        (rest.0, Printed(Dispatch(threshold, l, ts, m)) + rest.1)
  }

  /** Running two call sequences one after the other is running their concatenation. */
  lemma {:induction false} RunAppend(threshold: LogLevel, a: seq<Call>, b: seq<Call>)
    ensures var mid := Run(threshold, a);
      Run(threshold, a + b) == (Run(mid.0, b).0, mid.1 + Run(mid.0, b).1)
    decreases |a|
  {
    if a == [] {
      assert a + b == b;
      assert Run(threshold, a) == (threshold, []);
      assert [] + Run(threshold, b).1 == Run(threshold, b).1;
    } else {
      assert (a + b)[0] == a[0];
      assert (a + b)[1..] == a[1..] + b;
      match a[0]
      case SetLevel(l) =>
        RunAppend(l, a[1..], b);
      case LogAt(l, ts, m) =>
        RunAppend(threshold, a[1..], b);
        var p := Printed(Dispatch(threshold, l, ts, m));
        var mid := Run(threshold, a[1..]);
        assert p + (mid.1 + Run(mid.0, b).1) == (p + mid.1) + Run(mid.0, b).1;
    }
  }

  /** Setting the same level twice in a row has the same effect as setting it once. */
  lemma SetLevelIdempotent(threshold: LogLevel, before: seq<Call>, level: LogLevel, after: seq<Call>)
    ensures Run(threshold, before + [SetLevel(level), SetLevel(level)] + after)
         == Run(threshold, before + [SetLevel(level)] + after)
  {
    var twice := [SetLevel(level), SetLevel(level)] + after;
    var once := [SetLevel(level)] + after;
    assert before + [SetLevel(level), SetLevel(level)] + after == before + twice;
    assert before + [SetLevel(level)] + after == before + once;
    RunAppend(threshold, before, twice);
    RunAppend(threshold, before, once);
    var mid := Run(threshold, before).0;
    assert twice[1..] == once;
    assert Run(mid, twice) == Run(level, once);
    assert once[1..] == after;
  }

  /** The threshold after a run is the level of the last SetLevel call, or the starting one if there is none. */
  function LastSet(threshold: LogLevel, calls: seq<Call>): (t: LogLevel)
    ensures (forall i :: 0 <= i < |calls| ==> !calls[i].SetLevel?) ==> t == threshold
  {
    if calls == [] then threshold
    else if calls[|calls| - 1].SetLevel? then calls[|calls| - 1].level
    else LastSet(threshold, calls[..|calls| - 1])
  }

  /** After a run the logger holds the last level that was set. */
  lemma {:induction false} RunEndsAtLastSet(threshold: LogLevel, calls: seq<Call>)
    ensures Run(threshold, calls).0 == LastSet(threshold, calls)
    decreases |calls|
  {
    if calls != [] {
      var init, last := calls[..|calls| - 1], calls[|calls| - 1];
      assert calls == init + [last];
      RunAppend(threshold, init, [last]);
      RunEndsAtLastSet(threshold, init);
    }
  }

  /** The lines of the Error calls, in order, whatever the thresholds in between. */
  function ErrorLines(calls: seq<Call>): seq<string>
  {
    if calls == [] then []
    else if calls[0].LogAt? && calls[0].level == Error
    then [FormatLine(calls[0].timestamp, Error, calls[0].message)] + ErrorLines(calls[1..])
    else ErrorLines(calls[1..])
  }

  /** The lines written to stderr, in order. */
  function StderrLines(outs: seq<Output>): seq<string>
  {
    if outs == [] then []
    else if outs[0].0 == Stderr then [outs[0].1] + StderrLines(outs[1..])
    else StderrLines(outs[1..])
  }

  /**
   * Stderr receives exactly the Error calls, every one of them and nothing
   * else, however the threshold is changed during the run.
   */
  lemma {:induction false} StderrIsExactlyErrors(threshold: LogLevel, calls: seq<Call>)
    ensures StderrLines(Run(threshold, calls).1) == ErrorLines(calls)
    decreases |calls|
  {
    if calls != [] {
      match calls[0]
      case SetLevel(l) =>
        StderrIsExactlyErrors(l, calls[1..]);
      case LogAt(l, ts, m) =>
        var rest := Run(threshold, calls[1..]).1;
        var p := Printed(Dispatch(threshold, l, ts, m));
        StderrIsExactlyErrors(threshold, calls[1..]);
        if p != [] {
          assert (p + rest)[0] == p[0];
          assert (p + rest)[1..] == rest;
        } else {
          assert p + rest == rest;
        }
    }
  }

  /**
   * With no SetLevel call, a logger at the default threshold prints every
   * log call, in order: the i-th line is the i-th call's line on its stream.
   */
  lemma {:induction false} DefaultPrintsEveryCall(calls: seq<Call>)
    requires forall i :: 0 <= i < |calls| ==> calls[i].LogAt?
    ensures Run(Info, calls).0 == Info
    ensures |Run(Info, calls).1| == |calls|
    ensures forall i :: 0 <= i < |calls| ==>
      Run(Info, calls).1[i] == (StreamOf(calls[i].level), FormatLine(calls[i].timestamp, calls[i].level, calls[i].message))
    decreases |calls|
  {
    if calls != [] {
      var outs := Run(Info, calls).1;
      var rest := Run(Info, calls[1..]).1;
      DefaultPrintsEveryCall(calls[1..]);
      assert outs == [(StreamOf(calls[0].level), FormatLine(calls[0].timestamp, calls[0].level, calls[0].message))] + rest;
      forall i | 0 < i < |calls|
        ensures outs[i] == (StreamOf(calls[i].level), FormatLine(calls[i].timestamp, calls[i].level, calls[i].message))
      {
        assert calls[1..][i - 1] == calls[i];
        assert outs[i] == rest[i - 1];
      }
    }
  }

  /** What a single call does from a given threshold. */
  lemma RunSingle(threshold: LogLevel, c: Call)
    ensures Run(threshold, [c]).0 == (if c.SetLevel? then c.level else threshold)
    ensures Run(threshold, [c]).1 == (if c.SetLevel? then [] else Printed(Dispatch(threshold, c.level, c.timestamp, c.message)))
  {
    assert [c][1..] == [];
  }

  /** One more call after a run: a SetLevel replaces the threshold, a log call appends what it prints. */
  lemma RunStep(threshold: LogLevel, calls: seq<Call>, c: Call)
    ensures var mid := Run(threshold, calls);
      && Run(threshold, calls + [c]).0 == (if c.SetLevel? then c.level else mid.0)
      && Run(threshold, calls + [c]).1
         == mid.1 + (if c.SetLevel? then [] else Printed(Dispatch(mid.0, c.level, c.timestamp, c.message)))
  {
    RunAppend(threshold, calls, [c]);
    RunSingle(Run(threshold, calls).0, c);
  }

  /**
   * Replays a sequence of calls on a logger object, collecting what each
   * log call prints. The object ends in the state Run predicts and prints
   * what Run predicts, so the lemmas above hold of the object itself.
   */
  method Replay(logger: Logger, calls: seq<Call>) returns (outs: seq<Output>)
    modifies logger
    ensures logger.logLevel == Run(old(logger.logLevel), calls).0
    ensures outs == Run(old(logger.logLevel), calls).1
  {
    ghost var t0 := logger.logLevel;
    outs := [];
    var i := 0;
    assert calls[..0] == [];
    while i < |calls|
      invariant 0 <= i <= |calls|
      invariant logger.logLevel == Run(t0, calls[..i]).0
      invariant outs == Run(t0, calls[..i]).1
    {
      RunStep(t0, calls[..i], calls[i]);
      assert calls[..i + 1] == calls[..i] + [calls[i]];
      match calls[i] {
        case SetLevel(l) =>
          logger.SetLogLevel(l);
        case LogAt(l, ts, m) =>
          var o := logger.Log(l, ts, m);
          outs := outs + Printed(o);
      }
      i := i + 1;
    }
    assert calls[..i] == calls;
  }
}
