/** Rate-limited failure logging. Times are nanoseconds of one non-decreasing clock. */
module Damper {
  import opened Terms

  const SUMMARY_INTERVAL := 300_000_000_000

  datatype Level = ErrorLine | DebugLine | InfoLine

  datatype Line = Line(level: Level, at: int)

  /** One call. A failure happens at `called` and may read the clock twice, at `read` and `reread`. */
  datatype Call = Failure(called: int, read: int, reread: int) | Success(at: int)

  // ---------- the log as a function of the calls so far ----------

  function Last<T>(s: seq<T>): T
    requires s != []
  {
    s[|s| - 1]
  }

  /** The number of failures since the last success. */
  function Streak(calls: seq<Call>): (n: nat)
    ensures n <= |calls|
  {
    if calls == [] || Last(calls).Success? then 0 else 1 + Streak(calls[..|calls| - 1])
  }

  /** An Error line of the running streak: when it was logged and the clock reading taken for it. */
  datatype Report = Report(at: int, clock: int)

  function Reports(calls: seq<Call>): (reports: seq<Report>)
    ensures reports == [] <==> Streak(calls) == 0
  {
    if calls == [] || Last(calls).Success? then []
    else
      var before, call := Reports(calls[..|calls| - 1]), Last(calls);
      if before == [] then [Report(call.called, call.read)]
      else if call.read - Last(before).clock >= SUMMARY_INTERVAL then before + [Report(call.read, call.reread)]
      else before
  }

  function LineOf(calls: seq<Call>): Option<Line>
    requires calls != []
  {
    var before := calls[..|calls| - 1];
    match Last(calls)
    case Success(at) => if Streak(before) == 0 then None else Some(Line(InfoLine, at))
    case Failure(called, read, _) =>
      if Streak(before) == 0 then Some(Line(ErrorLine, called))
      else if |Reports(calls)| > |Reports(before)| then Some(Line(ErrorLine, read))
      else Some(Line(DebugLine, read))
  }

  function Lines(calls: seq<Call>): seq<Line> {
    if calls == [] then []
    else
      var before := Lines(calls[..|calls| - 1]);
      match LineOf(calls)
      case Some(l) => before + [l]
      case None => before
  }

  // ---------- implementation ----------

  class Damper {
    var failures: nat
    var first: int
    var lastErr: int
    var lines: seq<Line>
    ghost var calls: seq<Call>

    ghost predicate Valid()
      reads this
    {
      && failures == Streak(calls)
      && lines == Lines(calls)
      && (failures > 0 ==> first == Reports(calls)[0].clock && lastErr == Last(Reports(calls)).clock)
    }

    constructor ()
      ensures Valid() && calls == []
    {
      failures, first, lastErr, lines, calls := 0, 0, 0, [], [];
    }

    method Fail(called: int, read: int, reread: int)
      requires Valid()
      modifies this
      ensures Valid() && calls == old(calls) + [Failure(called, read, reread)]
    {
      assert (calls + [Failure(called, read, reread)])[..|calls|] == calls;
      calls := calls + [Failure(called, read, reread)];
      failures := failures + 1;
      if failures == 1 {
        lines := lines + [Line(ErrorLine, called)];
        first, lastErr := read, read;
        return;
      }
      if read - lastErr >= SUMMARY_INTERVAL {
        lines := lines + [Line(ErrorLine, read)];
        lastErr := reread;
        return;
      }
      lines := lines + [Line(DebugLine, read)];
    }

    method Ok(at: int)
      requires Valid()
      modifies this
      ensures Valid() && calls == old(calls) + [Success(at)]
    {
      assert (calls + [Success(at)])[..|calls|] == calls;
      calls := calls + [Success(at)];
      if failures == 0 {
        return;
      }
      lines := lines + [Line(InfoLine, at)];
      failures := 0;
    }
  }

  // ---------- properties ----------

  /** The streak is the longest run of failures at the end. */
  lemma {:induction false} StreakIsSuffix(calls: seq<Call>)
    ensures forall i | |calls| - Streak(calls) <= i < |calls| :: calls[i].Failure?
    ensures Streak(calls) < |calls| ==> calls[|calls| - Streak(calls) - 1].Success?
  {
    if Streak(calls) > 0 {
      StreakIsSuffix(calls[..|calls| - 1]);
    }
  }

  function Times(c: Call): (int, int) {
    match c
    case Failure(called, _, reread) => (called, reread)
    case Success(at) => (at, at)
  }

  /** The clock never goes back, within a call or from one call to the next. */
  predicate Ordered(calls: seq<Call>) {
    && (forall i | 0 <= i < |calls| && calls[i].Failure? :: calls[i].called <= calls[i].read <= calls[i].reread)
    && (forall i, j | 0 <= i < j < |calls| :: Times(calls[i]).1 <= Times(calls[j]).0)
  }

  predicate Spaced(reports: seq<Report>, now: int) {
    && (forall i | 0 <= i < |reports| :: reports[i].at <= reports[i].clock <= now)
    && (forall i | 0 < i < |reports| :: reports[i].at - reports[i - 1].at >= SUMMARY_INTERVAL)
  }

  lemma SpacedAppend(reports: seq<Report>, last: int, r: Report)
    requires Spaced(reports, last) && last <= r.at <= r.clock
    requires reports != [] ==> r.at - Last(reports).clock >= SUMMARY_INTERVAL
    ensures Spaced(reports + [r], r.clock)
  {
  }

  lemma SpacedLater(reports: seq<Report>, last: int, now: int)
    requires Spaced(reports, last) && last <= now
    ensures Spaced(reports, now)
  {
  }

  lemma OrderedPrefix(calls: seq<Call>)
    requires Ordered(calls) && calls != []
    ensures Ordered(calls[..|calls| - 1])
    ensures |calls| > 1 ==> Times(calls[|calls| - 2]).1 <= Times(Last(calls)).0
    ensures Last(calls).Failure? ==> Last(calls).called <= Last(calls).read <= Last(calls).reread
  {
  }

  /** What one more failure makes of the reports of a running streak. */
  lemma ReportsStep(reports: seq<Report>, last: int, call: Call)
    requires reports != [] && call.Failure? && Spaced(reports, last) && last <= call.called <= call.read <= call.reread
    ensures var due := call.read - Last(reports).clock >= SUMMARY_INTERVAL;
            Spaced(if due then reports + [Report(call.read, call.reread)] else reports, call.reread)
  {
    if call.read - Last(reports).clock >= SUMMARY_INTERVAL {
      SpacedAppend(reports, last, Report(call.read, call.reread));
    } else {
      SpacedLater(reports, last, call.reread);
    }
  }

  lemma {:induction false} ReportsAreSpaced(calls: seq<Call>)
    requires Ordered(calls) && calls != []
    ensures Spaced(Reports(calls), Times(Last(calls)).1)
  {
    var before, call := calls[..|calls| - 1], Last(calls);
    OrderedPrefix(calls);
    if call.Failure? && Reports(before) != [] {
      ReportsAreSpaced(before);
      ReportsStep(Reports(before), Times(Last(before)).1, call);
    }
  }

  lemma {:induction false} FirstReport(calls: seq<Call>)
    requires Streak(calls) > 0
    ensures Reports(calls)[0].at == Times(calls[|calls| - Streak(calls)]).0
  {
    if Streak(calls) > 1 {
      FirstReport(calls[..|calls| - 1]);
    }
  }

  lemma {:induction false} SpacedCount(rs: seq<Report>)
    requires rs != [] && forall i | 0 < i < |rs| :: rs[i].at - rs[i - 1].at >= SUMMARY_INTERVAL
    ensures (|rs| - 1) * SUMMARY_INTERVAL <= Last(rs).at - rs[0].at
  {
    if |rs| > 1 {
      SpacedCount(rs[..|rs| - 1]);
    }
  }

  function Count(lines: seq<Line>, level: Level): nat {
    if lines == [] then 0 else Count(lines[..|lines| - 1], level) + if Last(lines).level == level then 1 else 0
  }

  lemma CountAppend(lines: seq<Line>, l: Line, level: Level)
    ensures Count(lines + [l], level) == Count(lines, level) + if l.level == level then 1 else 0
  {
    assert (lines + [l])[..|lines|] == lines;
  }

  function Failures(calls: seq<Call>): nat {
    if calls == [] then 0 else Failures(calls[..|calls| - 1]) + if Last(calls).Failure? then 1 else 0
  }

  /** Successes right after a failure. */
  function Recoveries(calls: seq<Call>): nat {
    if calls == [] then 0
    else Recoveries(calls[..|calls| - 1]) +
         if |calls| > 1 && Last(calls).Success? && calls[|calls| - 2].Failure? then 1 else 0
  }

  lemma CountStep(calls: seq<Call>, level: Level)
    requires calls != []
    ensures Count(Lines(calls), level) ==
              Count(Lines(calls[..|calls| - 1]), level) +
              (if LineOf(calls).Some? && LineOf(calls).value.level == level then 1 else 0)
  {
    if LineOf(calls).Some? {
      CountAppend(Lines(calls[..|calls| - 1]), LineOf(calls).value, level);
    }
  }

  /** Every failure logs exactly one line, Error or Debug, every streak that recovers exactly one Info line,
      and nothing else is logged. */
  lemma {:induction false} OneLinePerFailure(calls: seq<Call>)
    ensures Count(Lines(calls), ErrorLine) + Count(Lines(calls), DebugLine) == Failures(calls)
    ensures Count(Lines(calls), InfoLine) == Recoveries(calls)
    ensures |Lines(calls)| == Failures(calls) + Recoveries(calls)
  {
    if calls != [] {
      OneLinePerFailure(calls[..|calls| - 1]);
      CountStep(calls, ErrorLine);
      CountStep(calls, DebugLine);
      CountStep(calls, InfoLine);
    }
  }

  /** The Error lines of the running streak are its reports: nothing else in the streak is logged at Error. */
  lemma {:induction false} ErrorLinesAreReports(calls: seq<Call>)
    ensures |Reports(calls)| ==
              Count(Lines(calls), ErrorLine) - Count(Lines(calls[..|calls| - Streak(calls)]), ErrorLine)
  {
    var begin := calls[..|calls| - Streak(calls)];
    if Streak(calls) == 0 {
      assert begin == calls;
    } else {
      var before := calls[..|calls| - 1];
      ErrorLinesAreReports(before);
      assert before[..|before| - Streak(before)] == begin;
      CountStep(calls, ErrorLine);
    }
  }

  /** Rate bound: a running streak that began with the call `begin` has logged at most
      1 + elapsed / SUMMARY_INTERVAL Error lines. */
  lemma RateBound(calls: seq<Call>)
    requires Ordered(calls) && Streak(calls) > 0
    ensures calls[|calls| - Streak(calls)].Failure? && Last(calls).Failure?
    ensures var begin := |calls| - Streak(calls);
            var lines := Count(Lines(calls), ErrorLine) - Count(Lines(calls[..begin]), ErrorLine);
            1 <= lines && (lines - 1) * 300_000_000_000 <= Last(calls).reread - calls[begin].called
  {
    StreakIsSuffix(calls);
    ReportsAreSpaced(calls);
    FirstReport(calls);
    SpacedCount(Reports(calls));
    ErrorLinesAreReports(calls);
  }

  // ---------- which line each call logs ----------

  /** Call i was logged at Error. */
  predicate Loud(calls: seq<Call>, i: nat)
    requires i < |calls|
  {
    LineOf(calls[..i + 1]).Some? && LineOf(calls[..i + 1]).value.level == ErrorLine
  }

  /** The clock reading kept for an Error line: the one of a streak's first failure is taken after its line, that
      of a summary once more after the summary. */
  function KeptClock(calls: seq<Call>, i: nat): int
    requires i < |calls| && calls[i].Failure?
  {
    if i == 0 || calls[i - 1].Success? then calls[i].read else calls[i].reread
  }

  /** i is the last failure of the running streak that was logged at Error. */
  predicate LastLoud(calls: seq<Call>, i: nat) {
    && i < |calls| && (forall j | i <= j < |calls| :: calls[j].Failure?)
    && Loud(calls, i) && forall j | i < j < |calls| :: !Loud(calls, j)
  }

  lemma StreakRuns(calls: seq<Call>)
    ensures Streak(calls) > 0 <==> calls != [] && Last(calls).Failure?
  {
  }

  lemma LoudOfPrefix(calls: seq<Call>, j: nat)
    requires j < |calls| - 1
    ensures Loud(calls[..|calls| - 1], j) == Loud(calls, j)
  {
    assert calls[..|calls| - 1][..j + 1] == calls[..j + 1];
  }

  lemma LastLoudOfPrefix(calls: seq<Call>, i: nat)
    requires LastLoud(calls, i) && i < |calls| - 1
    ensures LastLoud(calls[..|calls| - 1], i)
  {
    var before := calls[..|calls| - 1];
    LoudOfPrefix(calls, i);
    forall j | i < j < |before| ensures !Loud(before, j) {
      LoudOfPrefix(calls, j);
    }
  }

  /** The reports after one more failure, loud or not. */
  lemma LastCallReports(calls: seq<Call>)
    requires calls != [] && Last(calls).Failure?
    ensures Loud(calls, |calls| - 1) ==>
              Reports(calls) != [] && Last(Reports(calls)).clock == KeptClock(calls, |calls| - 1)
    ensures !Loud(calls, |calls| - 1) ==> Reports(calls) == Reports(calls[..|calls| - 1])
  {
    assert calls[..|calls|] == calls;
    StreakRuns(calls[..|calls| - 1]);
  }

  lemma {:induction false} LastReportClock(calls: seq<Call>, i: nat)
    requires LastLoud(calls, i)
    ensures Reports(calls) != [] && Last(Reports(calls)).clock == KeptClock(calls, i)
  {
    LastCallReports(calls);
    if i < |calls| - 1 {
      LastLoudOfPrefix(calls, i);
      LastReportClock(calls[..|calls| - 1], i);
    }
  }

  /** The first failure of a streak is logged at Error; a later one at Error exactly if at least five minutes
      have passed since the last Error line's reading of the clock, else at Debug. */
  lemma FailureLine(calls: seq<Call>, i: nat, called: int, read: int, reread: int)
    ensures calls == [] || Last(calls).Success? ==>
              LineOf(calls + [Failure(called, read, reread)]) == Some(Line(ErrorLine, called))
    ensures LastLoud(calls, i) ==>
              LineOf(calls + [Failure(called, read, reread)]) ==
                Some(Line(if read - KeptClock(calls, i) >= 300_000_000_000 then ErrorLine else DebugLine, read))
  {
    var now := calls + [Failure(called, read, reread)];
    assert now[..|now| - 1] == calls;
    StreakRuns(calls);
    if LastLoud(calls, i) {
      LastReportClock(calls, i);
    }
  }

  /** A success is logged, at Info, exactly if a failure came right before it. */
  lemma SuccessLine(calls: seq<Call>, at: int)
    ensures LineOf(calls + [Success(at)]) ==
              if calls != [] && Last(calls).Failure? then Some(Line(InfoLine, at)) else None
  {
    assert (calls + [Success(at)])[..|calls|] == calls;
    StreakRuns(calls);
  }

  /** The log is those lines, call by call. */
  lemma LogGrows(calls: seq<Call>, call: Call)
    ensures Lines(calls + [call]) ==
              Lines(calls) + match LineOf(calls + [call]) case Some(l) => [l] case None => []
  {
    assert (calls + [call])[..|calls|] == calls;
  }
}
