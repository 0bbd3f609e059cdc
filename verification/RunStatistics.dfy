/** The scan-time statistics of whole runs: whatever happens between scans, they describe exactly the scans that
    completed since the controller was last started. */
module RunStatistics {
  import opened Diagnostics
  import opened ScanEngine
  import opened Runtime

  /** The durations the statistics should cover after one more event. */
  function Measured(e: Event, programs: seq<Program>, c: Controller, times: seq<nat>): seq<nat> {
    match e
    case Start => if c.mode.Running? then times else []
    case Scan(elapsed) => if c.mode.Running? && !WouldPanic(programs, c) then times + [elapsed] else times
    case _ => times
  }

  function MeasuredAll(events: seq<Event>, programs: seq<Program>, c: Controller, times: seq<nat>): seq<nat> {
    if events == [] then times
    else MeasuredAll(events[1..], programs, Handle(events[0], programs, c), Measured(events[0], programs, c, times))
  }

  /** The statistics of the given durations, whichever scan periods were in force when they were measured. */
  predicate Covers(s: Stats, times: seq<nat>) {
    s == StatsAfter(s.period, times).(overrun := s.overrun)
  }

  /** The period shows in no statistic but the overrun flag. */
  lemma {:induction false} PeriodApart(p: nat, q: nat, times: seq<nat>)
    ensures StatsAfter(q, times) == StatsAfter(p, times).(period := q, overrun := StatsAfter(q, times).overrun)
  {
    if times != [] {
      PeriodApart(p, q, times[..|times| - 1]);
    }
  }

  lemma CoversAnyPeriod(s: Stats, times: seq<nat>, q: nat)
    requires Covers(s, times)
    ensures Covers(s.(period := q), times)
  {
    PeriodApart(s.period, q, times);
  }

  predicate Consistent(c: Controller, times: seq<nat>) {
    c.stats.period == Nanos(c.periodMs) && Covers(c.stats, times)
  }

  lemma {:induction false} EventConsistent(e: Event, programs: seq<Program>, c: Controller, times: seq<nat>)
    requires Consistent(c, times)
    ensures Consistent(Handle(e, programs, c), Measured(e, programs, c, times))
  {
    match e
    case Scan(elapsed) =>
    case SetPeriod(ms) => CoversAnyPeriod(c.stats, times, Nanos(ms));
    case _ =>
  }

  lemma {:induction false} RunConsistent(events: seq<Event>, programs: seq<Program>, c: Controller, times: seq<nat>)
    requires Consistent(c, times)
    ensures Consistent(HandleAll(events, programs, c), MeasuredAll(events, programs, c, times))
  {
    if events != [] {
      var c', times' := Handle(events[0], programs, c), Measured(events[0], programs, c, times);
      EventConsistent(events[0], programs, c, times);
      RunConsistent(events[1..], programs, c', times');
    }
  }

  /** After any run of a freshly loaded controller the statistics are those of the scans completed since the last start:
      exact count, last, least and greatest time, and an average that lies between them and falls short of the true
      mean by at most (n - 1) / 2 nanoseconds. */
  lemma StatisticsOfRun(events: seq<Event>, programs: seq<Program>, c: Controller)
    requires c.stats == NewStats(Nanos(c.periodMs))
    ensures var s, times := HandleAll(events, programs, c).stats, MeasuredAll(events, programs, c, []);
            var n := |times|;
            Fits(times) && n > 0 ==>
              && s.count == n && s.last == times[n - 1] && IsLeast(s.min, times) && IsGreatest(s.max, times)
              && s.min <= s.avg <= s.max
              && 0 <= Total(times) - n * s.avg && 2 * (Total(times) - n * s.avg) <= n * (n - 1)
  {
    RunConsistent(events, programs, c, []);
    var s, times := HandleAll(events, programs, c).stats, MeasuredAll(events, programs, c, []);
    if Fits(times) && times != [] {
      ExtremaExact(s.period, times);
      AverageBetweenExtrema(s.period, times);
      AverageDrift(s.period, times);
    }
  }
}
