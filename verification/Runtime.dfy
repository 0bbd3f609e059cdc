/** The controller: lifecycle, client writes and forces, and scans, as a state machine over events and
    as the object that implements it. */
module Runtime {
  import opened Machine
  import opened Tags
  import opened Plc
  import opened StInterpreter
  import opened ScanEngine
  import opened Diagnostics
  import opened Project

  datatype Mode = Stopped | Running | Faulted(reason: string)

  /** `log` collects, in order, the errors that scans report. */
  datatype Controller = Controller(mode: Mode, plc: PlcState, periodMs: u64, stats: Stats, log: seq<StError>)

  /** A scan carries its measured duration in nanoseconds.  SetPeriod is a call to the scan engine itself. */
  datatype Event =
    | Start
    | Stop
    | Scan(elapsed: nat)
    | SetPeriod(periodMs: u64)
    | WriteBool(name: string, b: bool)
    | WriteF64(name: string, r: real)
    | ForceBool(name: string, b: bool)
    | Unforce(name: string)

  function Nanos(ms: u64): nat {
    ms * 1_000_000
  }

  /** A controller that has just loaded a project. */
  function Loaded(project: Project, log: seq<StError>): Controller {
    Controller(Stopped, PlcState(TagsOf(project.tags), map[]), project.scanPeriodMs,
               NewStats(Nanos(project.scanPeriodMs)), log)
  }

  function WithDb(c: Controller, db: Db): Controller {
    c.(plc := c.plc.(db := db))
  }

  /** One scan of a running controller. */
  function ScanOnce(elapsed: nat, programs: seq<Program>, c: Controller): Controller {
    var end := RunPrograms(programs, c.periodMs, c.plc);
    c.(plc := end.state, log := c.log + end.errors,
       stats := if end.Panicked() then c.stats else UpdateStats(c.stats, elapsed))
  }

  /** A scan, if one ran now, would end in a panic. */
  predicate WouldPanic(programs: seq<Program>, c: Controller) {
    RunPrograms(programs, c.periodMs, c.plc).Panicked()
  }

  function Handle(e: Event, programs: seq<Program>, c: Controller): Controller {
    match e
    case Start =>
      if c.mode.Running? then c
      else c.(mode := Running, plc := c.plc.(timers := map[]), stats := NewStats(Nanos(c.periodMs)))
    case Stop => c.(mode := Stopped)
    case Scan(elapsed) => if c.mode.Running? then ScanOnce(elapsed, programs, c) else c
    case SetPeriod(ms) => c.(periodMs := ms, stats := c.stats.(period := Nanos(ms)))
    case WriteBool(n, b) => WithDb(c, SetValue(c.plc.db, n, Bool(b)))
    case WriteF64(n, r) => WithDb(c, SetValue(c.plc.db, n, Float64(r)))
    case ForceBool(n, b) => WithDb(c, SetForce(c.plc.db, n, Some(Bool(b))))
    case Unforce(n) => WithDb(c, SetForce(c.plc.db, n, None))
  }

  /** A whole run: any events, in any order and number. */
  function HandleAll(events: seq<Event>, programs: seq<Program>, c: Controller): Controller {
    if events == [] then c else HandleAll(events[1..], programs, Handle(events[0], programs, c))
  }

  // ----- Scanning a number of times -----

  /** One scan for each duration; a panic ends the loop. */
  function ScanLoop(elapsed: seq<nat>, programs: seq<Program>, c: Controller): Controller {
    if elapsed == [] then c else
      var next := Handle(Scan(elapsed[0]), programs, c);
      if c.mode.Running? && WouldPanic(programs, c) then next else ScanLoop(elapsed[1..], programs, next)
  }

  function ScanEvents(elapsed: seq<nat>): seq<Event> {
    seq(|elapsed|, i requires 0 <= i < |elapsed| => Scan(elapsed[i]))
  }

  /** How many of the scans complete. */
  function CompletedScans(elapsed: seq<nat>, programs: seq<Program>, c: Controller): (k: nat)
    ensures k <= |elapsed|
  {
    if elapsed == [] || WouldPanic(programs, c) then 0
    else 1 + CompletedScans(elapsed[1..], programs, ScanOnce(elapsed[0], programs, c))
  }

  /** The controller after i scans. */
  function AfterScans(i: nat, elapsed: seq<nat>, programs: seq<Program>, c: Controller): Controller
    requires i <= |elapsed|
  {
    HandleAll(ScanEvents(elapsed[..i]), programs, c)
  }

  lemma AfterFirst(i: nat, elapsed: seq<nat>, programs: seq<Program>, c: Controller)
    requires 0 < i <= |elapsed| && c.mode.Running?
    ensures AfterScans(i, elapsed, programs, c)
         == AfterScans(i - 1, elapsed[1..], programs, ScanOnce(elapsed[0], programs, c))
  {
    assert elapsed[..i][1..] == elapsed[1..][..i - 1];
    assert ScanEvents(elapsed[..i])[1..] == ScanEvents(elapsed[1..][..i - 1]);
  }

  /** The loop is a run of scan events, up to and including the first that panics. */
  lemma {:induction false} ScanLoopIsRun(elapsed: seq<nat>, programs: seq<Program>, c: Controller)
    requires c.mode.Running?
    ensures var k := CompletedScans(elapsed, programs, c);
            && ScanLoop(elapsed, programs, c)
               == AfterScans(if k < |elapsed| then k + 1 else k, elapsed, programs, c)
            && (forall i :: 0 <= i < k ==> !WouldPanic(programs, AfterScans(i, elapsed, programs, c)))
            && (k < |elapsed| ==> WouldPanic(programs, AfterScans(k, elapsed, programs, c)))
  {
    var k := CompletedScans(elapsed, programs, c);
    if elapsed != [] {
      var next := ScanOnce(elapsed[0], programs, c);
      AfterFirst(1, elapsed, programs, c);
      if k > 0 {
        ScanLoopIsRun(elapsed[1..], programs, next);
        forall i | 0 < i <= |elapsed|
          ensures AfterScans(i, elapsed, programs, c) == AfterScans(i - 1, elapsed[1..], programs, next)
        {
          AfterFirst(i, elapsed, programs, c);
        }
      }
    }
  }

  lemma PrefixStep(times: seq<nat>, elapsed: seq<nat>, k: nat)
    requires 0 < k <= |elapsed|
    ensures times + elapsed[..k] == (times + [elapsed[0]]) + elapsed[1..][..k - 1]
  {
  }

  lemma NoPrefix(times: seq<nat>, elapsed: seq<nat>)
    ensures times + elapsed[..0] == times
    ensures [] + elapsed == elapsed
  {
  }

  /** Scanning extends the statistics by the durations of the scans that complete. */
  lemma {:induction false} StatsOfLoop(elapsed: seq<nat>, programs: seq<Program>, c: Controller, period: nat,
                                       times: seq<nat>)
    requires c.mode.Running? && c.stats == StatsAfter(period, times)
    ensures var completed := elapsed[..CompletedScans(elapsed, programs, c)];
            ScanLoop(elapsed, programs, c).stats == StatsAfter(period, times + completed)
  {
    var k := CompletedScans(elapsed, programs, c);
    if k == 0 {
      NoPrefix(times, elapsed);
    } else {
      var x := elapsed[0];
      StatsOfLoop(elapsed[1..], programs, ScanOnce(x, programs, c), period, times + [x]);
      PrefixStep(times, elapsed, k);
    }
  }

  /** The statistics of a loop that follows a fresh start. */
  lemma StatsFromStart(elapsed: seq<nat>, programs: seq<Program>, c: Controller)
    requires c.mode.Running? && c.stats == NewStats(Nanos(c.periodMs))
    ensures var completed := elapsed[..CompletedScans(elapsed, programs, c)];
            ScanLoop(elapsed, programs, c).stats == StatsAfter(Nanos(c.periodMs), completed)
  {
    StatsOfLoop(elapsed, programs, c, Nanos(c.periodMs), []);
    NoPrefix([], elapsed[..CompletedScans(elapsed, programs, c)]);
  }

  // ----- The controller as an object -----

  class Runtime {
    var mode: Mode
    var tags: TagDatabase
    var programs: seq<Program>
    var engine: Engine
    ghost var log: seq<StError>

    ghost function View(): Controller
      reads this, tags, engine, engine.table, engine.diagnostics
    {
      Controller(mode, PlcState(tags.tags, engine.table.timers), engine.scanPeriodMs, engine.diagnostics.View(), log)
    }

    constructor (scanPeriodMs: u64)
      ensures View() == Controller(Stopped, PlcState(map[], map[]), scanPeriodMs, NewStats(Nanos(scanPeriodMs)), [])
      ensures programs == []
      ensures fresh(tags) && fresh(engine) && fresh(engine.table) && fresh(engine.diagnostics)
    {
      mode := Stopped;
      tags := new TagDatabase();
      programs := [];
      engine := new Engine(scanPeriodMs);
      log := [];
    }

    /** Replaces tags, programs and engine, and stops. */
    method LoadProject(project: Project)
      modifies this
      ensures View() == Loaded(project, old(log)) && programs == ProgramsOf(project.programs)
      ensures fresh(tags) && fresh(engine) && fresh(engine.table) && fresh(engine.diagnostics)
    {
      tags := BuildTags(project.tags);
      programs := ProgramsOf(project.programs);
      engine := new Engine(project.scanPeriodMs);
      mode := Stopped;
    }

    method StartUp()
      modifies this, engine, engine.table
      ensures View() == Handle(Start, programs, old(View()))
      ensures tags == old(tags) && engine == old(engine) && programs == old(programs)
      ensures engine.diagnostics == old(engine.diagnostics) || fresh(engine.diagnostics)
    {
      if !mode.Running? {
        engine.Reset();
        mode := Running;
      }
    }

    method ShutDown()
      modifies this
      ensures View() == Handle(Stop, programs, old(View()))
      ensures tags == old(tags) && engine == old(engine) && programs == old(programs)
    {
      mode := Stopped;
    }

    /** One scan, if running; `elapsed` is its measured duration. */
    method ExecuteScan(elapsed: nat) returns (ran: bool, panicked: bool)
      modifies this, tags, engine, engine.table, engine.diagnostics
      ensures View() == Handle(Scan(elapsed), programs, old(View()))
      ensures ran == old(mode.Running?) && panicked == (ran && WouldPanic(programs, old(View())))
      ensures tags == old(tags) && engine == old(engine) && programs == old(programs)
      ensures engine.diagnostics == old(engine.diagnostics)
    {
      if !mode.Running? {
        return false, false;
      }
      var errors := engine.ExecuteScan(tags, programs, elapsed);
      log := log + errors;
      return true, AnyPanic(errors);
    }

    /** Starts if necessary, then scans |elapsed| times or until a panic.  If it had to start, the statistics are
        those of the scans that completed. */
    method RunScans(elapsed: seq<nat>)
      modifies this, tags, engine, engine.table, engine.diagnostics
      ensures var started := Handle(Start, programs, old(View()));
              && View() == ScanLoop(elapsed, programs, started)
              && (old(!mode.Running?) ==>
                    View().stats == StatsAfter(Nanos(old(engine.scanPeriodMs)),
                                               elapsed[..CompletedScans(elapsed, programs, started)]))
      ensures tags == old(tags) && engine == old(engine) && programs == old(programs)
    {
      StartUp();
      ghost var started := View();
      if old(!mode.Running?) {
        StatsFromStart(elapsed, programs, started);
      }
      for i := 0 to |elapsed|
        invariant ScanLoop(elapsed, programs, started) == ScanLoop(elapsed[i..], programs, View())
        invariant tags == old(tags) && engine == old(engine) && programs == old(programs)
        invariant engine.diagnostics == old(engine.diagnostics) || fresh(engine.diagnostics)
      {
        var _, panicked := ExecuteScan(elapsed[i]);
        if panicked {
          return;
        }
      }
    }

    method WriteBoolTag(name: string, b: bool)
      modifies tags
      ensures View() == Handle(WriteBool(name, b), programs, old(View()))
    {
      tags.WriteBool(name, b);
    }

    method WriteF64Tag(name: string, r: real)
      modifies tags
      ensures View() == Handle(WriteF64(name, r), programs, old(View()))
    {
      tags.WriteF64(name, r);
    }

    method ForceTag(name: string, b: bool)
      modifies tags
      ensures View() == Handle(ForceBool(name, b), programs, old(View()))
    {
      tags.ForceBool(name, b);
    }

    method UnforceTag(name: string)
      modifies tags
      ensures View() == Handle(Unforce(name), programs, old(View()))
    {
      tags.Unforce(name);
    }
  }
}
