/** The scan cycle: programs in several languages run one after another on shared tags and timers. */
module ScanEngine {
  import opened Machine
  import opened Tags
  import opened Plc
  import opened StAst
  import opened StInterpreter
  import opened StInvariants
  import opened Ladder
  import opened Diagnostics

  datatype Language =
    | LadderLogic | StructuredText | FunctionBlockDiagram | SequentialFunctionChart | InternalInstructions

  datatype Rung = Rung(comment: string, instructions: seq<Instruction>)

  datatype Program = Program(name: string, language: Language, rungs: seq<Rung>, stAst: seq<StStatement>, enabled: bool)

  predicate AnyPanic(errors: seq<StError>) {
    exists e :: e in errors && e.IsPanic()
  }

  /** How a program, or a pass over programs, ended: the state, and the errors reported on the way. */
  datatype PassEnd = PassEnd(state: PlcState, errors: seq<StError>) {
    predicate Panicked() {
      AnyPanic(errors)
    }
  }

  function RunRungs(rungs: seq<Rung>, dt: u64, s: PlcState): PlcState {
    if rungs == [] then s else RunRungs(rungs[1..], dt, ExecuteAll(rungs[0].instructions, dt, Fresh(s)).plc)
  }

  /** Structured Text programs run their statements; every other language runs its rungs. */
  function RunProgram(p: Program, dt: u64, s: PlcState): PassEnd {
    if !p.enabled then PassEnd(s, [])
    else if p.language.StructuredText? then
      var o := ExecStatements(p.stAst, dt, s);
      PassEnd(o.state, if o.error.Some? then [o.error.value] else [])
    else PassEnd(RunRungs(p.rungs, dt, s), [])
  }

  /** The end of a pass, seen from before earlier programs reported errors. */
  function Continue(errors: seq<StError>, end: PassEnd): PassEnd {
    PassEnd(end.state, errors + end.errors)
  }

  /** An error in one program does not keep the next from running; a panic ends the scan. */
  function RunPrograms(ps: seq<Program>, dt: u64, s: PlcState): PassEnd {
    if ps == [] then PassEnd(s, []) else
      var first := RunProgram(ps[0], dt, s);
      if first.Panicked() then first else
        var rest := RunPrograms(ps[1..], dt, first.state);
        Continue(first.errors, rest)
  }

  // ----- Footprints -----

  function RungsFootprint(rungs: seq<Rung>): Footprint {
    if rungs == [] then Footprint({}, {}, {})
    else CodeFootprint(rungs[0].instructions).Union(RungsFootprint(rungs[1..]))
  }

  function ProgramFootprint(p: Program): Footprint {
    if !p.enabled then Footprint({}, {}, {})
    else if p.language.StructuredText? then FootprintOf(p.stAst)
    else RungsFootprint(p.rungs)
  }

  lemma {:induction false} RungsFrame(rungs: seq<Rung>, dt: u64, s0: PlcState, s: PlcState, tags: set<string>,
                                      timers: set<string>)
    requires Framed(s0, s, tags, timers)
    requires RungsFootprint(rungs).written <= tags && RungsFootprint(rungs).timers <= timers
    ensures Framed(s0, RunRungs(rungs, dt, s), tags, timers)
  {
    if rungs != [] {
      CodeFrame(rungs[0].instructions, dt, s0, Fresh(s), tags, timers);
      RungsFrame(rungs[1..], dt, s0, ExecuteAll(rungs[0].instructions, dt, Fresh(s)).plc, tags, timers);
    }
  }

  /** Frame theorem for programs of any language: only the values of written tags and the called timers may
      change.  In particular logic never changes a force. */
  lemma ProgramFrame(p: Program, dt: u64, s: PlcState)
    ensures Framed(s, RunProgram(p, dt, s).state, ProgramFootprint(p).written, ProgramFootprint(p).timers)
  {
    if p.enabled {
      if p.language.StructuredText? {
        RunFrame(p.stAst, dt, s);
      } else {
        var f := RungsFootprint(p.rungs);
        RungsFrame(p.rungs, dt, s, s, f.written, f.timers);
      }
    }
  }

  // ----- The engine as an object -----

  class Engine {
    const table: TimerTable
    var diagnostics: ScanDiagnostics
    var scanPeriodMs: u64

    constructor (scanPeriodMs: u64)
      ensures fresh(table) && fresh(diagnostics)
      ensures table.timers == map[] && this.scanPeriodMs == scanPeriodMs
      ensures diagnostics.View() == NewStats(scanPeriodMs * 1_000_000)
    {
      table := new TimerTable();
      diagnostics := new ScanDiagnostics(scanPeriodMs * 1_000_000);
      this.scanPeriodMs := scanPeriodMs;
    }

    /** Runs every enabled program once; `elapsed` is the measured duration of the scan. */
    method ExecuteScan(db: TagDatabase, programs: seq<Program>, elapsed: nat) returns (errors: seq<StError>)
      modifies this, table, db, diagnostics
      ensures var end := RunPrograms(programs, scanPeriodMs, old(PlcState(db.tags, table.timers)));
              && PassEnd(PlcState(db.tags, table.timers), errors) == end
              && diagnostics.View() ==
                   (if end.Panicked() then old(diagnostics.View()) else UpdateStats(old(diagnostics.View()), elapsed))
      ensures diagnostics == old(diagnostics) && scanPeriodMs == old(scanPeriodMs)
    {
      errors := ExecutePrograms(db, programs);
      if !AnyPanic(errors) {
        diagnostics.Update(elapsed);
      }
    }

    /** The pass over the programs, which a panic ends. */
    method ExecutePrograms(db: TagDatabase, programs: seq<Program>) returns (errors: seq<StError>)
      modifies table, db
      ensures PassEnd(PlcState(db.tags, table.timers), errors)
           == RunPrograms(programs, scanPeriodMs, old(PlcState(db.tags, table.timers)))
    {
      errors := [];
      ghost var pass := RunPrograms(programs, scanPeriodMs, PlcState(db.tags, table.timers));
      for i := 0 to |programs|
        invariant pass == Continue(errors, RunPrograms(programs[i..], scanPeriodMs, PlcState(db.tags, table.timers)))
        invariant !AnyPanic(errors)
      {
        var reported := ExecuteProgram(db, programs[i]);
        errors := errors + reported;
        if AnyPanic(reported) {
          return;
        }
      }
      assert errors + [] == errors;
    }

    method ExecuteProgram(db: TagDatabase, p: Program) returns (errors: seq<StError>)
      modifies table, db
      ensures PassEnd(PlcState(db.tags, table.timers), errors)
           == RunProgram(p, scanPeriodMs, old(PlcState(db.tags, table.timers)))
    {
      errors := [];
      if !p.enabled {
        return;
      }
      if p.language.StructuredText? {
        var interpreter := new Interpreter(db, table, scanPeriodMs);
        var err, _ := interpreter.ExecuteStatements(p.stAst);
        if err.Some? {
          errors := [err.value];
        }
      } else {
        for i := 0 to |p.rungs|
          invariant RunRungs(p.rungs, scanPeriodMs, old(PlcState(db.tags, table.timers)))
                 == RunRungs(p.rungs[i..], scanPeriodMs, PlcState(db.tags, table.timers))
        {
          var _ := ExecuteRung(p.rungs[i].instructions, db, table, scanPeriodMs);
        }
      }
    }

    method SetScanPeriod(periodMs: u64)
      modifies this, diagnostics
      ensures scanPeriodMs == periodMs && diagnostics == old(diagnostics)
      ensures diagnostics.View() == old(diagnostics.View()).(period := periodMs * 1_000_000)
    {
      scanPeriodMs := periodMs;
      diagnostics.scanPeriod := periodMs * 1_000_000;
    }

    /** Forgets every timer and starts fresh diagnostics. */
    method Reset()
      modifies this, table
      ensures table.timers == map[] && scanPeriodMs == old(scanPeriodMs)
      ensures fresh(diagnostics) && diagnostics.View() == NewStats(scanPeriodMs * 1_000_000)
    {
      table.Clear();
      diagnostics := new ScanDiagnostics(scanPeriodMs * 1_000_000);
    }
  }
}
