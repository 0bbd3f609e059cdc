/** Ladder rungs: a linear instruction list run against a stack of branch frames. */
module Ladder {
  import opened Machine
  import opened Tags
  import opened Timers
  import opened Plc

  datatype Instruction =
    | ExamineOpen(tag: string)
    | ExamineClosed(tag: string)
    | OutputCoil(tag: string)
    | SetCoil(tag: string)
    | ResetCoil(tag: string)
    | BranchStart
    | BranchNext
    | BranchEnd
    | TimerOnDelay(timerName: string, enableTag: string, doneTag: string, presetMs: u64)
  {
    predicate IsBranch() {
      BranchStart? || BranchNext? || BranchEnd?
    }
  }

  /** An open branch group: the power that entered it, and the OR of the legs finished so far. */
  datatype BranchFrame = BranchFrame(incoming: bool, accumulated: bool)

  datatype RungState = RungState(power: bool, stack: seq<BranchFrame>, plc: PlcState) {
    function Top(): BranchFrame
      requires stack != []
    {
      stack[|stack| - 1]
    }

    function Below(): seq<BranchFrame>
      requires stack != []
    {
      stack[..|stack| - 1]
    }
  }

  /** The timer keeps the preset it was created with, and ignores the power of the rung. */
  function TickTimer(s: PlcState, name: string, enableTag: string, doneTag: string, presetMs: u64, dt: u64): PlcState {
    var t := if name in s.timers then s.timers[name] else NewTon(presetMs);
    var t' := UpdateTon(t, ReadBool(s.db, enableTag), dt);
    PlcState(SetValue(s.db, doneTag, Bool(t'.done)), s.timers[name := t'])
  }

  function Execute(i: Instruction, dt: u64, r: RungState): RungState {
    match i
    case ExamineOpen(tag) => r.(power := r.power && ReadBool(r.plc.db, tag))
    case ExamineClosed(tag) => r.(power := r.power && !ReadBool(r.plc.db, tag))
    case OutputCoil(tag) => r.(plc := WriteTag(r.plc, tag, Bool(r.power)))
    case SetCoil(tag) => if r.power then r.(plc := WriteTag(r.plc, tag, Bool(true))) else r
    case ResetCoil(tag) => if r.power then r.(plc := WriteTag(r.plc, tag, Bool(false))) else r
    case BranchStart => r.(stack := r.stack + [BranchFrame(r.power, false)])
    case BranchNext =>
      if r.stack == [] then r else
        var f := r.Top();
        r.(power := f.incoming, stack := r.Below() + [f.(accumulated := f.accumulated || r.power)])
    case BranchEnd =>
      if r.stack == [] then r else
        r.(power := r.Top().accumulated || r.power, stack := r.Below())
    case TimerOnDelay(name, enableTag, doneTag, presetMs) =>
      r.(plc := TickTimer(r.plc, name, enableTag, doneTag, presetMs, dt))
  }

  function ExecuteAll(code: seq<Instruction>, dt: u64, r: RungState): RungState {
    if code == [] then r else ExecuteAll(code[1..], dt, Execute(code[0], dt, r))
  }

  function Fresh(s: PlcState): RungState {
    RungState(true, [], s)
  }

  lemma {:induction false} ExecuteAppend(a: seq<Instruction>, b: seq<Instruction>, dt: u64, r: RungState)
    ensures ExecuteAll(a + b, dt, r) == ExecuteAll(b, dt, ExecuteAll(a, dt, r))
  {
    if a == [] {
      assert a + b == b;
    } else {
      assert (a + b)[1..] == a[1..] + b;
      ExecuteAppend(a[1..], b, dt, Execute(a[0], dt, r));
    }
  }

  /** Runs one rung in place and returns its final continuity. */
  method ExecuteRung(code: seq<Instruction>, db: TagDatabase, table: TimerTable, dt: u64) returns (power: bool)
    modifies db, table
    ensures var r := ExecuteAll(code, dt, Fresh(PlcState(old(db.tags), old(table.timers))));
            power == r.power && PlcState(db.tags, table.timers) == r.plc
  {
    power := true;
    var stack: seq<BranchFrame> := [];
    for i := 0 to |code|
      invariant ExecuteAll(code, dt, Fresh(PlcState(old(db.tags), old(table.timers))))
             == ExecuteAll(code[i..], dt, RungState(power, stack, PlcState(db.tags, table.timers)))
    {
      ghost var r := RungState(power, stack, PlcState(db.tags, table.timers));
      match code[i] {
        case ExamineOpen(tag) =>
          var v := ReadBool(db.tags, tag);
          power := power && v;
        case ExamineClosed(tag) =>
          var v := ReadBool(db.tags, tag);
          power := power && !v;
        case OutputCoil(tag) =>
          db.WriteBool(tag, power);
        case SetCoil(tag) =>
          if power {
            db.WriteBool(tag, true);
          }
        case ResetCoil(tag) =>
          if power {
            db.WriteBool(tag, false);
          }
        case BranchStart =>
          stack := stack + [BranchFrame(power, false)];
        case BranchNext =>
          if stack != [] {
            var top := stack[|stack| - 1];
            stack := stack[..|stack| - 1] + [top.(accumulated := top.accumulated || power)];
            power := top.incoming;
          }
        case BranchEnd =>
          if stack != [] {
            var top := stack[|stack| - 1];
            stack := stack[..|stack| - 1];
            power := top.accumulated || power;
          }
        case TimerOnDelay(name, enableTag, doneTag, presetMs) =>
          var enable := ReadBool(db.tags, enableTag);
          var t := if name in table.timers then table.timers[name] else NewTon(presetMs);
          t := UpdateTon(t, enable, dt);
          table.timers := table.timers[name := t];
          db.WriteBool(doneTag, t.done);
      }
      assert RungState(power, stack, PlcState(db.tags, table.timers)) == Execute(code[i], dt, r);
      assert code[i..][1..] == code[i + 1..];
    }
  }

  // ----- Footprint and frame -----

  function InstructionFootprint(i: Instruction): Footprint {
    match i
    case ExamineOpen(tag) => Reading({tag})
    case ExamineClosed(tag) => Reading({tag})
    case OutputCoil(tag) => Footprint({}, {tag}, {})
    case SetCoil(tag) => Footprint({}, {tag}, {})
    case ResetCoil(tag) => Footprint({}, {tag}, {})
    case TimerOnDelay(name, enableTag, doneTag, _) => Footprint({enableTag}, {doneTag}, {name})
    case _ => Footprint({}, {}, {})
  }

  function CodeFootprint(code: seq<Instruction>): Footprint {
    if code == [] then Footprint({}, {}, {}) else InstructionFootprint(code[0]).Union(CodeFootprint(code[1..]))
  }

  /** A rung changes at most the values of the tags its coils and timers name, and those timers. */
  lemma {:induction false} CodeFrame(code: seq<Instruction>, dt: u64, s0: PlcState, r: RungState,
                                     tags: set<string>, timers: set<string>)
    requires Framed(s0, r.plc, tags, timers)
    requires CodeFootprint(code).written <= tags && CodeFootprint(code).timers <= timers
    ensures Framed(s0, ExecuteAll(code, dt, r).plc, tags, timers)
  {
    if code != [] {
      InstructionFrame(code[0], dt, s0, r, tags, timers);
      CodeFrame(code[1..], dt, s0, Execute(code[0], dt, r), tags, timers);
    }
  }

  lemma InstructionFrame(i: Instruction, dt: u64, s0: PlcState, r: RungState, tags: set<string>, timers: set<string>)
    requires Framed(s0, r.plc, tags, timers)
    requires InstructionFootprint(i).written <= tags && InstructionFootprint(i).timers <= timers
    ensures Framed(s0, Execute(i, dt, r).plc, tags, timers)
  {
    match i
    case OutputCoil(tag) => FramedWrite(s0, r.plc, tags, timers, tag, Bool(r.power));
    case SetCoil(tag) => FramedWrite(s0, r.plc, tags, timers, tag, Bool(true));
    case ResetCoil(tag) => FramedWrite(s0, r.plc, tags, timers, tag, Bool(false));
    case TimerOnDelay(name, _, doneTag, _) =>
      var ticked := Execute(i, dt, r).plc.timers[name];
      FramedWrite(s0, r.plc, tags, timers, doneTag, Bool(ticked.done));
    case _ =>
  }
}
