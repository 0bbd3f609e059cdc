/** Power flow in arbitrary instruction lists, well-nested or not: power is never created. */
module LadderPower {
  import opened Machine
  import opened Tags
  import opened Plc
  import opened Ladder

  /** Power implies that the innermost open group was entered with power, a leg that conducted implies the
      same of its group, and a group entered with power lies in groups entered with power. */
  ghost predicate PowerInvariant(r: RungState) {
    && (r.power && r.stack != [] ==> r.Top().incoming)
    && (forall i :: 0 <= i < |r.stack| && r.stack[i].accumulated ==> r.stack[i].incoming)
    && (forall i, j :: 0 <= i <= j < |r.stack| && r.stack[j].incoming ==> r.stack[i].incoming)
  }

  lemma PowerInvariantStep(i: Instruction, dt: u64, r: RungState)
    requires PowerInvariant(r)
    ensures PowerInvariant(Execute(i, dt, r))
  {
    var r' := Execute(i, dt, r);
    if r.stack != [] && (i.BranchNext? || i.BranchEnd?) {
      assert forall k :: 0 <= k < |r.stack| - 1 ==> r'.stack[k] == r.stack[k];
      if r.Top().incoming && i.BranchEnd? && r'.stack != [] {
        assert r.stack[|r'.stack| - 1].incoming;
      }
    }
  }

  /** Every state a rung can reach, whatever its instructions, satisfies the power invariant. */
  lemma {:induction false} PowerInvariantHolds(code: seq<Instruction>, dt: u64, r: RungState)
    requires PowerInvariant(r)
    ensures PowerInvariant(ExecuteAll(code, dt, r))
  {
    if code != [] {
      PowerInvariantStep(code[0], dt, r);
      PowerInvariantHolds(code[1..], dt, Execute(code[0], dt, r));
    }
  }

  // ----- Regions without power -----

  /** The rung is inside a dead region: for d = 0 the rung itself lost power outside every group, for d > 0
      the d-th open group was entered without power. */
  ghost predicate Dark(r: RungState, d: nat) {
    && |r.stack| >= d
    && (if d > 0 then !r.stack[d - 1].incoming
        else if r.stack == [] then !r.power
        else !r.stack[0].incoming)
  }

  function NextDepth(i: Instruction, depth: nat): nat {
    if i.BranchStart? then depth + 1 else if i.BranchEnd? && depth > 0 then depth - 1 else depth
  }

  /** The code never closes the d-th group while running from the given depth. */
  predicate KeepsOpen(code: seq<Instruction>, depth: nat, d: nat) {
    depth >= d && (code == [] || KeepsOpen(code[1..], NextDepth(code[0], depth), d))
  }

  /** What code does where there is no power: output coils write FALSE, set and reset coils do nothing,
      timers tick. */
  function DarkEffect(code: seq<Instruction>, dt: u64, s: PlcState): PlcState {
    if code == [] then s else
      var s' :=
        match code[0]
        case OutputCoil(tag) => WriteTag(s, tag, Bool(false))
        case TimerOnDelay(name, enableTag, doneTag, presetMs) => TickTimer(s, name, enableTag, doneTag, presetMs, dt)
        case _ => s;
      DarkEffect(code[1..], dt, s')
  }

  lemma DarkHasNoPower(r: RungState, d: nat)
    requires PowerInvariant(r) && Dark(r, d)
    ensures !r.power
  {
  }

  lemma DarkStep(i: Instruction, dt: u64, r: RungState, d: nat)
    requires PowerInvariant(r) && Dark(r, d) && NextDepth(i, |r.stack|) >= d
    ensures var r' := Execute(i, dt, r); |r'.stack| == NextDepth(i, |r.stack|) && Dark(r', d)
  {
    DarkHasNoPower(r, d);
  }

  /** Inside a dead region, for as long as the dead group stays open, no power appears: nothing is set or
      reset and every output coil writes FALSE.  With d = 0 the region lasts to the end of the rung. */
  lemma {:induction false} DarkRun(code: seq<Instruction>, dt: u64, r: RungState, d: nat)
    requires PowerInvariant(r) && Dark(r, d) && KeepsOpen(code, |r.stack|, d)
    ensures var r' := ExecuteAll(code, dt, r);
            !r'.power && Dark(r', d) && r'.plc == DarkEffect(code, dt, r.plc)
  {
    DarkHasNoPower(r, d);
    if code != [] {
      PowerInvariantStep(code[0], dt, r);
      DarkStep(code[0], dt, r, d);
      DarkRun(code[1..], dt, Execute(code[0], dt, r), d);
    }
  }

  lemma {:induction false} RailStaysOpen(code: seq<Instruction>, depth: nat)
    ensures KeepsOpen(code, depth, 0)
  {
    if code != [] {
      RailStaysOpen(code[1..], NextDepth(code[0], depth));
    }
  }

  /** Once a rung has lost power outside every branch group, it never regains it: whatever follows. */
  lemma LostPowerStaysLost(before: seq<Instruction>, after: seq<Instruction>, dt: u64, s: PlcState)
    requires var r := ExecuteAll(before, dt, Fresh(s)); r.stack == [] && !r.power
    ensures var r, r' := ExecuteAll(before, dt, Fresh(s)), ExecuteAll(before + after, dt, Fresh(s));
            !r'.power && r'.plc == DarkEffect(after, dt, r.plc)
  {
    var r := ExecuteAll(before, dt, Fresh(s));
    PowerInvariantHolds(before, dt, Fresh(s));
    RailStaysOpen(after, 0);
    DarkRun(after, dt, r, 0);
    ExecuteAppend(before, after, dt, Fresh(s));
  }

  /** A group entered without power does nothing but clear outputs and tick timers until it is closed. */
  lemma DeadGroup(before: seq<Instruction>, inside: seq<Instruction>, dt: u64, s: PlcState)
    requires var r := ExecuteAll(before, dt, Fresh(s));
             !r.power && KeepsOpen(inside, |r.stack| + 1, |r.stack| + 1)
    ensures var r, r' := ExecuteAll(before, dt, Fresh(s)), ExecuteAll(before + [BranchStart] + inside, dt, Fresh(s));
            !r'.power && r'.plc == DarkEffect(inside, dt, r.plc)
  {
    var r := ExecuteAll(before, dt, Fresh(s));
    PowerInvariantHolds(before, dt, Fresh(s));
    var entered := Execute(BranchStart, dt, r);
    PowerInvariantStep(BranchStart, dt, r);
    DarkRun(inside, dt, entered, |r.stack| + 1);
    assert before + [BranchStart] + inside == before + ([BranchStart] + inside);
    ExecuteAppend(before, [BranchStart] + inside, dt, Fresh(s));
    assert ([BranchStart] + inside)[1..] == inside;
  }
}
