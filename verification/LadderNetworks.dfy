/** Series-parallel networks, their meaning, and their encoding as instruction lists. */
module LadderNetworks {
  import opened Machine
  import opened Tags
  import opened Plc
  import opened Ladder

  /** A contact, coil or timer in series, or a group of parallel legs. */
  datatype Element = Single(instr: Instruction) | Parallel(legs: seq<Leg>)

  datatype Leg = Leg(elements: seq<Element>)

  predicate IsNetwork(elements: seq<Element>) {
    elements == [] || (IsElement(elements[0]) && IsNetwork(elements[1..]))
  }

  predicate IsElement(e: Element) {
    match e
    case Single(i) => !i.IsBranch()
    case Parallel(legs) => legs != [] && AreLegs(legs)
  }

  predicate AreLegs(legs: seq<Leg>) {
    legs == [] || (IsNetwork(legs[0].elements) && AreLegs(legs[1..]))
  }

  // ----- Encoding -----

  function Flatten(elements: seq<Element>): seq<Instruction> {
    if elements == [] then [] else FlattenElement(elements[0]) + Flatten(elements[1..])
  }

  function FlattenElement(e: Element): seq<Instruction> {
    match e
    case Single(i) => [i]
    case Parallel(legs) => [BranchStart] + FlattenLegs(legs)
  }

  function FlattenLegs(legs: seq<Leg>): seq<Instruction> {
    if legs == [] then []
    else Flatten(legs[0].elements)
         + (if |legs| == 1 then [BranchEnd] else [BranchNext] + FlattenLegs(legs[1..]))
  }

  // ----- Meaning -----

  /** The power leaving a piece of network, and the state it leaves behind. */
  datatype Flow = Flow(power: bool, plc: PlcState)

  function Series(elements: seq<Element>, dt: u64, f: Flow): Flow {
    if elements == [] then f else Series(elements[1..], dt, ElementFlow(elements[0], dt, f))
  }

  function ElementFlow(e: Element, dt: u64, f: Flow): Flow {
    match e
    case Parallel(legs) => LegsFlow(legs, dt, f)
    case Single(i) =>
      match i
      case ExamineOpen(tag) => f.(power := f.power && ReadBool(f.plc.db, tag))
      case ExamineClosed(tag) => f.(power := f.power && !ReadBool(f.plc.db, tag))
      case OutputCoil(tag) => f.(plc := WriteTag(f.plc, tag, Bool(f.power)))
      case SetCoil(tag) => if f.power then f.(plc := WriteTag(f.plc, tag, Bool(true))) else f
      case ResetCoil(tag) => if f.power then f.(plc := WriteTag(f.plc, tag, Bool(false))) else f
      case TimerOnDelay(name, enableTag, doneTag, presetMs) =>
        f.(plc := TickTimer(f.plc, name, enableTag, doneTag, presetMs, dt))
      case _ => f
  }

  /** Every leg sees the power that enters the group; the state is threaded from leg to leg; the group
      conducts when some leg does. */
  function LegsFlow(legs: seq<Leg>, dt: u64, f: Flow): Flow {
    if legs == [] then f.(power := false) else
      var first := Series(legs[0].elements, dt, f);
      var rest := LegsFlow(legs[1..], dt, f.(plc := first.plc));
      rest.(power := first.power || rest.power)
  }

  // ----- The stack machine computes the meaning -----

  /** Running the encoding of a network from any power, stack and state leaves the stack as it was and
      produces exactly the network's power and state. */
  lemma {:induction false} FlattenCorrect(elements: seq<Element>, dt: u64, r: RungState)
    requires IsNetwork(elements)
    ensures var f := Series(elements, dt, Flow(r.power, r.plc));
            ExecuteAll(Flatten(elements), dt, r) == RungState(f.power, r.stack, f.plc)
    decreases elements, 1
  {
    if elements != [] {
      var e := elements[0];
      ExecuteAppend(FlattenElement(e), Flatten(elements[1..]), dt, r);
      ElementCorrect(e, dt, r);
      FlattenCorrect(elements[1..], dt, ExecuteAll(FlattenElement(e), dt, r));
    }
  }

  lemma {:induction false} ElementCorrect(e: Element, dt: u64, r: RungState)
    requires IsElement(e)
    ensures var f := ElementFlow(e, dt, Flow(r.power, r.plc));
            ExecuteAll(FlattenElement(e), dt, r) == RungState(f.power, r.stack, f.plc)
    decreases e, 1
  {
    match e
    case Single(i) =>
      ExecuteFirst(i, [], dt, r);
      assert [i] + [] == [i];
    case Parallel(legs) =>
      var inside := r.(stack := r.stack + [BranchFrame(r.power, false)]);
      ExecuteFirst(BranchStart, FlattenLegs(legs), dt, r);
      assert inside.Below() == r.stack;
      LegsCorrect(legs, dt, inside);
  }

  lemma {:induction false} LegsCorrect(legs: seq<Leg>, dt: u64, r: RungState)
    requires legs != [] && AreLegs(legs)
    requires r.stack != [] && r.power == r.Top().incoming
    ensures var f := LegsFlow(legs, dt, Flow(r.power, r.plc));
            ExecuteAll(FlattenLegs(legs), dt, r) == RungState(r.Top().accumulated || f.power, r.Below(), f.plc)
    decreases legs, 1
  {
    var leg := Flatten(legs[0].elements);
    FlattenCorrect(legs[0].elements, dt, r);
    var after := ExecuteAll(leg, dt, r);
    if |legs| == 1 {
      ExecuteAppend(leg, [BranchEnd], dt, r);
      ExecuteFirst(BranchEnd, [], dt, after);
      assert [BranchEnd] + [] == [BranchEnd];
      LastLeg(legs, dt, Flow(r.power, r.plc));
    } else {
      ExecuteAppend(leg, [BranchNext] + FlattenLegs(legs[1..]), dt, r);
      ExecuteFirst(BranchNext, FlattenLegs(legs[1..]), dt, after);
      var next := Execute(BranchNext, dt, after);
      assert next.Below() == r.Below();
      LegsCorrect(legs[1..], dt, next);
    }
  }

  lemma ExecuteFirst(i: Instruction, code: seq<Instruction>, dt: u64, r: RungState)
    ensures ExecuteAll([i] + code, dt, r) == ExecuteAll(code, dt, Execute(i, dt, r))
  {
    assert ([i] + code)[1..] == code;
  }

  lemma LastLeg(legs: seq<Leg>, dt: u64, f: Flow)
    requires |legs| == 1
    ensures LegsFlow(legs, dt, f) == Series(legs[0].elements, dt, f)
  {
    assert legs[1..] == [];
  }

  // ----- Every well-nested rung is a network -----

  /** Branch instructions match up: every BranchNext and BranchEnd lies in an open group, and every group
      is closed. */
  predicate WellNested(code: seq<Instruction>, depth: nat) {
    if code == [] then depth == 0 else
      match code[0]
      case BranchStart => WellNested(code[1..], depth + 1)
      case BranchNext => depth > 0 && WellNested(code[1..], depth)
      case BranchEnd => depth > 0 && WellNested(code[1..], depth - 1)
      case _ => WellNested(code[1..], depth)
  }

  lemma {:induction false} FlattenNested(elements: seq<Element>, rest: seq<Instruction>, depth: nat)
    requires IsNetwork(elements)
    ensures WellNested(Flatten(elements) + rest, depth) == WellNested(rest, depth)
    decreases elements, 1
  {
    if elements == [] {
      assert Flatten(elements) + rest == rest;
    } else {
      var tail := Flatten(elements[1..]) + rest;
      assert Flatten(elements) + rest == FlattenElement(elements[0]) + tail;
      ElementNested(elements[0], tail, depth);
      FlattenNested(elements[1..], rest, depth);
    }
  }

  lemma {:induction false} ElementNested(e: Element, rest: seq<Instruction>, depth: nat)
    requires IsElement(e)
    ensures WellNested(FlattenElement(e) + rest, depth) == WellNested(rest, depth)
    decreases e, 1
  {
    match e
    case Single(i) => NestedFirst(i, rest, depth);
    case Parallel(legs) =>
      assert FlattenElement(e) + rest == [BranchStart] + (FlattenLegs(legs) + rest);
      NestedFirst(BranchStart, FlattenLegs(legs) + rest, depth);
      LegsNested(legs, rest, depth + 1);
  }

  /** What follows the first leg of a group. */
  function Closing(legs: seq<Leg>): seq<Instruction>
    requires legs != []
  {
    if |legs| == 1 then [BranchEnd] else [BranchNext] + FlattenLegs(legs[1..])
  }

  lemma LegsText(legs: seq<Leg>, rest: seq<Instruction>)
    requires legs != []
    ensures FlattenLegs(legs) + rest == Flatten(legs[0].elements) + (Closing(legs) + rest)
  {
  }

  lemma NestedAfterLeg(legs: seq<Leg>, rest: seq<Instruction>, depth: nat)
    requires legs != [] && depth > 0
    ensures WellNested(Closing(legs) + rest, depth) ==
              if |legs| == 1 then WellNested(rest, depth - 1) else WellNested(FlattenLegs(legs[1..]) + rest, depth)
  {
    if |legs| == 1 {
      NestedFirst(BranchEnd, rest, depth);
    } else {
      var more := FlattenLegs(legs[1..]) + rest;
      assert Closing(legs) + rest == [BranchNext] + more;
      NestedFirst(BranchNext, more, depth);
    }
  }

  lemma NestedFirst(i: Instruction, code: seq<Instruction>, depth: nat)
    ensures WellNested([i] + code, depth) ==
              match i
              case BranchStart => WellNested(code, depth + 1)
              case BranchNext => depth > 0 && WellNested(code, depth)
              case BranchEnd => depth > 0 && WellNested(code, depth - 1)
              case _ => WellNested(code, depth)
  {
    assert ([i] + code)[1..] == code;
  }

  lemma {:induction false} LegsNested(legs: seq<Leg>, rest: seq<Instruction>, depth: nat)
    requires depth > 0 && legs != [] && AreLegs(legs)
    ensures WellNested(FlattenLegs(legs) + rest, depth) == WellNested(rest, depth - 1)
    decreases legs, 1
  {
    LegsText(legs, rest);
    FlattenNested(legs[0].elements, Closing(legs) + rest, depth);
    NestedAfterLeg(legs, rest, depth);
    if |legs| > 1 {
      LegsNested(legs[1..], rest, depth);
    }
  }

  lemma PrependElement(e: Element, others: seq<Element>, tail: seq<Instruction>, rest: seq<Instruction>)
    requires IsElement(e) && IsNetwork(others) && Flatten(others) + rest == tail
    ensures IsNetwork([e] + others) && Flatten([e] + others) + rest == FlattenElement(e) + tail
  {
    assert ([e] + others)[1..] == others;
  }

  lemma PrependLeg(leg: seq<Element>, others: seq<Leg>, after: seq<Instruction>, rest: seq<Instruction>)
    requires IsNetwork(leg) && others != [] && AreLegs(others) && FlattenLegs(others) + rest == after
    ensures AreLegs([Leg(leg)] + others)
    ensures FlattenLegs([Leg(leg)] + others) + rest == Flatten(leg) + ([BranchNext] + after)
  {
    assert ([Leg(leg)] + others)[1..] == others;
  }

  lemma LastLegText(leg: seq<Element>, rest: seq<Instruction>)
    requires IsNetwork(leg)
    ensures AreLegs([Leg(leg)]) && FlattenLegs([Leg(leg)]) + rest == Flatten(leg) + ([BranchEnd] + rest)
  {
    assert [Leg(leg)][1..] == [];
  }

  lemma Uncons(code: seq<Instruction>)
    requires code != []
    ensures code == [code[0]] + code[1..]
  {
  }

  /** Reads back the longest series at the front of a well-nested list. */
  lemma {:induction false} Decode(code: seq<Instruction>, depth: nat)
    returns (elements: seq<Element>, rest: seq<Instruction>)
    requires WellNested(code, depth)
    ensures IsNetwork(elements) && Flatten(elements) + rest == code
    ensures WellNested(rest, depth)
    ensures rest != [] ==> rest[0].BranchNext? || rest[0].BranchEnd?
    ensures |rest| <= |code|
    decreases |code|, 0
  {
    if code == [] || code[0].BranchNext? || code[0].BranchEnd? {
      return [], code;
    }
    Uncons(code);
    var head, tail;
    if code[0].BranchStart? {
      var legs;
      legs, tail := DecodeLegs(code[1..], depth + 1);
      head := Parallel(legs);
    } else {
      head, tail := Single(code[0]), code[1..];
    }
    var others;
    others, rest := Decode(tail, depth);
    elements := [head] + others;
    PrependElement(head, others, tail, rest);
    Joined(head, tail, code);
  }

  lemma Joined(head: Element, tail: seq<Instruction>, code: seq<Instruction>)
    requires code != []
    requires head.Single? ==> head.instr == code[0] && tail == code[1..]
    requires head.Parallel? ==> code[0] == BranchStart && FlattenLegs(head.legs) + tail == code[1..]
    ensures FlattenElement(head) + tail == code
  {
  }

  lemma {:induction false} DecodeLegs(code: seq<Instruction>, depth: nat)
    returns (legs: seq<Leg>, rest: seq<Instruction>)
    requires depth > 0 && WellNested(code, depth)
    ensures legs != [] && AreLegs(legs) && FlattenLegs(legs) + rest == code
    ensures WellNested(rest, depth - 1)
    ensures |rest| < |code|
    decreases |code|, 1
  {
    var leg, after := Decode(code, depth);
    Uncons(after);
    if after[0].BranchEnd? {
      legs, rest := [Leg(leg)], after[1..];
      LastLegText(leg, rest);
    } else {
      var others;
      others, rest := DecodeLegs(after[1..], depth);
      legs := [Leg(leg)] + others;
      PrependLeg(leg, others, after[1..], rest);
    }
  }

  /** The networks are exactly the well-nested instruction lists, so a well-nested rung always ends with
      an empty stack and has the meaning of a network. */
  lemma WellNestedIsNetwork(code: seq<Instruction>)
    ensures WellNested(code, 0) <==> exists n :: IsNetwork(n) && Flatten(n) == code
  {
    if WellNested(code, 0) {
      var n, rest := Decode(code, 0);
      assert Flatten(n) == code;
    }
    forall n | IsNetwork(n) && Flatten(n) == code ensures WellNested(code, 0) {
      FlattenNested(n, [], 0);
      assert Flatten(n) + [] == code;
    }
  }

  lemma NestedRungMeaning(code: seq<Instruction>, dt: u64, s: PlcState) returns (n: seq<Element>)
    requires WellNested(code, 0)
    ensures IsNetwork(n) && Flatten(n) == code
    ensures var f := Series(n, dt, Flow(true, s));
            ExecuteAll(code, dt, Fresh(s)) == RungState(f.power, [], f.plc)
  {
    var rest;
    n, rest := Decode(code, 0);
    assert Flatten(n) == code;
    FlattenCorrect(n, dt, Fresh(s));
  }
}
