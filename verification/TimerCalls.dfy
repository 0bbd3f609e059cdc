/** Timers as programs use them: the history of calls to one named timer determines its output tag. */
module TimerCalls {
  import opened Machine
  import opened Tags
  import opened Timers
  import opened Plc
  import opened StInterpreter
  import opened Ladder

  /** Function-block calls of one timer, one after the other, with anything happening to the tags in between. */
  function CallAll(s: PlcState, name: string, calls: seq<Call>, between: seq<Db>): PlcState
    requires |between| == |calls|
  {
    if calls == [] then s else
      var n := |calls| - 1;
      var before := CallAll(s, name, calls[..n], between[..n]);
      CallTimer(before.(db := between[n]), name, calls[n].enable, calls[n].preset, calls[n].dt)
  }

  /** However often a function block has been called, with whatever inputs and presets, its timer is the one of the
      closed form, and its output tag, if there is one, holds TRUE exactly when the current enabled run has expired. */
  lemma {:induction false} CallsFollowClosedForm(s: PlcState, name: string, calls: seq<Call>, between: seq<Db>)
    requires |between| == |calls| && calls != [] && name !in s.timers
    ensures var s', q := CallAll(s, name, calls, between), name + "_Q";
            && name in s'.timers && s'.timers[name] == TonAfter(calls[0].preset, calls)
            && (q in between[|calls| - 1] ==> q in s'.db && s'.db[q].value == Bool(Expired(calls)))
  {
    var n := |calls| - 1;
    if n == 0 {
      assert calls[..0] == [];
    } else {
      CallsFollowClosedForm(s, name, calls[..n], between[..n]);
    }
    TonClosedForm(calls[0].preset, calls);
  }

  /** A ladder timer instruction executed once per scan, each scan with its own period. */
  function TickAll(s: PlcState, name: string, enableTag: string, doneTag: string, presets: seq<u64>, dts: seq<u64>,
                   between: seq<Db>): PlcState
    requires |between| == |presets| == |dts|
  {
    if presets == [] then s else
      var n := |presets| - 1;
      var before := TickAll(s, name, enableTag, doneTag, presets[..n], dts[..n], between[..n]);
      TickTimer(before.(db := between[n]), name, enableTag, doneTag, presets[n], dts[n])
  }

  /** The calls that ticking amounts to: the first preset stays in force, whatever later instructions say. */
  function TickCalls(presets: seq<u64>, enableTag: string, dts: seq<u64>, between: seq<Db>): (calls: seq<Call>)
    requires |between| == |presets| == |dts| && presets != []
    ensures |calls| == |presets|
  {
    seq(|presets|, i requires 0 <= i < |presets| => Call(ReadBool(between[i], enableTag), dts[i], presets[0]))
  }

  /** A ladder timer keeps the preset of the instruction that created it: its done tag says whether the enable tag has
      been on for that long, even if other instructions name the same timer with other presets. */
  lemma {:induction false} TicksFollowClosedForm(s: PlcState, name: string, enableTag: string, doneTag: string,
                                                 presets: seq<u64>, dts: seq<u64>, between: seq<Db>)
    requires |between| == |presets| == |dts| && presets != [] && name !in s.timers
    ensures var s' := TickAll(s, name, enableTag, doneTag, presets, dts, between);
            var calls := TickCalls(presets, enableTag, dts, between);
            && name in s'.timers && s'.timers[name] == TonAfter(presets[0], calls)
            && s'.timers[name].presetMs == presets[0]
            && (doneTag in between[|presets| - 1] ==>
                  && doneTag in s'.db
                  && (s'.db[doneTag].value == Bool(true) <==>
                        ReadBool(between[|presets| - 1], enableTag)
                        && Elapsed(calls, RunStart(calls, true), |calls|) >= presets[0]))
  {
    var n := |presets| - 1;
    var calls := TickCalls(presets, enableTag, dts, between);
    if n == 0 {
      assert presets[..0] == [] && calls[..0] == [];
    } else {
      TicksFollowClosedForm(s, name, enableTag, doneTag, presets[..n], dts[..n], between[..n]);
      assert calls[..n] == TickCalls(presets[..n], enableTag, dts[..n], between[..n]);
    }
    TonFixedPreset(presets[0], calls, presets[0]);
  }
}
