/** On-delay (TON) and off-delay (TOF) timers: the per-scan update, its closed form over
    call histories, and the duality of the two. */
module Timers {
  import opened Machine

  datatype Ton = Ton(presetMs: u64, accumulatedMs: u64, done: bool, timing: bool, prevEnable: bool)

  function NewTon(presetMs: u64): Ton {
    Ton(presetMs, 0, false, false, false)
  }

  function UpdateTon(t: Ton, enable: bool, dt: u64): Ton {
    if !enable then
      t.(accumulatedMs := 0, done := false, timing := false, prevEnable := false)
    else if t.done then
      t.(prevEnable := true)
    else
      var acc := SaturatingAdd(t.accumulatedMs, dt);
      if acc >= t.presetMs then
        t.(accumulatedMs := t.presetMs, done := true, timing := false, prevEnable := true)
      else
        t.(accumulatedMs := acc, timing := true, prevEnable := true)
  }

  datatype Tof = Tof(presetMs: u64, accumulatedMs: u64, done: bool, timing: bool, prevEnable: bool)

  function NewTof(presetMs: u64): Tof {
    Tof(presetMs, 0, false, false, false)
  }

  function UpdateTof(t: Tof, enable: bool, dt: u64): Tof {
    var armed :=
      if enable then t.(done := true, accumulatedMs := 0, timing := false)
      else if t.prevEnable then t.(timing := true)
      else t;
    var ticked :=
      if !enable && armed.timing then
        var acc := SaturatingAdd(armed.accumulatedMs, dt);
        if acc >= armed.presetMs then
          armed.(accumulatedMs := armed.presetMs, done := false, timing := false)
        else
          armed.(accumulatedMs := acc)
      else armed;
    ticked.(prevEnable := enable)
  }

  // ----- Timers as objects updated in place -----

  class TonTimer {
    var presetMs: u64
    var accumulatedMs: u64
    var done: bool
    var timing: bool
    var prevEnable: bool

    ghost function View(): Ton
      reads this
    {
      Ton(presetMs, accumulatedMs, done, timing, prevEnable)
    }

    constructor (presetMs: u64)
      ensures View() == NewTon(presetMs)
    {
      this.presetMs := presetMs;
      accumulatedMs := 0;
      done, timing, prevEnable := false, false, false;
    }

    method Update(enable: bool, dt: u64)
      modifies this
      ensures View() == UpdateTon(old(View()), enable, dt)
      ensures old(done ==> !timing) ==> timing == (enable && !done)
    {
      if enable {
        if !done {
          accumulatedMs := SaturatingAdd(accumulatedMs, dt);
          if accumulatedMs >= presetMs {
            accumulatedMs := presetMs;
            done := true;
            timing := false;
          } else {
            timing := true;
          }
        }
      } else {
        accumulatedMs := 0;
        done := false;
        timing := false;
      }
      prevEnable := enable;
    }

    method Reset()
      modifies this
      ensures View() == NewTon(old(presetMs))
    {
      accumulatedMs := 0;
      done, timing, prevEnable := false, false, false;
    }
  }

  class TofTimer {
    var presetMs: u64
    var accumulatedMs: u64
    var done: bool
    var timing: bool
    var prevEnable: bool

    ghost function View(): Tof
      reads this
    {
      Tof(presetMs, accumulatedMs, done, timing, prevEnable)
    }

    constructor (presetMs: u64)
      ensures View() == NewTof(presetMs)
    {
      this.presetMs := presetMs;
      accumulatedMs := 0;
      done, timing, prevEnable := false, false, false;
    }

    method Update(enable: bool, dt: u64)
      modifies this
      ensures View() == UpdateTof(old(View()), enable, dt)
      ensures enable ==> done && accumulatedMs == 0
    {
      if enable {
        done := true;
        accumulatedMs := 0;
        timing := false;
      } else if prevEnable {
        timing := true;
      }
      if !enable && timing {
        accumulatedMs := SaturatingAdd(accumulatedMs, dt);
        if accumulatedMs >= presetMs {
          accumulatedMs := presetMs;
          done := false;
          timing := false;
        }
      }
      prevEnable := enable;
    }

    method Reset()
      modifies this
      ensures View() == NewTof(old(presetMs))
    {
      accumulatedMs := 0;
      done, timing, prevEnable := false, false, false;
    }
  }

  // ----- Histories -----

  /** One timer call: its enable input, the time since the previous scan, and the preset in force. */
  datatype Call = Call(enable: bool, dt: u64, preset: u64)

  /** The state of a fresh timer after a history of calls, each of which may change the preset. */
  function TonAfter(initial: u64, calls: seq<Call>): Ton {
    if calls == [] then NewTon(initial) else
      var c := calls[|calls| - 1];
      UpdateTon(TonAfter(initial, calls[..|calls| - 1]).(presetMs := c.preset), c.enable, c.dt)
  }

  function TofAfter(initial: u64, calls: seq<Call>): Tof {
    if calls == [] then NewTof(initial) else
      var c := calls[|calls| - 1];
      UpdateTof(TofAfter(initial, calls[..|calls| - 1]).(presetMs := c.preset), c.enable, c.dt)
  }

  /** Where the current run of calls with the given enable value begins. */
  function RunStart(calls: seq<Call>, enable: bool): (i: nat)
    ensures i <= |calls|
    ensures forall k :: i <= k < |calls| ==> calls[k].enable == enable
    ensures i > 0 ==> calls[i - 1].enable != enable
  {
    if calls == [] || calls[|calls| - 1].enable != enable then |calls|
    else RunStart(calls[..|calls| - 1], enable)
  }

  /** Unbounded elapsed time over calls[i..j]. */
  function Elapsed(calls: seq<Call>, i: nat, j: nat): nat
    requires i <= j <= |calls|
    decreases j
  {
    if i == j then 0 else Elapsed(calls, i, j - 1) + calls[j - 1].dt
  }

  /** By call k, time counted from call i had reached the preset in force at k. */
  ghost predicate ReachedAt(calls: seq<Call>, i: nat, k: nat)
    requires i <= k < |calls|
  {
    Elapsed(calls, i, k + 1) >= calls[k].preset
  }

  /** Some call of the current enabled run had accumulated at least the preset then in force. */
  ghost predicate Expired(calls: seq<Call>) {
    var i := RunStart(calls, true);
    exists k :: i <= k < |calls| && ReachedAt(calls, i, k)
  }

  lemma {:induction false} ElapsedPrefix(calls: seq<Call>, n: nat, i: nat, j: nat)
    requires i <= j <= n <= |calls|
    ensures Elapsed(calls[..n], i, j) == Elapsed(calls, i, j)
    decreases j
  {
    if i < j {
      ElapsedPrefix(calls, n, i, j - 1);
    }
  }

  lemma {:induction false} ElapsedGrows(calls: seq<Call>, i: nat, j: nat, k: nat)
    requires i <= j <= k <= |calls|
    ensures Elapsed(calls, i, j) <= Elapsed(calls, i, k)
    decreases k
  {
    if j < k {
      ElapsedGrows(calls, i, j, k - 1);
    }
  }

  /** Appending a call extends the current run or starts a new one. */
  lemma ExpiredStep(calls: seq<Call>)
    requires calls != []
    ensures var n := |calls| - 1;
            Expired(calls) <==>
              calls[n].enable && (Expired(calls[..n]) || ReachedAt(calls, RunStart(calls, true), n))
  {
    var n := |calls| - 1;
    if calls[n].enable {
      var i := RunStart(calls, true);
      assert i == RunStart(calls[..n], true);
      forall k | i <= k < n
        ensures ReachedAt(calls[..n], i, k) == ReachedAt(calls, i, k)
      {
        ElapsedPrefix(calls, n, i, k + 1);
      }
    }
  }

  /** TON closed form with a preset that may change at every call: the output is on exactly when some
      call of the current enabled run had seen enough time for the preset then in force.  The sum is
      unbounded, so saturation never shows; until then the accumulator is exactly that sum; the
      timing flag is enable without done. */
  lemma {:induction false} TonClosedForm(initial: u64, calls: seq<Call>)
    ensures var t := TonAfter(initial, calls);
            && t.done == Expired(calls)
            && (!t.done ==> t.accumulatedMs == Elapsed(calls, RunStart(calls, true), |calls|))
            && t.timing == (calls != [] && calls[|calls| - 1].enable && !t.done)
            && t.prevEnable == (calls != [] && calls[|calls| - 1].enable)
  {
    if calls != [] {
      var n := |calls| - 1;
      TonClosedForm(initial, calls[..n]);
      ExpiredStep(calls);
      if calls[n].enable {
        ElapsedPrefix(calls, n, RunStart(calls, true), n);
      }
    }
  }

  /** Once on, the output stays on until a call with the input off. */
  lemma TonLatches(initial: u64, calls: seq<Call>, c: Call)
    requires TonAfter(initial, calls).done
    ensures TonAfter(initial, calls + [c]).done == c.enable
  {
    assert (calls + [c])[..|calls|] == calls;
  }

  ghost predicate FixedPreset(calls: seq<Call>, preset: u64) {
    forall k :: 0 <= k < |calls| ==> calls[k].preset == preset
  }

  /** With a fixed preset only the total time of the enabled run matters. */
  lemma TonFixedPreset(initial: u64, calls: seq<Call>, preset: u64)
    requires FixedPreset(calls, preset)
    ensures TonAfter(initial, calls).done <==>
              calls != [] && calls[|calls| - 1].enable
              && Elapsed(calls, RunStart(calls, true), |calls|) >= preset
  {
    TonClosedForm(initial, calls);
    var i := RunStart(calls, true);
    forall k | i <= k < |calls|
      ensures ReachedAt(calls, i, k) ==> Elapsed(calls, i, |calls|) >= preset
    {
      ElapsedGrows(calls, i, k + 1, |calls|);
    }
    assert i < |calls| ==> (ReachedAt(calls, i, |calls| - 1) <==> Elapsed(calls, i, |calls|) >= preset);
  }

  lemma {:induction false} ElapsedConstant(calls: seq<Call>, dt: u64, j: nat)
    requires j <= |calls| && forall k :: 0 <= k < |calls| ==> calls[k].dt == dt
    ensures Elapsed(calls, 0, j) == j * dt
    decreases j
  {
    if j > 0 {
      ElapsedConstant(calls, dt, j - 1);
      assert j * dt == (j - 1) * dt + dt;
    }
  }

  function CeilDiv(a: nat, b: nat): nat
    requires b > 0
  {
    (a + b - 1) / b
  }

  lemma CeilDivSpec(a: nat, b: nat, n: nat)
    requires b > 0
    ensures n * b >= a <==> n >= CeilDiv(a, b)
  {
    var q := CeilDiv(a, b);
    assert q * b <= a + b - 1 < q * b + b;
    if n >= q {
      assert n * b >= q * b;
    } else {
      assert (n + 1) * b <= q * b;
    }
  }

  /** Enabled every dt milliseconds with a positive preset, the output first rises at call ceil(preset/dt). */
  lemma TonRisesAt(initial: u64, calls: seq<Call>, preset: u64, dt: u64)
    requires preset > 0 && dt > 0 && FixedPreset(calls, preset)
    requires forall k :: 0 <= k < |calls| ==> calls[k].enable && calls[k].dt == dt
    ensures TonAfter(initial, calls).done <==> |calls| >= CeilDiv(preset, dt)
  {
    TonFixedPreset(initial, calls, preset);
    assert RunStart(calls, true) == 0;
    ElapsedConstant(calls, dt, |calls|);
    CeilDivSpec(preset, dt, |calls|);
    if calls == [] {
      assert |calls| * dt == 0;
    }
  }

  // ----- Duality -----

  function Negated(calls: seq<Call>): (r: seq<Call>)
    ensures |r| == |calls|
    ensures forall k :: 0 <= k < |calls| ==> r[k] == calls[k].(enable := !calls[k].enable)
  {
    seq(|calls|, i requires 0 <= i < |calls| => calls[i].(enable := !calls[i].enable))
  }

  ghost predicate EverEnabled(calls: seq<Call>) {
    exists k :: 0 <= k < |calls| && calls[k].enable
  }

  /** The two timers hold opposite outputs and the same accumulator and timing flag; `enable` is the last input. */
  predicate Dual(tof: Tof, ton: Ton, enable: bool) {
    && tof.presetMs == ton.presetMs && tof.prevEnable == enable
    && tof.done == !ton.done && tof.accumulatedMs == ton.accumulatedMs && tof.timing == ton.timing
    && ton.timing == (!enable && !ton.done) && (enable ==> tof.done)
  }

  lemma DualStep(tof: Tof, ton: Ton, enable: bool, c: Call)
    requires Dual(tof, ton, enable) && c.preset == tof.presetMs
    ensures Dual(UpdateTof(tof, c.enable, c.dt), UpdateTon(ton, !c.enable, c.dt), c.enable)
  {
  }

  /** The first enabled call makes a fresh TOF dual to the TON; calls before it change nothing. */
  lemma DualStart(tof: Tof, ton: Ton, c: Call)
    requires tof.presetMs == ton.presetMs == c.preset
    requires !tof.prevEnable && !tof.done && tof.accumulatedMs == 0 && !tof.timing
    ensures c.enable ==> Dual(UpdateTof(tof, true, c.dt), UpdateTon(ton, false, c.dt), true)
    ensures !c.enable ==> UpdateTof(tof, false, c.dt) == tof
  {
  }

  /** A TOF fed `enable` and a TON fed its negation, with the same preset and scan times, are dual from the first
      enabled call on.  Before that call the TOF has not left its initial outputs. */
  lemma {:induction false} TofDualToTon(preset: u64, calls: seq<Call>)
    requires FixedPreset(calls, preset)
    ensures var tof, ton := TofAfter(preset, calls), TonAfter(preset, Negated(calls));
            && tof.presetMs == ton.presetMs == preset
            && (if EverEnabled(calls) then Dual(tof, ton, calls[|calls| - 1].enable) else tof == NewTof(preset))
  {
    if calls != [] {
      var n := |calls| - 1;
      var before := calls[..n];
      TofDualToTon(preset, before);
      assert Negated(calls)[..n] == Negated(before);
      EverEnabledStep(calls);
      var tof, ton := TofAfter(preset, before), TonAfter(preset, Negated(before));
      if EverEnabled(before) {
        DualStep(tof, ton, before[n - 1].enable, calls[n]);
      } else {
        DualStart(tof, ton, calls[n]);
      }
    }
  }

  lemma EverEnabledStep(calls: seq<Call>)
    requires calls != []
    ensures EverEnabled(calls) <==> EverEnabled(calls[..|calls| - 1]) || calls[|calls| - 1].enable
  {
    var before := calls[..|calls| - 1];
    if EverEnabled(before) {
      var k :| 0 <= k < |before| && before[k].enable;
      assert calls[k].enable;
    }
    if EverEnabled(calls) && !calls[|calls| - 1].enable {
      var k :| 0 <= k < |calls| && calls[k].enable;
      assert before[k].enable;
    }
  }

  lemma {:induction false} RunStartNegated(calls: seq<Call>)
    ensures RunStart(Negated(calls), true) == RunStart(calls, false)
  {
    if calls != [] {
      var n := |calls| - 1;
      assert Negated(calls)[..n] == Negated(calls[..n]);
      RunStartNegated(calls[..n]);
    }
  }

  lemma {:induction false} ElapsedNegated(calls: seq<Call>, i: nat, j: nat)
    requires i <= j <= |calls|
    ensures Elapsed(Negated(calls), i, j) == Elapsed(calls, i, j)
    decreases j
  {
    if i < j {
      ElapsedNegated(calls, i, j - 1);
    }
  }

  /** TOF closed form: the output is on exactly while enabled, or while the time since the last enabled
      call is still below the preset. */
  lemma TofClosedForm(preset: u64, calls: seq<Call>)
    requires FixedPreset(calls, preset)
    ensures TofAfter(preset, calls).done <==>
              EverEnabled(calls) &&
              (calls[|calls| - 1].enable || Elapsed(calls, RunStart(calls, false), |calls|) < preset)
  {
    TofDualToTon(preset, calls);
    TonFixedPreset(preset, Negated(calls), preset);
    RunStartNegated(calls);
    ElapsedNegated(calls, RunStart(calls, false), |calls|);
  }
}
