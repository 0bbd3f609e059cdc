/** Programs with independent footprints can be swapped in the scan order. */
module Commutation {
  import opened Machine
  import opened Plc
  import opened ScanEngine
  import opened TwoRuns
  import opened NonInterference

  ghost function AsUniverse(names: set<string>): iset<string> {
    iset n | n in names
  }

  /** A program that touches nothing q names leaves q's part of the state as it was. */
  lemma FrameAgrees(p: Program, q: Program, dt: u64, s: PlcState)
    requires ProgramFootprint(p).Independent(ProgramFootprint(q))
    ensures var f := ProgramFootprint(q);
            Agree(AsUniverse(f.Tags()), {}, AsUniverse(f.timers), s, RunProgram(p, dt, s).state)
  {
    ProgramFrame(p, dt, s);
  }

  /** After an independent program, q reports the same errors and leaves the same values in its own tags
      and timers. */
  lemma RunsTheSameAfter(p: Program, q: Program, dt: u64, s: PlcState)
    requires ProgramFootprint(p).Independent(ProgramFootprint(q))
    ensures var f, s1 := ProgramFootprint(q), RunProgram(p, dt, s).state;
            && RunProgram(q, dt, s1).errors == RunProgram(q, dt, s).errors
            && Agree(AsUniverse(f.Tags()), {}, AsUniverse(f.timers),
                     RunProgram(q, dt, s).state, RunProgram(q, dt, s1).state)
  {
    var f := ProgramFootprint(q);
    FrameAgrees(p, q, dt, s);
    ProgramAgrees(q, dt, AsUniverse(f.Tags()), {}, AsUniverse(f.timers), s, RunProgram(p, dt, s).state);
  }

  // ----- Joining the two orders -----

  ghost predicate SameAt<V>(a: map<string, V>, b: map<string, V>, n: string) {
    (n in a <==> n in b) && (n in a ==> a[n] == b[n])
  }

  /** The maps differ at most on the given names. */
  ghost predicate SameOutside<V>(a: map<string, V>, b: map<string, V>, names: set<string>) {
    forall n :: n !in names ==> SameAt(a, b, n)
  }

  ghost predicate SameOn<V>(a: map<string, V>, b: map<string, V>, names: set<string>) {
    forall n :: n in names ==> SameAt(a, b, n)
  }

  /** p leads from s to sp and from sq to qp, q from s to sq and from sp to pq; each writes only its own names, and
      the same there both times. */
  lemma Diamond<V>(s: map<string, V>, sp: map<string, V>, sq: map<string, V>, pq: map<string, V>, qp: map<string, V>,
                       ps: set<string>, qs: set<string>)
    requires ps !! qs
    requires SameOutside(s, sp, ps) && SameOutside(sq, qp, ps) && SameOn(sp, qp, ps)
    requires SameOutside(s, sq, qs) && SameOutside(sp, pq, qs) && SameOn(sq, pq, qs)
    ensures pq == qp
  {
    forall n ensures SameAt(pq, qp, n) {
      if n in qs {
        assert SameAt(sq, pq, n) && SameAt(sq, qp, n);
      } else {
        assert SameAt(sp, pq, n);
        if n in ps {
          assert SameAt(sp, qp, n);
        } else {
          assert SameAt(s, sp, n) && SameAt(s, sq, n) && SameAt(sq, qp, n);
        }
      }
    }
    MapsEqual(pq, qp);
  }

  lemma MapsEqual<V>(a: map<string, V>, b: map<string, V>)
    requires forall n :: SameAt(a, b, n)
    ensures a == b
  {
    forall n ensures n in a.Keys <==> n in b.Keys {
      assert SameAt(a, b, n);
    }
    forall n | n in a ensures a[n] == b[n] {
      assert SameAt(a, b, n);
    }
  }

  lemma FrameOutside(p: Program, dt: u64, s: PlcState)
    ensures var f, s' := ProgramFootprint(p), RunProgram(p, dt, s).state;
            SameOutside(s.db, s'.db, f.written) && SameOutside(s.timers, s'.timers, f.timers)
  {
    ProgramFrame(p, dt, s);
  }

  lemma SameWritesAfter(p: Program, q: Program, dt: u64, s: PlcState)
    requires ProgramFootprint(p).Independent(ProgramFootprint(q))
    ensures var f := ProgramFootprint(q);
            var s1, s2 := RunProgram(q, dt, s).state, RunProgram(q, dt, RunProgram(p, dt, s).state).state;
            SameOn(s1.db, s2.db, f.written) && SameOn(s1.timers, s2.timers, f.timers)
  {
    var f := ProgramFootprint(q);
    RunsTheSameAfter(p, q, dt, s);
    assert forall n :: n in f.written ==> n in AsUniverse(f.Tags());
    assert forall n :: n in f.timers ==> n in AsUniverse(f.timers);
  }

  /** Whatever either of them does, errors partway included, two independent programs reach the same tags and
      timers in either order, and each reports the errors it would have reported alone. */
  lemma ProgramsCommute(p: Program, q: Program, dt: u64, s: PlcState)
    requires ProgramFootprint(p).Independent(ProgramFootprint(q))
    ensures var p1, q1 := RunProgram(p, dt, s), RunProgram(q, dt, s);
            var pq, qp := RunProgram(q, dt, p1.state), RunProgram(p, dt, q1.state);
            && pq.state == qp.state
            && pq.errors == q1.errors && qp.errors == p1.errors
  {
    var fp, fq := ProgramFootprint(p), ProgramFootprint(q);
    var sp, sq := RunProgram(p, dt, s).state, RunProgram(q, dt, s).state;
    var pq, qp := RunProgram(q, dt, sp).state, RunProgram(p, dt, sq).state;
    RunsTheSameAfter(p, q, dt, s);
    RunsTheSameAfter(q, p, dt, s);
    SameWritesAfter(p, q, dt, s);
    SameWritesAfter(q, p, dt, s);
    FrameOutside(p, dt, s);
    FrameOutside(q, dt, s);
    FrameOutside(q, dt, sp);
    FrameOutside(p, dt, sq);
    Diamond(s.db, sp.db, sq.db, pq.db, qp.db, fp.written, fq.written);
    Diamond(s.timers, sp.timers, sq.timers, pq.timers, qp.timers, fp.timers, fq.timers);
  }

  lemma {:induction false} PassAppend(a: seq<Program>, b: seq<Program>, dt: u64, s: PlcState)
    ensures var first := RunPrograms(a, dt, s);
            RunPrograms(a + b, dt, s) ==
              if first.Panicked() then first
              else Continue(first.errors, RunPrograms(b, dt, first.state))
  {
    var first := RunPrograms(a, dt, s);
    if a == [] {
      assert a + b == b;
      assert Continue([], RunPrograms(b, dt, s)) == RunPrograms(b, dt, s) by {
        assert [] + RunPrograms(b, dt, s).errors == RunPrograms(b, dt, s).errors;
      }
    } else {
      assert (a + b)[1..] == a[1..] + b;
      var head := RunProgram(a[0], dt, s);
      if !head.Panicked() {
        PassAppend(a[1..], b, dt, head.state);
        var tail := RunPrograms(a[1..], dt, head.state);
      }
    }
  }

  lemma TwoPrograms(p: Program, q: Program, dt: u64, s: PlcState)
    requires !RunProgram(p, dt, s).Panicked()
    ensures var first := RunProgram(p, dt, s);
            var second := RunProgram(q, dt, first.state);
            RunPrograms([p, q], dt, s) == PassEnd(second.state, first.errors + second.errors)
  {
    var first := RunProgram(p, dt, s);
    var second := RunProgram(q, dt, first.state);
    assert [p, q][1..] == [q] && [q][1..] == [];
    assert second.errors + [] == second.errors;
    assert RunPrograms([q], dt, first.state) == second;
  }

  /** In a scan, neighbouring independent programs that do not panic can trade places: the scan reaches the same
      tags and timers and reports the same errors, those of the two programs trading places with them. */
  lemma {:induction false} ScanOrderIrrelevant(
    before: seq<Program>, p: Program, q: Program, after: seq<Program>, dt: u64, s: PlcState)
    requires ProgramFootprint(p).Independent(ProgramFootprint(q))
    requires var s1 := RunPrograms(before, dt, s).state;
             !RunProgram(p, dt, s1).Panicked() && !RunProgram(q, dt, s1).Panicked()
    ensures var pq, qp := RunPrograms(before + ([p, q] + after), dt, s), RunPrograms(before + ([q, p] + after), dt, s);
            && pq.state == qp.state
            && multiset(pq.errors) == multiset(qp.errors)
  {
    var first := RunPrograms(before, dt, s);
    var s1 := first.state;
    ProgramsCommute(p, q, dt, s1);
    TwoPrograms(p, q, dt, s1);
    TwoPrograms(q, p, dt, s1);
    PassAppend([p, q], after, dt, s1);
    PassAppend([q, p], after, dt, s1);
    PassAppend(before, [p, q] + after, dt, s);
    PassAppend(before, [q, p] + after, dt, s);
    if !first.Panicked() {
      var both := RunPrograms([p, q], dt, s1).state;
    }
  }

}
