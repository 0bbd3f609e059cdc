/** Forcing hides: the stored value behind a force cannot influence anything until the force is removed. */
module NonInterference {
  import opened Machine
  import opened Tags
  import opened Plc
  import opened Ladder
  import opened ScanEngine
  import opened Runtime
  import opened TwoRuns

  lemma {:induction false} RungsAgree(rungs: seq<Rung>, dt: u64, tags: iset<string>, hidden: set<string>,
                                      timers: iset<string>, s1: PlcState, s2: PlcState)
    requires Agree(tags, hidden, timers, s1, s2) && Covered(RungsFootprint(rungs), tags, timers)
    ensures Agree(tags, hidden, timers, RunRungs(rungs, dt, s1), RunRungs(rungs, dt, s2))
  {
    if rungs != [] {
      var code := rungs[0].instructions;
      CodeAgrees(code, dt, tags, hidden, timers, Fresh(s1), Fresh(s2));
      RungsAgree(rungs[1..], dt, tags, hidden, timers,
                 ExecuteAll(code, dt, Fresh(s1)).plc, ExecuteAll(code, dt, Fresh(s2)).plc);
    }
  }

  /** What a program does, errors included, depends only on the tags and timers it names, and not on the
      hidden values of forced tags. */
  lemma ProgramAgrees(p: Program, dt: u64, tags: iset<string>, hidden: set<string>, timers: iset<string>,
                      s1: PlcState, s2: PlcState)
    requires Agree(tags, hidden, timers, s1, s2) && Covered(ProgramFootprint(p), tags, timers)
    ensures var e1, e2 := RunProgram(p, dt, s1), RunProgram(p, dt, s2);
            e1.errors == e2.errors && Agree(tags, hidden, timers, e1.state, e2.state)
  {
    if p.enabled {
      if p.language.StructuredText? {
        StatementsAgree(p.stAst, dt, tags, hidden, timers, s1, s2);
      } else {
        RungsAgree(p.rungs, dt, tags, hidden, timers, s1, s2);
      }
    }
  }

  predicate AnyName(n: string) {
    true
  }

  ghost function Everything(): iset<string> {
    iset n: string | AnyName(n)
  }

  lemma {:induction false} PassAgrees(ps: seq<Program>, dt: u64, hidden: set<string>, s1: PlcState, s2: PlcState)
    requires Agree(Everything(), hidden, Everything(), s1, s2)
    ensures var e1, e2 := RunPrograms(ps, dt, s1), RunPrograms(ps, dt, s2);
            e1.errors == e2.errors && Agree(Everything(), hidden, Everything(), e1.state, e2.state)
  {
    if ps != [] {
      ProgramAgrees(ps[0], dt, Everything(), hidden, Everything(), s1, s2);
      PassAgrees(ps[1..], dt, hidden, RunProgram(ps[0], dt, s1).state, RunProgram(ps[0], dt, s2).state);
    }
  }

  /** The two controllers cannot be told apart without removing a force. */
  ghost predicate Indistinguishable(hidden: set<string>, c1: Controller, c2: Controller) {
    c1.(plc := c2.plc) == c2 && Agree(Everything(), hidden, Everything(), c1.plc, c2.plc)
  }

  predicate Reveals(e: Event, hidden: set<string>) {
    e.Unforce? && e.name in hidden
  }

  lemma EventAgrees(e: Event, programs: seq<Program>, hidden: set<string>, c1: Controller, c2: Controller)
    requires Indistinguishable(hidden, c1, c2) && !Reveals(e, hidden)
    ensures Indistinguishable(hidden, Handle(e, programs, c1), Handle(e, programs, c2))
  {
    match e
    case Scan(_) => PassAgrees(programs, c1.periodMs, hidden, c1.plc, c2.plc);
    case WriteBool(n, b) => WriteAgrees(n, Bool(b), Everything(), hidden, Everything(), c1.plc, c2.plc);
    case WriteF64(n, r) => WriteAgrees(n, Float64(r), Everything(), hidden, Everything(), c1.plc, c2.plc);
    case _ =>
  }

  lemma {:induction false} RunAgrees(events: seq<Event>, programs: seq<Program>, hidden: set<string>,
                                     c1: Controller, c2: Controller)
    requires Indistinguishable(hidden, c1, c2)
    requires forall e :: e in events ==> !Reveals(e, hidden)
    ensures Indistinguishable(hidden, HandleAll(events, programs, c1), HandleAll(events, programs, c2))
  {
    if events != [] {
      EventAgrees(events[0], programs, hidden, c1, c2);
      RunAgrees(events[1..], programs, hidden,
                Handle(events[0], programs, c1), Handle(events[0], programs, c2));
    }
  }

  function ForcedTags(db: Db): set<string> {
    set n | n in db && db[n].forced.Some?
  }

  /** Same tags, same forces, same values wherever no force hides them. */
  predicate SameUpToForces(db1: Db, db2: Db) {
    && db1.Keys == db2.Keys
    && forall n :: n in db1 ==>
         && db2[n] == db1[n].(value := db2[n].value)
         && (db1[n].forced.None? ==> db2[n].value == db1[n].value)
  }

  /** Force non-interference over whole runs.  Two controllers that differ only in the stored values behind
      forces run through any events -- scans of any programs, starts, stops, changes of the scan period, writes, new
      forces, and removals of other forces -- with the same effective value of every tag, the same timers, the same
      statistics and the same reported errors. */
  lemma {:induction false} ForceNonInterference(events: seq<Event>, programs: seq<Program>,
                                                c1: Controller, c2: Controller)
    requires c1.(plc := c2.plc) == c2 && c1.plc.timers == c2.plc.timers
    requires SameUpToForces(c1.plc.db, c2.plc.db)
    requires forall e :: e in events ==> !Reveals(e, ForcedTags(c1.plc.db))
    ensures var d1, d2 := HandleAll(events, programs, c1), HandleAll(events, programs, c2);
            && d1.(plc := d2.plc) == d2 && d1.plc.timers == d2.plc.timers
            && d1.plc.db.Keys == d2.plc.db.Keys
            && (forall n :: n in d1.plc.db ==> d1.plc.db[n].Effective() == d2.plc.db[n].Effective())
            && (forall n :: n in d1.plc.db ==> d1.plc.db[n].forced == d2.plc.db[n].forced)
  {
    var hidden := ForcedTags(c1.plc.db);
    RunAgrees(events, programs, hidden, c1, c2);
    var d1, d2 := HandleAll(events, programs, c1), HandleAll(events, programs, c2);
    assert forall n :: n in d1.plc.db <==> n in d2.plc.db by {
      assert forall n :: n in Everything() ==> (n in d1.plc.db <==> n in d2.plc.db);
      assert forall n: string :: n in Everything();
    }
    assert d1.plc.timers == d2.plc.timers by {
      assert forall n :: n in Everything() ==> (n in d1.plc.timers <==> n in d2.plc.timers);
      assert forall n: string :: n in Everything();
    }
    forall n | n in d1.plc.db
      ensures d1.plc.db[n].Effective() == d2.plc.db[n].Effective() && d1.plc.db[n].forced == d2.plc.db[n].forced
    {
      assert n in Everything();
    }
  }

  /** The premise about forces is needed: removing one shows the hidden value. */
  lemma UnforceReveals(name: string, programs: seq<Program>, c1: Controller, c2: Controller)
    requires name in c1.plc.db && name in c2.plc.db && c1.plc.db[name].value != c2.plc.db[name].value
    ensures var d1, d2 := Handle(Unforce(name), programs, c1), Handle(Unforce(name), programs, c2);
            d1.plc.db[name].Effective() != d2.plc.db[name].Effective()
  {
  }

  lemma {:induction false} PassKeepsForces(ps: seq<Program>, dt: u64, s: PlcState)
    ensures var s' := RunPrograms(ps, dt, s).state;
            s'.db.Keys == s.db.Keys && forall n :: n in s.db ==> s'.db[n] == s.db[n].(value := s'.db[n].value)
  {
    if ps != [] {
      ProgramFrame(ps[0], dt, s);
      PassKeepsForces(ps[1..], dt, RunProgram(ps[0], dt, s).state);
    }
  }
}
