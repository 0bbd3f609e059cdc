/** What every program of the controller shares: the state logic acts on, the footprints that say which
    part of it a program names, and the frame relation between states. */
module Plc {
  import opened Tags
  import opened Timers

  /** Everything logic can change: the tags and the named timers. */
  datatype PlcState = PlcState(db: Db, timers: map<string, Ton>)

  function WriteTag(s: PlcState, name: string, v: TagValue): PlcState {
    s.(db := SetValue(s.db, name, v))
  }

  /** The named timers shared by every program, updated in place. */
  class TimerTable {
    var timers: map<string, Ton>

    constructor ()
      ensures timers == map[]
    {
      timers := map[];
    }

    method Clear()
      modifies this
      ensures timers == map[]
    {
      timers := map[];
    }
  }

  /** The tags and timers a program text names: what it may read, what it may write, which timers it calls. */
  datatype Footprint = Footprint(read: set<string>, written: set<string>, timers: set<string>) {
    function Union(f: Footprint): Footprint {
      Footprint(read + f.read, written + f.written, timers + f.timers)
    }

    function Tags(): set<string> {
      read + written
    }

    /** Neither side writes a tag the other touches, and no timer is shared. */
    predicate Independent(f: Footprint) {
      written !! f.Tags() && f.written !! Tags() && timers !! f.timers
    }
  }

  function Reading(names: set<string>): Footprint {
    Footprint(names, {}, {})
  }

  /** From s to s' only the values of tags in `tags` and the timers in `timers` may have changed: no tag
      appears or disappears, no type or force changes. */
  ghost predicate Framed(s: PlcState, s': PlcState, tags: set<string>, timers: set<string>) {
    && s'.db.Keys == s.db.Keys
    && (forall n :: n in s.db ==> s'.db[n] == s.db[n].(value := s'.db[n].value))
    && (forall n :: n in s.db && n !in tags ==> s'.db[n] == s.db[n])
    && (forall n :: n !in timers ==> (n in s'.timers <==> n in s.timers))
    && (forall n :: n !in timers && n in s.timers ==> s'.timers[n] == s.timers[n])
  }

  lemma FramedWrite(s0: PlcState, s: PlcState, tags: set<string>, timers: set<string>, name: string, v: TagValue)
    requires Framed(s0, s, tags, timers) && name in tags
    ensures Framed(s0, WriteTag(s, name, v), tags, timers)
  {
  }
}
