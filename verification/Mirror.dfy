/** The gateway's tag mirror: snapshots, deltas and local writes interleaved in any order. */
module Mirror {
  import opened Machine
  import opened Tags
  import opened JsonValues

  // ----- Coercions between the wire and tag values -----

  /** Total coercion of a JSON value to a wire type; `show` renders JSON text. */
  function Coerce(j: Json, wire: string, show: Json -> string): TagValue {
    if wire == "BOOL" then Bool(j == JsonBool(true))
    else if wire == "INT16" then Int16(LowI16(j.AsI64()))
    else if wire == "INT32" then Int32(LowI32(j.AsI64()))
    else if wire == "INT64" then Int64(j.AsI64())
    else if wire == "FLOAT32" then Float32(j.AsF64())
    else if wire == "FLOAT64" then Float64(j.AsF64())
    else if wire == "STRING" then
      Str(match j
          case JsonString(s) => s
          case Null => ""
          case _ => show(j))
    else Str(show(j))
  }

  function TypeFromWire(wire: string): DataType {
    if wire == "BOOL" then BoolType
    else if wire == "INT16" then Int16Type
    else if wire == "INT32" then Int32Type
    else if wire == "INT64" then Int64Type
    else if wire == "FLOAT32" then Float32Type
    else if wire == "FLOAT64" then Float64Type
    else if wire == "STRING" then StringType
    else BoolType
  }

  /** Unsigned types share the names of the signed ones. */
  function WireName(t: DataType): string {
    match t
    case BoolType => "BOOL"
    case Int16Type => "INT16"
    case Int32Type => "INT32"
    case Int64Type => "INT64"
    case UInt16Type => "INT16"
    case UInt32Type => "INT32"
    case UInt64Type => "INT64"
    case Float32Type => "FLOAT32"
    case Float64Type => "FLOAT64"
    case StringType => "STRING"
  }

  predicate IsWireType(wire: string) {
    wire in {"BOOL", "INT16", "INT32", "INT64", "FLOAT32", "FLOAT64", "STRING"}
  }

  function ToJson(v: TagValue): Json {
    match v
    case Bool(b) => JsonBool(b)
    case Int16(i) => JsonInt(i)
    case Int32(i) => JsonInt(i)
    case Int64(i) => JsonInt(i)
    case UInt16(i) => JsonInt(i)
    case UInt32(i) => JsonInt(i)
    case UInt64(i) => JsonInt(i)
    case Float32(r) => JsonReal(r)
    case Float64(r) => JsonReal(r)
    case Str(s) => JsonString(s)
  }

  predicate IsUnsigned(t: DataType) {
    t.UInt16Type? || t.UInt32Type? || t.UInt64Type?
  }

  /** Sending a value and reading it back at its own wire type is lossless exactly for the types that have one of
      their own: unsigned values come back signed. */
  lemma WireRoundTrip(v: TagValue, show: Json -> string)
    ensures Coerce(ToJson(v), WireName(v.TypeOf()), show) == v <==> !IsUnsigned(v.TypeOf())
    ensures TypeFromWire(WireName(v.TypeOf())) == v.TypeOf() <==> !IsUnsigned(v.TypeOf())
  {
  }

  /** A coerced value has the declared type exactly when the wire type is one of the seven. */
  lemma CoercedType(j: Json, wire: string, show: Json -> string)
    ensures Coerce(j, wire, show).TypeOf() == TypeFromWire(wire) <==> IsWireType(wire)
  {
  }

  // ----- The mirror -----

  datatype Access = ReadOnly | ReadWrite

  function AccessFromWire(s: string): Access {
    if s == "ReadOnly" then ReadOnly else ReadWrite
  }

  datatype MirroredTag = MirroredTag(value: TagValue, dataType: DataType, access: Access)

  datatype ExposedTag = ExposedTag(path: string, wire: string, value: Json, access: string)

  datatype TagChange = TagChange(path: string, value: Json)

  type Mirrored = map<string, MirroredTag>

  function Exposed(t: ExposedTag, show: Json -> string): MirroredTag {
    MirroredTag(Coerce(t.value, t.wire, show), TypeFromWire(t.wire), AccessFromWire(t.access))
  }

  function InsertAll(ts: seq<ExposedTag>, show: Json -> string, m: Mirrored): Mirrored {
    if ts == [] then m else InsertAll(ts[1..], show, m[ts[0].path := Exposed(ts[0], show)])
  }

  /** Coerces an update to the declared type of a known path; unknown paths are ignored. */
  function Update(path: string, j: Json, show: Json -> string, m: Mirrored): Mirrored {
    if path in m then m[path := m[path].(value := Coerce(j, WireName(m[path].dataType), show))] else m
  }

  function UpdateAll(cs: seq<TagChange>, show: Json -> string, m: Mirrored): Mirrored {
    if cs == [] then m else UpdateAll(cs[1..], show, Update(cs[0].path, cs[0].value, show, m))
  }

  /** What can happen to the mirror: sync messages, and writes by OPC UA clients. */
  datatype Step =
    | Snapshot(tags: seq<ExposedTag>)
    | Delta(changes: seq<TagChange>)
    | LocalWrite(path: string, value: Json)
    | OtherMessage

  function Apply(step: Step, show: Json -> string, m: Mirrored): Mirrored {
    match step
    case Snapshot(tags) => InsertAll(tags, show, map[])
    case Delta(changes) => UpdateAll(changes, show, m)
    case LocalWrite(path, j) => Update(path, j, show, m)
    case OtherMessage => m
  }

  function MirrorAfter(history: seq<Step>, show: Json -> string): Mirrored {
    if history == [] then map[] else
      Apply(history[|history| - 1], show, MirrorAfter(history[..|history| - 1], show))
  }

  class TagMirror {
    var tags: Mirrored

    constructor ()
      ensures tags == map[]
    {
      tags := map[];
    }

    method ApplySnapshot(ts: seq<ExposedTag>, show: Json -> string)
      modifies this
      ensures tags == Apply(Snapshot(ts), show, old(tags))
    {
      tags := map[];
      for i := 0 to |ts|
        invariant InsertAll(ts, show, map[]) == InsertAll(ts[i..], show, tags)
      {
        var value := Coerce(ts[i].value, ts[i].wire, show);
        tags := tags[ts[i].path := MirroredTag(value, TypeFromWire(ts[i].wire), AccessFromWire(ts[i].access))];
      }
    }

    method ApplyDelta(cs: seq<TagChange>, show: Json -> string)
      modifies this
      ensures tags == Apply(Delta(cs), show, old(tags))
    {
      for i := 0 to |cs|
        invariant UpdateAll(cs, show, old(tags)) == UpdateAll(cs[i..], show, tags)
      {
        if cs[i].path in tags {
          var existing := tags[cs[i].path];
          tags := tags[cs[i].path := existing.(value := Coerce(cs[i].value, WireName(existing.dataType), show))];
        }
      }
    }

    method SetLocal(path: string, value: TagValue)
      modifies this
      ensures tags == if path in old(tags) then old(tags)[path := old(tags)[path].(value := value)] else old(tags)
    {
      if path in tags {
        tags := tags[path := tags[path].(value := value)];
      }
    }

    /** A client's write: coerced to the declared type of a known tag, then reflected back. */
    method WriteLocally(path: string, j: Json, show: Json -> string)
      modifies this
      ensures tags == Apply(LocalWrite(path, j), show, old(tags))
    {
      if path in tags {
        SetLocal(path, Coerce(j, WireName(tags[path].dataType), show));
      }
    }

    method ApplyMessage(step: Step, show: Json -> string)
      requires !step.LocalWrite?
      modifies this
      ensures tags == Apply(step, show, old(tags))
    {
      match step
      case Snapshot(ts) => ApplySnapshot(ts, show);
      case Delta(cs) => ApplyDelta(cs, show);
      case _ =>
    }
  }

  // ----- Histories, read from the end -----

  /** The last entry of a snapshot for a path. */
  function LastEntry(ts: seq<ExposedTag>, path: string): (r: Option<ExposedTag>)
    ensures r.Some? ==> r.value in ts && r.value.path == path
    ensures r.None? ==> forall t :: t in ts ==> t.path != path
  {
    if ts == [] then None
    else if ts[|ts| - 1].path == path then Some(ts[|ts| - 1])
    else LastEntry(ts[..|ts| - 1], path)
  }

  function LastChange(cs: seq<TagChange>, path: string): Option<Json> {
    if cs == [] then None
    else if cs[|cs| - 1].path == path then Some(cs[|cs| - 1].value)
    else LastChange(cs[..|cs| - 1], path)
  }

  /** How the latest snapshot declares a path. */
  function Declaration(history: seq<Step>, path: string): Option<ExposedTag> {
    if history == [] then None else
      var step := history[|history| - 1];
      if step.Snapshot? then LastEntry(step.tags, path) else Declaration(history[..|history| - 1], path)
  }

  /** The latest delta or local write to a path since the latest snapshot. */
  function LatestUpdate(history: seq<Step>, path: string): Option<Json> {
    if history == [] then None else
      var before := history[..|history| - 1];
      match history[|history| - 1]
      case Snapshot(_) => None
      case OtherMessage => LatestUpdate(before, path)
      case LocalWrite(p, j) => if p == path then Some(j) else LatestUpdate(before, path)
      case Delta(cs) =>
        var c := LastChange(cs, path);
        if c.Some? then c else LatestUpdate(before, path)
  }

  lemma {:induction false} InsertAppend(a: seq<ExposedTag>, t: ExposedTag, show: Json -> string, m: Mirrored)
    ensures InsertAll(a + [t], show, m) == InsertAll(a, show, m)[t.path := Exposed(t, show)]
  {
    if a == [] {
      assert ([t] + [])[1..] == [];
      assert a + [t] == [t];
    } else {
      assert (a + [t])[1..] == a[1..] + [t];
      InsertAppend(a[1..], t, show, m[a[0].path := Exposed(a[0], show)]);
    }
  }

  lemma {:induction false} UpdateAppend(a: seq<TagChange>, c: TagChange, show: Json -> string, m: Mirrored)
    ensures UpdateAll(a + [c], show, m) == Update(c.path, c.value, show, UpdateAll(a, show, m))
  {
    if a == [] {
      assert a + [c] == [c];
      assert [c][1..] == [];
    } else {
      assert (a + [c])[1..] == a[1..] + [c];
      UpdateAppend(a[1..], c, show, Update(a[0].path, a[0].value, show, m));
    }
  }

  /** In a snapshot the last duplicate wins. */
  lemma {:induction false} SnapshotHolds(ts: seq<ExposedTag>, path: string, show: Json -> string)
    ensures var m, e := InsertAll(ts, show, map[]), LastEntry(ts, path);
            && (path in m <==> e.Some?)
            && (e.Some? ==> m[path] == Exposed(e.value, show))
  {
    if ts != [] {
      var n := |ts| - 1;
      assert ts == ts[..n] + [ts[n]];
      InsertAppend(ts[..n], ts[n], show, map[]);
      SnapshotHolds(ts[..n], path, show);
    }
  }

  /** A delta touches a known path by its last change, and nothing else. */
  lemma {:induction false} DeltaHolds(cs: seq<TagChange>, path: string, show: Json -> string, m: Mirrored)
    ensures var m', c := UpdateAll(cs, show, m), LastChange(cs, path);
            && (path in m' <==> path in m)
            && (path in m ==>
                  m'[path] == if c.Some? then m[path].(value := Coerce(c.value, WireName(m[path].dataType), show))
                              else m[path])
  {
    if cs != [] {
      var n := |cs| - 1;
      assert cs == cs[..n] + [cs[n]];
      UpdateAppend(cs[..n], cs[n], show, m);
      DeltaHolds(cs[..n], path, show, m);
    }
  }

  /** Mirror refinement.  After any interleaving, the mirrored paths are exactly those of the latest snapshot; type
      and access are those of its last entry for the path; the value is the coercion of the latest update since, or
      of the snapshot's own value. */
  lemma {:induction false} MirrorHolds(history: seq<Step>, path: string, show: Json -> string)
    ensures var m, d, u := MirrorAfter(history, show), Declaration(history, path), LatestUpdate(history, path);
            && (path in m <==> d.Some?)
            && (d.Some? ==>
                  && m[path].dataType == TypeFromWire(d.value.wire)
                  && m[path].access == AccessFromWire(d.value.access)
                  && m[path].value == (if u.Some? then Coerce(u.value, WireName(TypeFromWire(d.value.wire)), show)
                                       else Coerce(d.value.value, d.value.wire, show)))
  {
    if history != [] {
      var n := |history| - 1;
      var before := MirrorAfter(history[..n], show);
      MirrorHolds(history[..n], path, show);
      match history[n] {
        case Snapshot(ts) => SnapshotHolds(ts, path, show);
        case Delta(cs) => DeltaHolds(cs, path, show, before);
        case _ =>
      }
    }
  }

  /** Typing of the mirror, exactly: a mirrored value has its tag's declared type if and only if the snapshot declared
      one of the seven wire types, or the path has been updated since. */
  lemma MirrorTypedIff(history: seq<Step>, path: string, show: Json -> string)
    requires Declaration(history, path).Some?
    ensures var m := MirrorAfter(history, show);
            path in m &&
            (m[path].value.TypeOf() == m[path].dataType <==>
               IsWireType(Declaration(history, path).value.wire) || LatestUpdate(history, path).Some?)
  {
    MirrorHolds(history, path, show);
    var d, u := Declaration(history, path).value, LatestUpdate(history, path);
    CoercedType(d.value, d.wire, show);
    if u.Some? {
      CoercedType(u.value, WireName(TypeFromWire(d.wire)), show);
    }
  }

  /** A snapshot with an unknown wire type stores a string under a tag declared boolean. */
  lemma UnknownWireTypeMistyped(show: Json -> string)
    ensures var m := MirrorAfter([Snapshot([ExposedTag("T", "TIME", JsonInt(5), "ReadWrite")])], show);
            "T" in m && m["T"].dataType == BoolType && m["T"].value.Str?
  {
    var history := [Snapshot([ExposedTag("T", "TIME", JsonInt(5), "ReadWrite")])];
    MirrorHolds(history, "T", show);
  }
}
