/** The tag database: typed values, tags that can be forced, and the reads and writes
    that logic and clients perform. */
module Tags {
  import opened Machine

  datatype DataType =
    | BoolType | Int16Type | Int32Type | Int64Type | UInt16Type | UInt32Type | UInt64Type
    | Float32Type | Float64Type | StringType

  datatype TagValue =
    | Bool(b: bool)
    | Int16(i16: i16)
    | Int32(i32: i32)
    | Int64(i64: i64)
    | UInt16(u16: u16)
    | UInt32(u32: u32)
    | UInt64(u64: u64)
    | Float32(f32: real)
    | Float64(f64: real)
    | Str(s: string)
  {
    /** The truth of a value; anything but a boolean counts as false. */
    function AsBool(): bool {
      Bool? && b
    }

    /** The numeric reading of a value; a string counts as zero. */
    function AsF64(): real {
      match this
      case Bool(v) => if v then 1.0 else 0.0
      case Int16(v) => v as real
      case Int32(v) => v as real
      case Int64(v) => v as real
      case UInt16(v) => v as real
      case UInt32(v) => v as real
      case UInt64(v) => v as real
      case Float32(v) => v
      case Float64(v) => v
      case Str(_) => 0.0
    }

    /** The declared type that this variant belongs to. */
    function TypeOf(): DataType {
      match this
      case Bool(_) => BoolType
      case Int16(_) => Int16Type
      case Int32(_) => Int32Type
      case Int64(_) => Int64Type
      case UInt16(_) => UInt16Type
      case UInt32(_) => UInt32Type
      case UInt64(_) => UInt64Type
      case Float32(_) => Float32Type
      case Float64(_) => Float64Type
      case Str(_) => StringType
    }
  }

  /** The value a tag of the given type starts from. */
  function DefaultFor(t: DataType): (v: TagValue)
    ensures v.TypeOf() == t
    ensures !v.AsBool() && v.AsF64() == 0.0
  {
    match t
    case BoolType => Bool(false)
    case Int16Type => Int16(0)
    case Int32Type => Int32(0)
    case Int64Type => Int64(0)
    case UInt16Type => UInt16(0)
    case UInt32Type => UInt32(0)
    case UInt64Type => UInt64(0)
    case Float32Type => Float32(0.0)
    case Float64Type => Float64(0.0)
    case StringType => Str("")
  }

  datatype Tag = Tag(name: string, dataType: DataType, value: TagValue, forced: Option<TagValue>) {
    /** What logic and clients see: the force if there is one, the stored value otherwise. */
    function Effective(): TagValue {
      if forced.Some? then forced.value else value
    }

    /** Every value the tag holds has the variant of its declared type. */
    predicate WellTyped() {
      && value.TypeOf() == dataType
      && (forced.Some? ==> forced.value.TypeOf() == dataType)
    }
  }

  function NewBool(name: string): Tag {
    Tag(name, BoolType, Bool(false), None)
  }

  type Db = map<string, Tag>

  function ReadBool(db: Db, name: string): bool {
    name in db && db[name].Effective().AsBool()
  }

  /** Stores a value in an existing tag; an unknown name is ignored. */
  function SetValue(db: Db, name: string, v: TagValue): Db {
    if name in db then db[name := db[name].(value := v)] else db
  }

  /** Forces or unforces an existing tag; an unknown name is ignored. */
  function SetForce(db: Db, name: string, force: Option<TagValue>): Db {
    if name in db then db[name := db[name].(forced := force)] else db
  }

  /** While a tag is forced, a write to it is invisible; once the force is removed the last write shows. */
  lemma ForceMasksWrites(db: Db, name: string, force: TagValue, written: TagValue)
    requires name in db
    ensures var masked := SetValue(SetForce(db, name, Some(force)), name, written);
            && masked[name].Effective() == force
            && SetForce(masked, name, None)[name].Effective() == written
            && (forall other :: other != name && other in db ==> masked[other] == db[other])
  {
  }

  /** The mutable database: a name-to-tag table updated in place. */
  class TagDatabase {
    var tags: Db

    constructor ()
      ensures tags == map[]
    {
      tags := map[];
    }

    method AddTag(tag: Tag)
      modifies this
      ensures tags == old(tags)[tag.name := tag]
    {
      tags := tags[tag.name := tag];
    }

    method SetTagValue(name: string, v: TagValue)
      modifies this
      ensures tags == SetValue(old(tags), name, v)
      ensures forall n :: n in old(tags) ==> n in tags && tags[n].forced == old(tags)[n].forced
    {
      if name in tags {
        tags := tags[name := tags[name].(value := v)];
      }
    }

    method WriteBool(name: string, b: bool)
      modifies this
      ensures tags == SetValue(old(tags), name, Bool(b))
    {
      SetTagValue(name, Bool(b));
    }

    method WriteF64(name: string, r: real)
      modifies this
      ensures tags == SetValue(old(tags), name, Float64(r))
    {
      SetTagValue(name, Float64(r));
    }

    method ForceBool(name: string, b: bool)
      modifies this
      ensures tags == SetForce(old(tags), name, Some(Bool(b)))
      ensures name in tags ==> ReadBool(tags, name) == b
      ensures forall n :: n in old(tags) ==> n in tags && tags[n].value == old(tags)[n].value
    {
      if name in tags {
        tags := tags[name := tags[name].(forced := Some(Bool(b)))];
      }
    }

    method Unforce(name: string)
      modifies this
      ensures tags == SetForce(old(tags), name, None)
      ensures name in tags ==> tags[name].Effective() == old(tags)[name].value
    {
      if name in tags {
        tags := tags[name := tags[name].(forced := None)];
      }
    }
  }
}
