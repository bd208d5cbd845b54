/**
  The wire-type table (utils.go): a Go type name, as the registration loop
  spells it, resolves to the engine's data-type tag. The table is closed and
  fails closed: a name it does not list is an error, never a default tag.
*/
module Utils {
  import opened Wrappers
  import opened SimconnectData

  /** The Go type names the table accepts. */
  const SupportedFieldTypes: set<string> := {
    "int32", "bool", "int64", "float32", "float64",
    "[8]byte", "[32]byte", "[64]byte", "[128]byte", "[256]byte", "[260]byte"}

  /**
    `derefDataType`: the tag for a Go type name, with no error; or tag 0 with
    the rejected name as the error.
  */
  function DerefDataType(fieldType: string): (r: (u32, Option<string>))
    ensures r.1.None? <==> fieldType in SupportedFieldTypes
    ensures r.1.Some? ==> r.0 == 0 && r.1.value == fieldType
    ensures r.1.None? ==> DATATYPE_INT32 <= r.0 <= DATATYPE_STRING260
  {
    if fieldType == "int32" || fieldType == "bool" then (DATATYPE_INT32, None)
    else if fieldType == "int64" then (DATATYPE_INT64, None)
    else if fieldType == "float32" then (DATATYPE_FLOAT32, None)
    else if fieldType == "float64" then (DATATYPE_FLOAT64, None)
    else if fieldType == "[8]byte" then (DATATYPE_STRING8, None)
    else if fieldType == "[32]byte" then (DATATYPE_STRING32, None)
    else if fieldType == "[64]byte" then (DATATYPE_STRING64, None)
    else if fieldType == "[128]byte" then (DATATYPE_STRING128, None)
    else if fieldType == "[256]byte" then (DATATYPE_STRING256, None)
    else if fieldType == "[260]byte" then (DATATYPE_STRING260, None)
    else (0, Some(fieldType))
  }

  /** The engine's wire types that the table can produce. */
  datatype WireType =
    | Int32 | Int64 | Float32 | Float64
    | String8 | String32 | String64 | String128 | String256 | String260

  /** The engine's tag for a wire type. */
  function Tag(w: WireType): u32
  {
    match w
    case Int32 => DATATYPE_INT32
    case Int64 => DATATYPE_INT64
    case Float32 => DATATYPE_FLOAT32
    case Float64 => DATATYPE_FLOAT64
    case String8 => DATATYPE_STRING8
    case String32 => DATATYPE_STRING32
    case String64 => DATATYPE_STRING64
    case String128 => DATATYPE_STRING128
    case String256 => DATATYPE_STRING256
    case String260 => DATATYPE_STRING260
  }

  /** The Go type names that stand for a wire type: a Go bool travels as an int32. */
  function GoTypeNames(w: WireType): set<string>
  {
    match w
    case Int32 => {"int32", "bool"}
    case Int64 => {"int64"}
    case Float32 => {"float32"}
    case Float64 => {"float64"}
    case String8 => {"[8]byte"}
    case String32 => {"[32]byte"}
    case String64 => {"[64]byte"}
    case String128 => {"[128]byte"}
    case String256 => {"[256]byte"}
    case String260 => {"[260]byte"}
  }

  /** The number of bytes a value of a wire type occupies in a data block. */
  function WireSize(w: WireType): (n: nat)
    ensures n > 0
  {
    match w
    case Int32 => 4
    case Int64 => 8
    case Float32 => 4
    case Float64 => 8
    case String8 => 8
    case String32 => 32
    case String64 => 64
    case String128 => 128
    case String256 => 256
    case String260 => 260
  }

  /** The wire type a tag stands for, if the table can produce it. */
  function WireTypeOfTag(tag: u32): (r: Option<WireType>)
    ensures r.Some? ==> Tag(r.value) == tag
    ensures r.None? ==> forall w: WireType :: Tag(w) != tag
  {
    if tag == DATATYPE_INT32 then Some(Int32)
    else if tag == DATATYPE_INT64 then Some(Int64)
    else if tag == DATATYPE_FLOAT32 then Some(Float32)
    else if tag == DATATYPE_FLOAT64 then Some(Float64)
    else if tag == DATATYPE_STRING8 then Some(String8)
    else if tag == DATATYPE_STRING32 then Some(String32)
    else if tag == DATATYPE_STRING64 then Some(String64)
    else if tag == DATATYPE_STRING128 then Some(String128)
    else if tag == DATATYPE_STRING256 then Some(String256)
    else if tag == DATATYPE_STRING260 then Some(String260)
    else None
  }

  /** Distinct wire types have distinct tags, none of them INVALID. */
  lemma TagInjective(w1: WireType, w2: WireType)
    ensures Tag(w1) == Tag(w2) <==> w1 == w2
    ensures Tag(w1) != DATATYPE_INVALID
  {
  }

  /**
    The table agrees with the catalogue of wire types: a name resolves to a
    tag exactly when it names a wire type, and then to that type's tag.
  */
  lemma DerefMatchesCatalogue(fieldType: string)
    ensures forall w: WireType :: fieldType in GoTypeNames(w) ==> DerefDataType(fieldType) == (Tag(w), None)
    ensures DerefDataType(fieldType).1.None? <==> exists w: WireType :: fieldType in GoTypeNames(w)
  {
    var r := DerefDataType(fieldType);
    if r.1.None? {
      var w := WireTypeOfTag(r.0).value;
      assert fieldType in GoTypeNames(w);
    }
  }

  /**
    Apart from int32 and bool, which share the INT32 tag, two accepted names
    that resolve to the same tag are the same name.
  */
  lemma DerefInjective(a: string, b: string)
    requires DerefDataType(a).1.None? && DerefDataType(b).1.None?
    requires DerefDataType(a).0 == DerefDataType(b).0
    ensures a == b || {a, b} == {"int32", "bool"}
  {
  }
}
