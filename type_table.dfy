/**
 * The DFHack primitive type names and the protobuf scalar each maps to. The
 * legacy abstract renderer, the standalone abstract renderer and both
 * standalone renderers carry this same table (`TYPES`); `convert_type` looks
 * a name up and `is_primitive_type` asks whether it is a key.
 */
module TypeTable {
  import opened Base

  const Types: map<string, string> := map[
    "bool" := "bool",
    "int8_t" := "int32",
    "int16_t" := "int32",
    "int32_t" := "int32",
    "int64_t" := "int64",
    "uint8_t" := "uint32",
    "uint16_t" := "uint32",
    "uint32_t" := "uint32",
    "uint64_t" := "uint64",
    "long" := "int64",
    "s-float" := "float",
    "d-float" := "double",
    "stl-string" := "string",
    "static-string" := "string",
    "ptr-string" := "string",
    "stl-fstream" := "bytes",
    "padding" := "bytes"
  ]

  /** The protobuf scalar value types. */
  const ProtoScalars: set<string> := {"bool", "int32", "int64", "uint32", "uint64", "float", "double", "string", "bytes"}

  /** `is_primitive_type(typ)`: `None` is never a key. */
  predicate IsPrimitive(t: Option<string>)
  {
    t.Some? && t.value in Types
  }

  /** `convert_type(typ)`: the table entry, `None` for any other name. */
  function Convert(t: Option<string>): (r: Option<string>)
    ensures r.Some? <==> IsPrimitive(t)
    ensures r.Some? ==> r.value in ProtoScalars
  {
    if IsPrimitive(t) then Some(Types[t.value]) else None
  }
}
