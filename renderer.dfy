/**
 * renderer.py: the first prototype of the protobuf generator. It writes
 * proto3-style text with numbered enum items and fields and unnumbered
 * `repeat` containers, and keeps no state: the three counting loops are
 * methods here, each proved against the function that specifies it.
 *
 * Keys written `{ns}...` in the source are written `ld:...` here, as in the
 * other modules; `enum-item` is looked up without a namespace.
 */
module Renderer {
  import opened Base
  import opened Xml
  import TypeTable

  /** `Renderer.TYPES`: the four primitive names the prototype knows. */
  const Table: map<string, string> := map[
    "int8_t" := "int32",
    "int16_t" := "int32",
    "int32_t" := "int32",
    "stl-string" := "string"
  ]

  /** The prototype's table is a part of the later generations' table. */
  lemma TableInTypeTable()
    ensures forall k :: k in Table ==> k in TypeTable.Types && TypeTable.Types[k] == Table[k]
  {
  }

  /**
   * `convert_type(typ)`: the table entry, else `T_<typ>`; `'T_' + None`
   * raises.
   */
  function ConvertType(t: Option<string>): (r: Result<string>)
    ensures r.Ok? <==> t.Some?
    ensures r.Ok? ==> r.value in TypeTable.ProtoScalars || (StartsWith(r.value, "T_") && r.value[2..] == t.value)
    ensures t.Some? && t.value in Table ==> r == Ok(Table[t.value])
  {
    if t.None? then Err("TypeError")
    else if t.value in Table then Ok(Table[t.value])
    else Ok("T_" + t.value)
  }

  // ---- enumerations ----

  /** The line of the enum item named `name` at position `k`. */
  function EnumLine(name: string, k: int): string
  {
    "  " + name + " = " + IntToString(k) + ";\n"
  }

  /** The lines of the first `k` items: an item without a name raises. */
  function EnumLines(items: seq<Node>, k: nat): (r: Result<string>)
    requires k <= |items|
    ensures r.Err? ==> r == Err("TypeError")
  {
    if k == 0 then Ok("")
    else
      var body :- EnumLines(items, k - 1);
      var nm := Get(items[k - 1], "name");
      if nm.None? then Err("TypeError") else Ok(body + EnumLine(nm.value, k - 1))
  }

  /** `render_enum_type(xml, tname)`: every item is numbered by its position, whatever value it declares. */
  function EnumType(n: Node, tname: Option<string>): Result<string>
  {
    var t := if Truthy(tname) then tname else Get(n, "type-name");
    if t.None? then Err("TypeError")
    else
      var body :- EnumLines(Findall(n, "enum-item"), |Findall(n, "enum-item")|);
      Ok("enum " + t.value + " {\n" + body + "}\n")
  }

  /** Every item has a name. */
  predicate AllNamed(items: seq<Node>, k: nat)
    requires k <= |items|
  {
    forall i :: 0 <= i < k ==> Get(items[i], "name").Some?
  }

  /**
   * The enum body succeeds exactly when every item is named, and is then
   * item i's line numbered i, for every i in order.
   */
  lemma {:induction false} EnumNumbering(items: seq<Node>, k: nat)
    requires k <= |items|
    ensures EnumLines(items, k).Ok? <==> AllNamed(items, k)
    ensures AllNamed(items, k) ==>
      EnumLines(items, k) == Ok(Concat(seq(k, i requires 0 <= i < k => EnumLine(Get(items[i], "name").value, i))))
  {
    if k > 0 {
      EnumNumbering(items, k - 1);
      assert AllNamed(items, k) <==> AllNamed(items, k - 1) && Get(items[k - 1], "name").Some?;
      if AllNamed(items, k) {
        NamedLinesSnoc(items, k);
      }
    }
  }

  /** The numbered lines of `k` named items are those of the first `k-1`, then the last one's. */
  lemma NamedLinesSnoc(items: seq<Node>, k: nat)
    requires 0 < k <= |items| && AllNamed(items, k)
    ensures Concat(seq(k, i requires 0 <= i < k => EnumLine(Get(items[i], "name").value, i))) ==
      Concat(seq(k - 1, i requires 0 <= i < k - 1 => EnumLine(Get(items[i], "name").value, i))) +
      EnumLine(Get(items[k - 1], "name").value, k - 1)
  {
    var f := i requires 0 <= i < k => EnumLine(Get(items[i], "name").value, i);
    var g := i requires 0 <= i < k - 1 => EnumLine(Get(items[i], "name").value, i);
    assert seq(k, f) == seq(k - 1, g) + [f(k - 1)];
    ConcatSnoc(seq(k - 1, g), f(k - 1));
  }

  /**
   * `render_enum(xml, value)`: the enum type named by `{ns}typedef-name`,
   * then a field of that type; a missing typedef name or name raises.
   */
  function Enum(n: Node, value: int): (r: Result<string>)
    ensures r.Ok? ==> Get(n, "ld:typedef-name").Some? && Get(n, "name").Some?
  {
    var tn := Get(n, "ld:typedef-name");
    var out :- EnumType(n, tn);
    if tn.None? || Get(n, "name").None? then Err("TypeError")
    else Ok(out + tn.value + " " + Get(n, "name").value + " = " + IntToString(value) + ";\n")
  }

  // ---- fields & containers ----

  /** `render_container(xml)`: `repeat <type> <name>;`, with no field number. */
  function Container(n: Node): (r: Result<string>)
    ensures r.Ok? <==> Get(n, "type-name").Some? && Get(n, "name").Some?
    ensures r.Ok? ==> r.value == "repeat " + ConvertType(Get(n, "type-name")).value + " " + Get(n, "name").value + ";\n"
  {
    var c :- ConvertType(Get(n, "type-name"));
    if Get(n, "name").None? then Err("TypeError") else Ok("repeat " + c + " " + Get(n, "name").value + ";\n")
  }

  /** `render_field(xml, value)`: `<type> <name> = <value>;`, with `anon` for a missing subtype or name. */
  function FieldLine(n: Node, value: int): (r: string)
    ensures !Truthy(Get(n, "ld:subtype")) && !Truthy(Get(n, "name")) ==> r == "T_anon anon = " + IntToString(value) + ";\n"
  {
    var styp := ConvertType(Some(Or(Get(n, "ld:subtype"), "anon"))).value;
    styp + " " + Or(Get(n, "name"), "anon") + " = " + IntToString(value) + ";\n"
  }

  // ---- structs ----

  /** The indented fields of the first `k` items, the field at position k numbered k + 1. */
  function FieldLines(items: seq<Node>, k: nat): string
    requires k <= |items|
  {
    if k == 0 then "" else FieldLines(items, k - 1) + "  " + FieldLine(items[k - 1], k)
  }

  /** Fields are numbered 1, 2, ... in document order. */
  lemma {:induction false} FieldNumbering(items: seq<Node>, k: nat)
    requires k <= |items|
    ensures FieldLines(items, k) == Concat(seq(k, i requires 0 <= i < k => "  " + FieldLine(items[i], i + 1)))
  {
    if k > 0 {
      FieldNumbering(items, k - 1);
      FieldLinesSnoc(items, k);
      Assoc3(FieldLines(items, k - 1), "  ", FieldLine(items[k - 1], k));
    }
  }

  /** The numbered lines of `k` fields are those of the first `k-1`, then the last one's. */
  lemma FieldLinesSnoc(items: seq<Node>, k: nat)
    requires 0 < k <= |items|
    ensures Concat(seq(k, i requires 0 <= i < k => "  " + FieldLine(items[i], i + 1))) ==
      Concat(seq(k - 1, i requires 0 <= i < k - 1 => "  " + FieldLine(items[i], i + 1))) + ("  " + FieldLine(items[k - 1], k))
  {
    var f := i requires 0 <= i < k => "  " + FieldLine(items[i], i + 1);
    var g := i requires 0 <= i < k - 1 => "  " + FieldLine(items[i], i + 1);
    assert seq(k, f) == seq(k - 1, g) + [f(k - 1)];
    ConcatSnoc(seq(k - 1, g), f(k - 1));
  }

  /** A message named `t` holding the element's fields. */
  function Message(n: Node, t: string): (r: string)
    ensures StartsWith(r, "message " + t + " {\n")
  {
    var head := "message " + t + " {\n";
    var r := head + FieldLines(Findall(n, "ld:field"), |Findall(n, "ld:field")|) + "}\n";
    assert r[..|head|] == head;
    r
  }

  /** `render_struct_type(xml, tname)`: a missing type name raises. */
  function StructType(n: Node, tname: Option<string>): (r: Result<string>)
    ensures r.Ok? <==> Truthy(tname) || Get(n, "type-name").Some?
  {
    var t := if Truthy(tname) then tname else Get(n, "type-name");
    if t.None? then Err("TypeError") else Ok(Message(n, t.value))
  }

  /** `render_anon_compound(xml, tname)`: a message named `T_anon` unless a name is given. */
  function AnonCompound(n: Node, tname: Option<string>): (r: string)
    ensures Ok(r) == StructType(n, if Truthy(tname) then tname else Some("T_anon"))
  {
    Message(n, if Truthy(tname) then tname.value else "T_anon")
  }

  // ---- unions ----

  /**
   * The pre-declarations of the first `k` arms: each compound arm's `T_anon`
   * message. The source extends a list with each text, character by
   * character, and joins it again, which is this concatenation.
   */
  function Predecl(items: seq<Node>, k: nat): string
    requires k <= |items|
  {
    if k == 0 then ""
    else if Is(Get(items[k - 1], "ld:meta"), "compound") then Predecl(items, k - 1) + AnonCompound(items[k - 1], None)
    else Predecl(items, k - 1)
  }

  /** An arm is a compound. */
  predicate HasCompound(items: seq<Node>, k: nat)
    requires k <= |items|
  {
    exists i :: 0 <= i < k && Is(Get(items[i], "ld:meta"), "compound")
  }

  /** There is something to pre-declare exactly when some arm is a compound. */
  lemma {:induction false} PredeclEmpty(items: seq<Node>, k: nat)
    requires k <= |items|
    ensures Predecl(items, k) == "" <==> !HasCompound(items, k)
  {
    if k > 0 {
      PredeclEmpty(items, k - 1);
      if Is(Get(items[k - 1], "ld:meta"), "compound") {
        var a := AnonCompound(items[k - 1], None);
        assert StartsWith(a, "message T_anon {\n");
        assert Predecl(items, k) == Predecl(items, k - 1) + a;
        assert HasCompound(items, k);
      } else {
        assert Predecl(items, k) == Predecl(items, k - 1);
        if HasCompound(items, k) {
          var i :| 0 <= i < k && Is(Get(items[i], "ld:meta"), "compound");
          assert i < k - 1;
        }
      }
    }
  }

  /**
   * `render_union(xml, tname)`: the pre-declared messages and an empty line
   * when there are any, then a `oneof` whose arms are numbered from 1 as
   * struct fields are; no newline after the closing brace.
   */
  function Union(n: Node, tname: string): string
  {
    var items := Findall(n, "ld:field");
    var p := Predecl(items, |items|);
    (if p != "" then p + "\n" else "") + "oneof " + tname + " {\n" + FieldLines(items, |items|) + "}"
  }

  /** A union whose arms are all scalars is the bare `oneof`, its arms numbered 1, 2, ... */
  lemma UnionWithoutCompounds(n: Node, tname: string)
    requires !HasCompound(Findall(n, "ld:field"), |Findall(n, "ld:field")|)
    ensures var items := Findall(n, "ld:field");
      Union(n, tname) ==
        "oneof " + tname + " {\n" + Concat(seq(|items|, i requires 0 <= i < |items| => "  " + FieldLine(items[i], i + 1))) + "}"
  {
    var items := Findall(n, "ld:field");
    PredeclEmpty(items, |items|);
    FieldNumbering(items, |items|);
  }

  // ---- main renderer ----

  /** `render(xml)`: the dispatch on `{ns}meta`. */
  function Render(n: Node): Result<string>
  {
    var meta := Get(n, "ld:meta");
    if Is(meta, "enum-type") then EnumType(n, None)
    else if Is(meta, "compound") then
      var sub := Get(n, "ld:subtype");
      if Is(sub, "enum") then Enum(n, 1)
      else if Is(Get(n, "ld:anon-compound"), "true") then
        if Is(Get(n, "is-union"), "true") then Ok(Union(n, "anon")) else Ok(AnonCompound(n, None))
      else if sub.None? then Err("TypeError")
      else Err("not supported: compound/" + sub.value)
    else if Is(meta, "container") then Container(n)
    else if Is(meta, "struct-type") then StructType(n, None)
    else if meta.None? then Err("TypeError")
    else Err("no supported: " + meta.value)
  }

  /** A compound that is neither an enum nor anonymous raises, and so does any unknown meta. */
  lemma RenderRaises(n: Node)
    ensures var meta := Get(n, "ld:meta");
      Is(meta, "compound") && !Is(Get(n, "ld:subtype"), "enum") && !Is(Get(n, "ld:anon-compound"), "true") ==> Render(n).Err?
    ensures var meta := Get(n, "ld:meta");
      !(Is(meta, "enum-type") || Is(meta, "compound") || Is(meta, "container") || Is(meta, "struct-type")) ==> Render(n).Err?
  {
  }

  /** An anonymous compound renders as a `T_anon` message or, for a union, as a `oneof anon`. */
  lemma RenderAnonymous(n: Node)
    requires Is(Get(n, "ld:meta"), "compound") && !Is(Get(n, "ld:subtype"), "enum") && Is(Get(n, "ld:anon-compound"), "true")
    ensures Is(Get(n, "is-union"), "true") ==> Render(n) == Ok(Union(n, "anon"))
    ensures !Is(Get(n, "is-union"), "true") ==> Render(n).Ok? && StartsWith(Render(n).value, "message T_anon {\n")
  {
  }

  // ---- the counting loops ----

  /** `render_enum_type(xml, tname)`: `count` runs from 0 over the items. */
  method RenderEnumType(n: Node, tname: Option<string>) returns (r: Result<string>)
    ensures r == EnumType(n, tname)
  {
    var t := if Truthy(tname) then tname else Get(n, "type-name");
    if t.None? {
      return Err("TypeError");
    }
    var items := Findall(n, "enum-item");
    var body := "";
    var count := 0;
    while count < |items|
      invariant 0 <= count <= |items|
      invariant EnumLines(items, count) == Ok(body)
    {
      var nm := Get(items[count], "name");
      if nm.None? {
        EnumNumbering(items, |items|);
        return Err("TypeError");
      }
      body := body + EnumLine(nm.value, count);
      count := count + 1;
    }
    return Ok("enum " + t.value + " {\n" + body + "}\n");
  }

  /** `render_struct_type(xml, tname)`: `count` runs from 1 over the fields. */
  method RenderStructType(n: Node, tname: Option<string>) returns (r: Result<string>)
    ensures r == StructType(n, tname)
  {
    var t := if Truthy(tname) then tname else Get(n, "type-name");
    if t.None? {
      return Err("TypeError");
    }
    var items := Findall(n, "ld:field");
    var fields := "";
    var i := 0;
    var count := 1;
    while i < |items|
      invariant 0 <= i <= |items| && count == i + 1
      invariant fields == FieldLines(items, i)
    {
      fields := fields + "  " + FieldLine(items[i], count);
      i := i + 1;
      count := count + 1;
    }
    return Ok("message " + t.value + " {\n" + fields + "}\n");
  }

  /** `render_union(xml, tname)`: pre-declarations and arms gathered in one pass, `count` from 1. */
  method RenderUnion(n: Node, tname: string) returns (out: string)
    ensures out == Union(n, tname)
  {
    var items := Findall(n, "ld:field");
    var predecl := "";
    var fields := "";
    var i := 0;
    var count := 1;
    while i < |items|
      invariant 0 <= i <= |items| && count == i + 1
      invariant predecl == Predecl(items, i)
      invariant fields == FieldLines(items, i)
    {
      if Is(Get(items[i], "ld:meta"), "compound") {
        predecl := predecl + AnonCompound(items[i], None);
      }
      fields := fields + "  " + FieldLine(items[i], count);
      i := i + 1;
      count := count + 1;
    }
    out := "";
    if predecl != "" {
      out := predecl + "\n";
    }
    out := out + "oneof " + tname + " {\n";
    out := out + fields + "}";
  }
}
