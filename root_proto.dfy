/**
 * proto_renderer.py: the current generation's protobuf renderer. It renders
 * one DFHack type, or one field, as Protocol Buffers schema text.
 *
 * Unlike the legacy renderer it keeps no anonymous-name cache: an unnamed
 * element is named after the field ordinal it is rendered with. The only
 * state a render changes is the `imports` set, so the functions below take
 * the imports and return them with the text (`Out`); the rename exceptions,
 * the protobuf version and the package are the configuration (`Cfg`).
 */
module RootProto {
  import opened Base
  import opened Xml
  import opened TypeTable
  import opened EnumNumbering
  import opened RootAbstract

  /** What a render reads and never changes. */
  datatype Cfg = Cfg(xpath: map<string, seq<nat>>, exceptions: seq<(string, string)>, version: int, protoNs: Option<string>)

  /** Rendered text and the imports after it. */
  datatype Out = Out(text: string, imports: set<Option<string>>)

  // ---- names ----

  /** The rename loop of `get_name`: every rule that selects the element overwrites the name. */
  function Renamed(cfg: Cfg, n: Node, i: nat, name: Option<string>): Option<string>
    requires i <= |cfg.exceptions|
    decreases |cfg.exceptions| - i
  {
    if i == |cfg.exceptions| then name
    else Renamed(cfg, n, i + 1, if Selects(cfg.xpath, cfg.exceptions[i].0, n) then Some(cfg.exceptions[i].1) else name)
  }

  /** `get_name(xml, value)`: `name` after the renames, else `ld:anon-name`, else `anon_<value>`. */
  function Name(cfg: Cfg, n: Node, value: int): (r: string)
    ensures r != ""
  {
    OrdinalName(Renamed(cfg, n, 0, Get(n, "name")), n, value)
  }

  lemma {:induction false} RenamedNone(cfg: Cfg, n: Node, i: nat, name: Option<string>)
    requires i <= |cfg.exceptions|
    requires forall k :: i <= k < |cfg.exceptions| ==> !Selects(cfg.xpath, cfg.exceptions[k].0, n)
    ensures Renamed(cfg, n, i, name) == name
    decreases |cfg.exceptions| - i
  {
    if i < |cfg.exceptions| {
      RenamedNone(cfg, n, i + 1, name);
    }
  }

  lemma {:induction false} RenamedLast(cfg: Cfg, n: Node, i: nat, name: Option<string>, j: nat)
    requires i <= j < |cfg.exceptions| && Selects(cfg.xpath, cfg.exceptions[j].0, n)
    requires forall k :: j < k < |cfg.exceptions| ==> !Selects(cfg.xpath, cfg.exceptions[k].0, n)
    ensures Renamed(cfg, n, i, name) == Some(cfg.exceptions[j].1)
    decreases |cfg.exceptions| - i
  {
    if i < j {
      RenamedLast(cfg, n, i + 1, if Selects(cfg.xpath, cfg.exceptions[i].0, n) then Some(cfg.exceptions[i].1) else name, j);
    } else {
      RenamedNone(cfg, n, j + 1, Some(cfg.exceptions[j].1));
    }
  }

  /**
   * Every rule that selects the element overwrites its name, so the last one
   * wins, whatever the ordinal.
   */
  lemma LastRenameWins(cfg: Cfg, n: Node, value: int, j: nat)
    requires j < |cfg.exceptions| && Selects(cfg.xpath, cfg.exceptions[j].0, n) && cfg.exceptions[j].1 != ""
    requires forall k :: j < k < |cfg.exceptions| ==> !Selects(cfg.xpath, cfg.exceptions[k].0, n)
    ensures Name(cfg, n, value) == cfg.exceptions[j].1
  {
    RenamedLast(cfg, n, 0, Get(n, "name"), j);
  }

  /**
   * Without a rule, a named element keeps its name for every ordinal, and an
   * element with neither `name` nor `ld:anon-name` is `anon_<value>`
   * (`anon_m<-value>` for a negative ordinal), so two ordinals never give it
   * the same name.
   */
  lemma NameByOrdinal(cfg: Cfg, n: Node, a: int, b: int)
    requires forall k :: 0 <= k < |cfg.exceptions| ==> !Selects(cfg.xpath, cfg.exceptions[k].0, n)
    ensures Truthy(Get(n, "name")) ==> Name(cfg, n, a) == Get(n, "name").value
    ensures !Truthy(Get(n, "name")) && !Truthy(Get(n, "ld:anon-name")) ==>
      Name(cfg, n, a) == "anon_" + Ordinal(a) && (a != b ==> Name(cfg, n, a) != Name(cfg, n, b))
    ensures a < 0 && !Truthy(Get(n, "name")) && !Truthy(Get(n, "ld:anon-name")) ==>
      Name(cfg, n, a) == "anon_m" + IntToString(-a)
  {
    var nm := Get(n, "name");
    RenamedNone(cfg, n, 0, nm);
    assert Name(cfg, n, a) == OrdinalName(nm, n, a);
    assert Name(cfg, n, b) == OrdinalName(nm, n, b);
    if !Truthy(nm) && !Truthy(Get(n, "ld:anon-name")) {
      AnonymousName(nm, n, a, b);
    }
  }

  // ---- lines ----

  /** Version 3 drops the `required` and `optional` labels. */
  function LineKeyword(cfg: Cfg, keyword: string): string
  {
    if cfg.version == 3 && (keyword == "required" || keyword == "optional") then "" else keyword
  }

  /** `_render_line(xml, tname, value, name, keyword)`: `<keyword> [<tname> ]<name> = <value>;`, the comment, a newline. */
  function RenderLine(cfg: Cfg, n: Node, tname: Option<string>, value: int, name: Option<string>, keyword: string): string
  {
    var nm := if Truthy(name) then name.value else Name(cfg, n, value);
    var head := LineKeyword(cfg, keyword) + " ";
    var mid := (if Truthy(tname) then tname.value + " " else "") + nm;
    AppendComment(n, head + mid + (" = " + IntToString(value) + ";")) + "\n"
  }

  lemma LineShape(n: Node, a: string, b: string, c: string)
    ensures StartsWith(AppendComment(n, a + b + c) + "\n", a)
    ensures EndsWith(AppendComment(n, a + b + c) + "\n", "\n")
    ensures !Truthy(Get(n, "comment")) ==> EndsWith(AppendComment(n, a + b + c) + "\n", c + "\n")
  {
    var line := a + b + c;
    assert line[..|a|] == a;
    var r := AppendComment(n, line) + "\n";
    assert r[..|a|] == AppendComment(n, line)[..|a|];
    if !Truthy(Get(n, "comment")) {
      assert r == a + b + (c + "\n");
    }
  }

  /**
   * A line starts with its label and a space and ends the line; without a
   * comment it ends with `= <value>;`.
   */
  lemma LineFormat(cfg: Cfg, n: Node, tname: Option<string>, value: int, name: Option<string>, keyword: string)
    ensures var r := RenderLine(cfg, n, tname, value, name, keyword);
      StartsWith(r, LineKeyword(cfg, keyword) + " ") && EndsWith(r, "\n")
    ensures !Truthy(Get(n, "comment")) ==>
      EndsWith(RenderLine(cfg, n, tname, value, name, keyword), " = " + IntToString(value) + ";\n")
  {
    var nm := if Truthy(name) then name.value else Name(cfg, n, value);
    var mid := (if Truthy(tname) then tname.value + " " else "") + nm;
    LineShape(n, LineKeyword(cfg, keyword) + " ", mid, " = " + IntToString(value) + ";");
    assert " = " + IntToString(value) + ";" + "\n" == " = " + IntToString(value) + ";\n";
  }

  /**
   * In version 3 a `required` or `optional` line is the line with an empty
   * label; in version 2 the label is written out.
   */
  lemma Version3Labels(cfg: Cfg, n: Node, tname: Option<string>, value: int, name: Option<string>)
    ensures cfg.version == 3 ==>
      RenderLine(cfg, n, tname, value, name, "required") == RenderLine(cfg, n, tname, value, name, "") &&
      RenderLine(cfg, n, tname, value, name, "optional") == RenderLine(cfg, n, tname, value, name, "")
    ensures cfg.version != 3 ==> StartsWith(RenderLine(cfg, n, tname, value, name, "required"), "required ")
  {
    LineFormat(cfg, n, tname, value, name, "required");
  }

  // ---- enumerations ----

  /** `_render_enum_item(item, tname, value, prefix)`: `<prefix><name> = <value>;`, the comment, a newline. */
  function ItemLine(cfg: Cfg, item: Node, value: int, prefix: string): string
  {
    AppendComment(item, prefix + Name(cfg, item, value) + " = " + IntToString(value) + ";") + "\n"
  }

  /** One line of an enum body, after `lead`: the ZERO line, or item k named and numbered `v`. */
  function SlotText(cfg: Cfg, items: seq<Node>, prefix: string, lead: string, s: Slot): string
  {
    match s
    case ZeroSlot => lead + prefix + "ZERO = 0;\n"
    case ItemSlot(k, v) => if k < |items| then lead + ItemLine(cfg, items[k], v, prefix) else ""
  }

  /** The lines of the slots, in order. */
  function Body(cfg: Cfg, items: seq<Node>, prefix: string, lead: string, slots: seq<Slot>): string
    decreases |slots|
  {
    if |slots| == 0 then ""
    else Body(cfg, items, prefix, lead, slots[..|slots| - 1]) + SlotText(cfg, items, prefix, lead, slots[|slots| - 1])
  }

  lemma BodySnoc(cfg: Cfg, items: seq<Node>, prefix: string, lead: string, a: seq<Slot>, x: Slot)
    ensures Body(cfg, items, prefix, lead, a + [x]) == Body(cfg, items, prefix, lead, a) + SlotText(cfg, items, prefix, lead, x)
  {
    assert (a + [x])[..|a|] == a;
  }

  lemma {:induction false} BodyAppend(cfg: Cfg, items: seq<Node>, prefix: string, lead: string, a: seq<Slot>, b: seq<Slot>)
    ensures Body(cfg, items, prefix, lead, a + b) == Body(cfg, items, prefix, lead, a) + Body(cfg, items, prefix, lead, b)
    decreases |b|
  {
    if |b| > 0 {
      assert (a + b)[..|a + b| - 1] == a + b[..|b| - 1];
      BodyAppend(cfg, items, prefix, lead, a, b[..|b| - 1]);
    } else {
      assert a + b == a;
    }
  }

  /** The enum's name: the argument, else `type-name`. */
  function EnumTypeName(n: Node, tname: Option<string>): Option<string>
  {
    if Truthy(tname) then tname else Get(n, "type-name")
  }

  /**
   * `render_enum_type(xml, tname, prefix, extra_ident)`: the header, the body
   * in the order `Layout` gives (each item named after its number), the
   * closing brace. The prefix defaults to `<tname>_`.
   */
  function EnumType(cfg: Cfg, n: Node, tname: Option<string>, prefix: Option<string>, extra: string): Result<string>
  {
    var t := EnumTypeName(n, tname);
    if !Truthy(t) then Err("AssertionError")
    else
      var ind :- Ident(n);
      var pre := if prefix.None? then t.value + "_" else prefix.value;
      var items := Findall(n, "enum-item");
      var vals :- EnumValues(items);
      Ok(ind + extra + "enum " + t.value + " {\n" + Body(cfg, items, pre, ind + extra + "  ", Layout(vals)) + ind + extra + "}\n")
  }

  /**
   * An enum without explicit values numbers item k as k, named after k when
   * it has no name; the prefix defaults to `<tname>_`.
   */
  lemma EnumDefaultNumbering(cfg: Cfg, n: Node, tname: Option<string>, prefix: Option<string>, extra: string)
    requires Truthy(EnumTypeName(n, tname)) && Level(n).Ok?
    requires forall k :: 0 <= k < |Findall(n, "enum-item")| ==> !Truthy(Get(Findall(n, "enum-item")[k], "value"))
    ensures var items := Findall(n, "enum-item");
      var ind := Indent(Level(n).value);
      var t := EnumTypeName(n, tname).value;
      var pre := if prefix.None? then t + "_" else prefix.value;
      EnumType(cfg, n, tname, prefix, extra) ==
        Ok(ind + extra + "enum " + t + " {\n" + Body(cfg, items, pre, ind + extra + "  ", Counted(0, |items|, 0)) + ind + extra + "}\n")
  {
    var items := Findall(n, "enum-item");
    EnumValuesNone(items);
    NoExplicitValues(EnumValues(items).value);
  }

  lemma EnumBadValue(cfg: Cfg, n: Node, tname: Option<string>, prefix: Option<string>, extra: string, k: nat)
    requires Truthy(EnumTypeName(n, tname)) && Level(n).Ok?
    requires k < |Findall(n, "enum-item")| && ItemValue(Findall(n, "enum-item")[k]).Err?
    ensures EnumType(cfg, n, tname, prefix, extra).Err?
  {
    EnumValuesFail(Findall(n, "enum-item"), k);
  }

  /**
   * `render_enum(xml, value)`: a local enum named by the typedef name, its
   * items prefixed `<name>_` and indented one more step, then the field line.
   */
  function FieldEnum(cfg: Cfg, n: Node, value: int): Result<string>
  {
    var name := Name(cfg, n, value);
    var tn := TypedefName(n, name);
    var body :- EnumType(cfg, n, Some(tn), Some(name + "_"), "  ");
    var ind :- Ident(n);
    Ok(body + ind + RenderLine(cfg, n, Some(tn), value, Some(name), "required") + "\n")
  }

  /**
   * A local enum field without explicit values: the enum is declared under
   * the typedef name one step further in, its items are prefixed with the
   * field's name and numbered from 0, and the field line uses the enum's name.
   */
  lemma LocalEnumField(cfg: Cfg, n: Node, value: int)
    requires Level(n).Ok?
    requires forall k :: 0 <= k < |Findall(n, "enum-item")| ==> !Truthy(Get(Findall(n, "enum-item")[k], "value"))
    ensures var name := Name(cfg, n, value);
      var tn := TypedefName(n, name);
      var items := Findall(n, "enum-item");
      var ind := Indent(Level(n).value);
      FieldEnum(cfg, n, value) ==
        Ok(ind + "  " + "enum " + tn + " {\n" + Body(cfg, items, name + "_", ind + "  " + "  ", Counted(0, |items|, 0)) + ind + "  " + "}\n" +
           ind + RenderLine(cfg, n, Some(tn), value, Some(name), "required") + "\n")
  {
    var name := Name(cfg, n, value);
    var tn := TypedefName(n, name);
    EnumDefaultNumbering(cfg, n, Some(tn), Some(name + "_"), "  ");
  }

  // ---- bitfields ----

  /** Mask line k: `<name> = 0x<k>;` with the field named after k, and its comment. */
  function MaskLine(cfg: Cfg, item: Node, ind: string, k: nat): string
  {
    AppendComment(item, ind + "  " + Name(cfg, item, k) + " = 0x" + Hex(k) + ";") + "\n"
  }

  /** The first `k` mask lines. */
  function MaskLines(cfg: Cfg, items: seq<Node>, ind: string, k: nat): string
    requires k <= |items|
  {
    if k == 0 then "" else MaskLines(cfg, items, ind, k - 1) + MaskLine(cfg, items[k - 1], ind, k - 1)
  }

  /** `render_bitfield_masks(xml)`: `enum mask { ... }` with field k's value its bit position k. */
  function Masks(cfg: Cfg, n: Node): Result<string>
  {
    var ind :- Ident(n);
    var items := Findall(n, "ld:field");
    Ok(ind + "enum mask {\n" + MaskLines(cfg, items, ind, |items|) + ind + "}\n")
  }

  /** Appending a comment to a longer text appends it to the last part. */
  lemma CommentAfter(n: Node, a: string, b: string)
    ensures AppendComment(n, a + b) == a + AppendComment(n, b)
  {
    if Truthy(Get(n, "comment")) {
      Assoc3(a, b, " /* " + Get(n, "comment").value + " */");
    }
  }

  /**
   * Mask k is numbered k in hexadecimal and, unnamed, is called `anon_<k>`;
   * the k-th line follows the first k.
   */
  lemma MaskNumbering(cfg: Cfg, items: seq<Node>, ind: string, k: nat)
    requires k < |items|
    ensures MaskLines(cfg, items, ind, k + 1) == MaskLines(cfg, items, ind, k) + MaskLine(cfg, items[k], ind, k)
    ensures StartsWith(MaskLine(cfg, items[k], ind, k), ind + "  " + Name(cfg, items[k], k) + " = 0x" + Hex(k) + ";")
    ensures ((forall e :: 0 <= e < |cfg.exceptions| ==> !Selects(cfg.xpath, cfg.exceptions[e].0, items[k])) &&
             !Truthy(Get(items[k], "name")) && !Truthy(Get(items[k], "ld:anon-name")))
      ==> Name(cfg, items[k], k) == "anon_" + IntToString(k)
  {
    var line := ind + "  " + Name(cfg, items[k], k) + " = 0x" + Hex(k) + ";";
    assert StartsWith(AppendComment(items[k], line), line);
    assert (AppendComment(items[k], line) + "\n")[..|line|] == AppendComment(items[k], line)[..|line|];
    if (forall e :: 0 <= e < |cfg.exceptions| ==> !Selects(cfg.xpath, cfg.exceptions[e].0, items[k])) {
      RenamedNone(cfg, items[k], 0, Get(items[k], "name"));
    }
  }

  /** `render_bitfield_type(xml, tname)`: a message holding the masks and a `fixed32 flags = 1` field. */
  function BitfieldType(cfg: Cfg, n: Node, tname: Option<string>): Result<string>
  {
    var t := if Truthy(tname) then tname else Get(n, "type-name");
    if !Truthy(t) then Err("AssertionError")
    else
      var ind :- Ident(n);
      var m :- Masks(cfg, n);
      Ok(ind + "message " + t.value + " {\n" + m + ind + "  " + RenderLine(cfg, n, Some("fixed32"), 1, Some("flags"), "required") + "\n" + ind + "}\n")
  }

  /** `render_bitfield(xml, value)`: the bitfield message under its typedef name, then the field line. */
  function FieldBitfield(cfg: Cfg, n: Node, value: int): Result<string>
  {
    var name := Name(cfg, n, value);
    var tn := TypedefName(n, name);
    var b :- BitfieldType(cfg, n, Some(tn));
    var ind :- Ident(n);
    Ok(b + ind + RenderLine(cfg, n, Some(tn), value, Some(name), "required") + "\n")
  }

  // ---- fields ----

  /** `_convert_tname(tname)`: a primitive becomes its scalar, another name is imported, no name is `bytes`. */
  function ConvertTname(imports: set<Option<string>>, t: Option<string>): (string, set<Option<string>>)
  {
    if IsPrimitive(t) then (Types[t.value], imports)
    else if Truthy(t) then (t.value, imports + {t})
    else ("bytes", imports)
  }

  /** `render_simple_field(xml, value, keyword)`: an enum or bitfield is typed and imported by `type-name`. */
  function Simple(cfg: Cfg, imports: set<Option<string>>, n: Node, value: int, keyword: string): Out
  {
    var sub := Get(n, "ld:subtype");
    if Is(sub, "enum") || Is(sub, "bitfield") then
      var t := Get(n, "type-name");
      Out(RenderLine(cfg, n, t, value, None, keyword), imports + {t})
    else
      var (t, imp) := ConvertTname(imports, sub);
      Out(RenderLine(cfg, n, Some(t), value, None, keyword), imp)
  }

  /**
   * A simple field's type: the `type-name` of an enum or bitfield, which is
   * imported; the scalar of a primitive subtype, with nothing imported; any
   * other subtype as it is, imported; `bytes` without a subtype.
   */
  lemma SimpleFieldType(cfg: Cfg, imports: set<Option<string>>, n: Node, value: int, keyword: string)
    ensures var sub := Get(n, "ld:subtype");
      var r := Simple(cfg, imports, n, value, keyword);
      var t := if Is(sub, "enum") || Is(sub, "bitfield") then Get(n, "type-name")
               else if IsPrimitive(sub) then Convert(sub)
               else if Truthy(sub) then sub
               else Some("bytes");
      r.text == RenderLine(cfg, n, t, value, None, keyword) &&
      r.imports == imports + (if Is(sub, "enum") || Is(sub, "bitfield") || (Truthy(sub) && !IsPrimitive(sub)) then {t} else {})
  {
  }

  /** `render_global(xml, value)`: a field typed by its `type-name`, which must be set and is imported. */
  function Global(cfg: Cfg, imports: set<Option<string>>, n: Node, value: int): (r: Result<Out>)
    ensures r.Ok? <==> Truthy(Get(n, "type-name"))
    ensures r.Ok? ==> r.value.imports == imports + {Get(n, "type-name")}
    ensures r.Err? ==> r.msg == "AssertionError"
  {
    var t := Get(n, "type-name");
    if !Truthy(t) then Err("AssertionError")
    else Ok(Out(RenderLine(cfg, n, t, value, None, "required"), imports + {t}))
  }

  /** The ordinals a struct field takes: a union (`is-union` set at all) takes its child count, anything else one. */
  function Width(item: Node): nat
  {
    if Truthy(Get(item, "is-union")) then Len(item) else 1
  }

  function SumWidths(items: seq<Node>): nat
    decreases |items|
  {
    if |items| == 0 then 0 else SumWidths(items[..|items| - 1]) + Width(items[|items| - 1])
  }

  lemma SumWidthsSnoc(items: seq<Node>, i: nat)
    requires i < |items|
    ensures SumWidths(items[..i + 1]) == SumWidths(items[..i]) + Width(items[i])
  {
    assert items[..i + 1][..i] == items[..i];
  }

  /**
   * A union's arms are its `ld:field` children, so the ordinals its arms
   * take (one each) fit in the width the struct loop reserves for it: the
   * next field's ordinal is never one of the arms'.
   */
  lemma UnionArmsFitWidth(item: Node)
    requires Truthy(Get(item, "is-union"))
    ensures |Findall(item, "ld:field")| <= Width(item)
  {
    FindallFromBound(item, "ld:field", 0);
  }

  lemma {:induction false} FindallFromBound(n: Node, tag: string, from: nat)
    requires from <= |n.children|
    ensures |FindallFrom(n, tag, from)| <= |n.children| - from
    decreases |n.children| - from
  {
    if from < |n.children| {
      FindallFromBound(n, tag, from + 1);
    }
  }

  /** Accumulated text, imports and next ordinal of the struct field loop. */
  datatype Acc = Acc(text: string, imports: set<Option<string>>, value: int)

  /** Predeclared messages, `oneof` arms and imports of the union loop. */
  datatype UAcc = UAcc(predecl: string, fields: string, imports: set<Option<string>>)

  /** `render_field(xml, value, name)`: the dispatch on `ld:meta`; any other kind raises. */
  function Field(cfg: Cfg, imports: set<Option<string>>, n: Node, value: int, name: Option<string>): Result<Out>
    decreases Size(n), 5
  {
    var meta := Get(n, "ld:meta");
    if !Truthy(meta) || Is(meta, "compound") then Compound(cfg, imports, n, value, name)
    else if Is(meta, "primitive") || Is(meta, "number") || Is(meta, "bytes") then Ok(Simple(cfg, imports, n, value, "required"))
    else if Is(meta, "container") || Is(meta, "static-array") then Container(cfg, imports, n, value, name)
    else if Is(meta, "global") then Global(cfg, imports, n, value)
    else if Is(meta, "pointer") then Pointer(cfg, imports, n, value, name)
    else Err("not supported")
  }

  /** `render_compound(xml, value, name)`. */
  function Compound(cfg: Cfg, imports: set<Option<string>>, n: Node, value: int, name: Option<string>): Result<Out>
    decreases Size(n), 4
  {
    var sub := Get(n, "ld:subtype");
    var anon := Get(n, "ld:anon-compound");
    if Is(sub, "enum") then
      var t :- FieldEnum(cfg, n, value);
      Ok(Out(t, imports))
    else if Is(sub, "bitfield") then
      var t :- FieldBitfield(cfg, n, value);
      Ok(Out(t, imports))
    else if Is(Get(n, "is-union"), "true") then
      Union(cfg, imports, n, if Is(anon, "true") then "anon" else Name(cfg, n, value), value)
    else if Is(anon, "true") then StructType(cfg, imports, n, Some("T_anon"))
    else
      var nm := if Truthy(name) then name.value else Name(cfg, n, value);
      var tn := TypedefName(n, nm);
      var s :- StructType(cfg, imports, n, Some(tn));
      var ind :- Ident(n);
      Ok(Out(s.text + ind + RenderLine(cfg, n, Some(tn), value, Some(nm), "required") + "\n", s.imports))
  }

  /** `render_pointer(xml, value, name)`: an untyped pointer with a child renders the child under the pointer's name. */
  function Pointer(cfg: Cfg, imports: set<Option<string>>, n: Node, value: int, name: Option<string>): Result<Out>
    decreases Size(n), 3
  {
    var nm := if Truthy(name) then name.value else Name(cfg, n, value);
    if Get(n, "type-name").None? && Len(n) > 0 then
      ChildSmaller(n, 0);
      Field(cfg, imports, n.children[0], value, Some(nm))
    else Ok(Out(RenderLine(cfg, n, Some("int32"), value, Some(nm + "_ref"), "optional"), imports))
  }

  /** `render_container(xml, value, name)`. */
  function Container(cfg: Cfg, imports: set<Option<string>>, n: Node, value: int, name: Option<string>): Result<Out>
    decreases Size(n), 4
  {
    var nm := if Truthy(name) then name.value else Name(cfg, n, 1);
    var pt := Get(n, "pointer-type");
    if Is(Get(n, "ld:subtype"), "df-linked-list") then Global(cfg, imports, n, value)
    else if Truthy(pt) && !IsPrimitive(pt) then Pointer(cfg, imports, n, value, None)
    else
      var t := if Truthy(pt) then pt else Get(n, "type-name");
      if Is(t, "pointer") then Ok(Out("  // ignored container " + nm, imports))
      else if IsPrimitive(t) then Ok(Out(RenderLine(cfg, n, Convert(t), value, Some(nm), "repeated"), imports))
      else if Len(n) > 0 then
        ChildSmaller(n, 0);
        Field(cfg, imports, n.children[0], value, Some(nm))
      else Ok(Out("  // ignored container " + nm, imports))
  }

  /** `render_union(xml, tname, value)`: predeclared arm messages, then `oneof <tname> { ... }`. */
  function Union(cfg: Cfg, imports: set<Option<string>>, n: Node, tname: string, value: int): Result<Out>
    decreases Size(n), 3
  {
    var u :- UnionLoop(cfg, imports, n, 0, value, "", "");
    var ind :- Ident(n);
    Ok(Out(u.predecl + "oneof " + tname + " {\n" + u.fields + ind + "}\n", u.imports))
  }

  /** The arm line of a compound arm: its predeclared message `T_anon_<value>` as type, no label. */
  function CompoundArm(cfg: Cfg, item: Node, ind: string, value: int): string
  {
    ind + "  " + RenderLine(cfg, item, Some("T_anon_" + IntToString(value)), value, None, "")
  }

  /** The arm loop of `render_union`: arm i takes ordinal `value + i`. */
  function UnionLoop(cfg: Cfg, imports: set<Option<string>>, n: Node, i: nat, value: int, predecl: string, fields: string): Result<UAcc>
    requires i <= |Findall(n, "ld:field")|
    decreases Size(n), 2, |Findall(n, "ld:field")| - i
  {
    var items := Findall(n, "ld:field");
    if i == |items| then Ok(UAcc(predecl, fields, imports))
    else
      var item := items[i];
      FindallSmaller(n, "ld:field", i);
      if Is(Get(item, "ld:meta"), "compound") then
        var s :- StructType(cfg, imports, item, Some("T_anon_" + IntToString(value)));
        var ii :- Ident(item);
        UnionLoop(cfg, s.imports, n, i + 1, value + 1, predecl + s.text, fields + CompoundArm(cfg, item, ii, value))
      else
        var ii :- Ident(item);
        var f := Simple(cfg, imports, item, value, "");
        UnionLoop(cfg, f.imports, n, i + 1, value + 1, predecl, fields + (ii + f.text))
  }

  /** The parent line of a derived struct: a field `parent` numbered 1, the comment on the next line. */
  function ParentLine(cfg: Cfg, n: Node, ind: string, parent: string): string
  {
    ind + "  " + RenderLine(cfg, n, Some(parent), 1, Some("parent"), "required") + " /* parent type */\n"
  }

  /**
   * `render_struct_type(xml, tname)`: `message <tname> {`, the parent field,
   * the fields numbered from 1 (2 after a parent), the closing brace.
   */
  function StructType(cfg: Cfg, imports: set<Option<string>>, n: Node, tname: Option<string>): Result<Out>
    decreases Size(n), 1
  {
    var t := if Truthy(tname) then tname else Get(n, "type-name");
    var ind :- Ident(n);
    if t.None? then Err("TypeError")
    else
      var parent := Get(n, "inherits-from");
      var head := ind + "message " + t.value + " {\n" + (if Truthy(parent) then ParentLine(cfg, n, ind, parent.value) else "");
      var imp1 := if Truthy(parent) then imports + {parent} else imports;
      var fields :- StructLoop(cfg, imp1, n, 0, if Truthy(parent) then 2 else 1, "");
      Ok(Out(head + fields.text + ind + "}\n", fields.imports))
  }

  /** Once the indentation and the name are known, a message is its head, then the field loop from 1 (2 after a parent). */
  lemma StructTypeHead(cfg: Cfg, imports: set<Option<string>>, n: Node, tname: Option<string>)
    requires Ident(n).Ok? && (if Truthy(tname) then tname else Get(n, "type-name")).Some?
    ensures var t := if Truthy(tname) then tname else Get(n, "type-name");
      var ind := Ident(n).value;
      var parent := Get(n, "inherits-from");
      var head := ind + "message " + t.value + " {\n" + (if Truthy(parent) then ParentLine(cfg, n, ind, parent.value) else "");
      var loop := StructLoop(cfg, if Truthy(parent) then imports + {parent} else imports, n, 0, if Truthy(parent) then 2 else 1, "");
      StructType(cfg, imports, n, tname) == (if loop.Err? then Err(loop.msg) else Ok(Out(head + loop.value.text + ind + "}\n", loop.value.imports)))
  {
  }

  /** The field loop of `render_struct_type`: each field after its own indentation, the ordinal moving by its width. */
  function StructLoop(cfg: Cfg, imports: set<Option<string>>, n: Node, i: nat, value: int, out: string): Result<Acc>
    requires i <= |Findall(n, "ld:field")|
    decreases Size(n), 0, |Findall(n, "ld:field")| - i
  {
    var items := Findall(n, "ld:field");
    if i == |items| then Ok(Acc(out, imports, value))
    else
      FindallSmaller(n, "ld:field", i);
      var f :- StructField(cfg, imports, items[i], value);
      StructLoop(cfg, f.imports, n, i + 1, value + Width(items[i]), out + f.text)
  }

  /** One field of the struct loop: its indentation, then its text. */
  function StructField(cfg: Cfg, imports: set<Option<string>>, item: Node, value: int): Result<Out>
    decreases Size(item), 6
  {
    var ii :- Ident(item);
    var f :- Field(cfg, imports, item, value, None);
    Ok(Out(ii + f.text, f.imports))
  }

  /** A struct field fails with its indentation's error, then with its rendering's; otherwise it is the two joined. */
  lemma StructFieldCases(cfg: Cfg, imports: set<Option<string>>, item: Node, value: int)
    ensures Ident(item).Err? ==> StructField(cfg, imports, item, value) == Err(Ident(item).msg)
    ensures Ident(item).Ok? && Field(cfg, imports, item, value, None).Err? ==>
      StructField(cfg, imports, item, value) == Err(Field(cfg, imports, item, value, None).msg)
    ensures Ident(item).Ok? && Field(cfg, imports, item, value, None).Ok? ==>
      StructField(cfg, imports, item, value) ==
        Ok(Out(Ident(item).value + Field(cfg, imports, item, value, None).value.text, Field(cfg, imports, item, value, None).value.imports))
  {
  }

  /** The field loop ends with its accumulators, and fails at a field whose indentation fails. */
  lemma StructLoopEnds(cfg: Cfg, imports: set<Option<string>>, n: Node, i: nat, value: int, out: string)
    requires i <= |Findall(n, "ld:field")|
    ensures i == |Findall(n, "ld:field")| ==> StructLoop(cfg, imports, n, i, value, out) == Ok(Acc(out, imports, value))
    ensures i < |Findall(n, "ld:field")| && StructField(cfg, imports, Findall(n, "ld:field")[i], value).Err? ==>
      StructLoop(cfg, imports, n, i, value, out) == Err(StructField(cfg, imports, Findall(n, "ld:field")[i], value).msg)
  {
  }

  /** A field rendered to `f` moves the field loop on by one field. */
  lemma StructLoopOk(cfg: Cfg, imports: set<Option<string>>, n: Node, i: nat, value: int, out: string, f: Out)
    requires i < |Findall(n, "ld:field")|
    requires StructField(cfg, imports, Findall(n, "ld:field")[i], value) == Ok(f)
    ensures StructLoop(cfg, imports, n, i, value, out) ==
      StructLoop(cfg, f.imports, n, i + 1, value + Width(Findall(n, "ld:field")[i]), out + f.text)
  {
  }

  /** `render_type(xml)`: the package line and the type comment, then the bitfield, enum or struct; any other kind raises. */
  function TypeDecl(cfg: Cfg, imports: set<Option<string>>, n: Node): Result<Out>
  {
    var head := AppendComment(n, if Truthy(cfg.protoNs) then "package " + cfg.protoNs.value + ";\n" else "") + "\n";
    var meta := Get(n, "ld:meta");
    if Is(meta, "bitfield-type") then
      var t :- BitfieldType(cfg, n, None);
      Ok(Out(head + t, imports))
    else if Is(meta, "enum-type") then
      var t :- EnumType(cfg, n, None, None, "");
      Ok(Out(head + t, imports))
    else if Is(meta, "class-type") || Is(meta, "struct-type") then
      var s :- StructType(cfg, imports, n, None);
      Ok(Out(head + s.text, s.imports))
    else Err("not supported")
  }

  // ---- properties of the field renderers ----

  /** A field whose `ld:meta` names no known kind raises. */
  lemma UnknownFieldRaises(cfg: Cfg, imports: set<Option<string>>, n: Node, value: int, name: Option<string>)
    requires Truthy(Get(n, "ld:meta"))
    requires Get(n, "ld:meta").value !in {"compound", "primitive", "number", "bytes", "container", "static-array", "global", "pointer"}
    ensures Field(cfg, imports, n, value, name) == Err("not supported")
  {
  }

  /** A type whose `ld:meta` is not a bitfield, enum, class or struct type raises. */
  lemma UnknownTypeRaises(cfg: Cfg, imports: set<Option<string>>, n: Node)
    requires Get(n, "ld:meta").None? || Get(n, "ld:meta").value !in {"bitfield-type", "enum-type", "class-type", "struct-type"}
    ensures TypeDecl(cfg, imports, n) == Err("not supported")
  {
  }

  /** An untyped pointer with a child renders the child under the pointer's name. */
  lemma PointerDelegates(cfg: Cfg, imports: set<Option<string>>, n: Node, value: int, name: Option<string>)
    requires Get(n, "type-name").None? && Len(n) > 0
    ensures var nm := if Truthy(name) then name.value else Name(cfg, n, value);
      Pointer(cfg, imports, n, value, name) == Field(cfg, imports, n.children[0], value, Some(nm))
  {
  }

  /**
   * A typed pointer, or one without a child, is the line
   * `optional int32 <name>_ref = <value>;` (no label in version 3), named
   * after the given name or the element's.
   */
  lemma PointerRef(cfg: Cfg, imports: set<Option<string>>, n: Node, value: int, name: Option<string>)
    requires Get(n, "type-name").Some? || Len(n) == 0
    requires !Truthy(Get(n, "comment"))
    ensures var nm := if Truthy(name) then name.value else Name(cfg, n, value);
      Pointer(cfg, imports, n, value, name) ==
        Ok(Out(LineKeyword(cfg, "optional") + " int32 " + nm + "_ref = " + IntToString(value) + ";\n", imports))
  {
    var nm := if Truthy(name) then name.value else Name(cfg, n, value);
    var line := RenderLine(cfg, n, Some("int32"), value, Some(nm + "_ref"), "optional");
    assert Pointer(cfg, imports, n, value, name) == Ok(Out(line, imports));
    PlainLine(cfg, n, "int32", value, nm + "_ref", "optional");
    Assoc5(LineKeyword(cfg, "optional"), nm, IntToString(value));
  }

  lemma Assoc5(kw: string, nm: string, v: string)
    ensures kw + " " + "int32" + " " + (nm + "_ref") + " = " + v + ";\n" == kw + " int32 " + nm + "_ref = " + v + ";\n"
  {
  }

  /** Without a comment, a typed and named line is exactly `<keyword> <type> <name> = <value>;` and a newline. */
  lemma PlainLine(cfg: Cfg, n: Node, t: string, value: int, nm: string, keyword: string)
    requires t != "" && nm != "" && !Truthy(Get(n, "comment"))
    ensures RenderLine(cfg, n, Some(t), value, Some(nm), keyword) ==
      LineKeyword(cfg, keyword) + " " + t + " " + nm + " = " + IntToString(value) + ";\n"
  {
    var kw := LineKeyword(cfg, keyword);
    var v := IntToString(value);
    assert RenderLine(cfg, n, Some(t), value, Some(nm), keyword) == kw + " " + (t + " " + nm) + (" = " + v + ";") + "\n";
  }

  /** A linked list is rendered as a global field, whatever its element type. */
  lemma ContainerOfLinkedList(cfg: Cfg, imports: set<Option<string>>, n: Node, value: int, name: Option<string>)
    requires Is(Get(n, "ld:subtype"), "df-linked-list")
    ensures Container(cfg, imports, n, value, name) == Global(cfg, imports, n, value)
  {
  }

  /**
   * A container of a primitive type (its `pointer-type`, else its
   * `type-name`) is a `repeated` line of the converted scalar, named by the
   * given name or the container's own.
   */
  lemma ContainerOfScalars(cfg: Cfg, imports: set<Option<string>>, n: Node, value: int, name: Option<string>)
    requires !Is(Get(n, "ld:subtype"), "df-linked-list")
    requires var pt := Get(n, "pointer-type");
      (!Truthy(pt) || IsPrimitive(pt)) && IsPrimitive(if Truthy(pt) then pt else Get(n, "type-name"))
    ensures var pt := Get(n, "pointer-type");
      var t := if Truthy(pt) then pt else Get(n, "type-name");
      var nm := if Truthy(name) then name.value else Name(cfg, n, 1);
      Container(cfg, imports, n, value, name) == Ok(Out(RenderLine(cfg, n, Convert(t), value, Some(nm), "repeated"), imports))
  {
    var pt := Get(n, "pointer-type");
    var t := if Truthy(pt) then pt else Get(n, "type-name");
    assert !Is(t, "pointer");
  }

  /**
   * A container of `pointer`, or of a non-primitive type with no child
   * element, is an ignored-container comment and adds no import (the source
   * sets the type to `int32` first, which nothing reads afterwards).
   */
  lemma ContainerIgnored(cfg: Cfg, imports: set<Option<string>>, n: Node, value: int, name: Option<string>)
    requires !Is(Get(n, "ld:subtype"), "df-linked-list")
    requires var pt := Get(n, "pointer-type");
      var t := if Truthy(pt) then pt else Get(n, "type-name");
      (!Truthy(pt) || IsPrimitive(pt)) && (Is(t, "pointer") || (!IsPrimitive(t) && Len(n) == 0))
    ensures var nm := if Truthy(name) then name.value else Name(cfg, n, 1);
      Container(cfg, imports, n, value, name) == Ok(Out("  // ignored container " + nm, imports))
  {
  }

  /** A non-primitive `pointer-type` makes the container a pointer field numbered by the container's ordinal. */
  lemma ContainerOfPointers(cfg: Cfg, imports: set<Option<string>>, n: Node, value: int, name: Option<string>)
    requires !Is(Get(n, "ld:subtype"), "df-linked-list")
    requires Truthy(Get(n, "pointer-type")) && !IsPrimitive(Get(n, "pointer-type"))
    ensures Container(cfg, imports, n, value, name) == Pointer(cfg, imports, n, value, None)
  {
  }

  /**
   * The struct field loop ends at the first ordinal plus the widths of all
   * fields, so field i is numbered after the widths of the fields before it.
   */
  lemma {:induction false} StructLoopOrdinals(cfg: Cfg, imports: set<Option<string>>, n: Node, i: nat, value: int, out: string)
    requires i <= |Findall(n, "ld:field")|
    requires StructLoop(cfg, imports, n, i, value, out).Ok?
    ensures var items := Findall(n, "ld:field");
      StructLoop(cfg, imports, n, i, value, out).value.value == value + SumWidths(items) - SumWidths(items[..i])
    decreases |Findall(n, "ld:field")| - i
  {
    var items := Findall(n, "ld:field");
    if i == |items| {
      assert items[..i] == items;
    } else {
      var f := StructField(cfg, imports, items[i], value).value;
      StructLoopOrdinals(cfg, f.imports, n, i + 1, value + Width(items[i]), out + f.text);
      SumWidthsSnoc(items, i);
    }
  }

  /**
   * A union's text is its predeclared messages, then `oneof <tname> {`, then
   * its arms; a union without arms is an empty `oneof`.
   */
  lemma UnionShape(cfg: Cfg, imports: set<Option<string>>, n: Node, tname: string, value: int)
    requires Union(cfg, imports, n, tname, value).Ok?
    ensures var u := UnionLoop(cfg, imports, n, 0, value, "", "").value;
      Union(cfg, imports, n, tname, value).value.text ==
        u.predecl + "oneof " + tname + " {\n" + u.fields + Ident(n).value + "}\n"
    ensures |Findall(n, "ld:field")| == 0 ==>
      Union(cfg, imports, n, tname, value).value == Out("oneof " + tname + " {\n" + Ident(n).value + "}\n", imports)
  {
    if |Findall(n, "ld:field")| == 0 {
      assert UnionLoop(cfg, imports, n, 0, value, "", "") == Ok(UAcc("", "", imports));
      assert "" + "oneof " + tname + " {\n" + "" == "oneof " + tname + " {\n";
    }
  }

  // ---- the renderer ----

  /** The enum loop, one non-negative item: the lines so far gain the ZERO line if the counter jumps from 0, then the item. */
  lemma EnumMainStep(cfg: Cfg, items: seq<Node>, pre: string, lead: string, header: string, vals: seq<Option<int>>, i: nat,
                     value: int, main: seq<Slot>, post: seq<Slot>, out: string, v1: int, zero: seq<Slot>, ztext: string)
    requires i < |vals| && !IsNegative(vals[i])
    requires v1 == if Jumps(vals[i], value) then vals[i].value else value
    requires zero == if Jumps(vals[i], value) && value == 0 then [ZeroSlot] else []
    requires ztext == if Jumps(vals[i], value) && value == 0 then lead + pre + "ZERO = 0;\n" else ""
    requires i < |items| && out == header + Body(cfg, items, pre, lead, main)
    ensures Scan(vals, i, value, main, post) == Scan(vals, i + 1, v1 + 1, main + zero + [ItemSlot(i, v1)], post)
    ensures out + ztext + (lead + ItemLine(cfg, items[i], v1, pre)) == header + Body(cfg, items, pre, lead, main + zero + [ItemSlot(i, v1)])
  {
    ScanMainStep(vals, i, value, main, post, v1, zero);
    BodySnoc(cfg, items, pre, lead, main + zero, ItemSlot(i, v1));
    if zero == [] {
      assert main + zero == main;
      assert out + ztext == out;
    } else {
      BodySnoc(cfg, items, pre, lead, main, ZeroSlot);
      Assoc3(header, Body(cfg, items, pre, lead, main), ztext);
    }
    Assoc3(header, Body(cfg, items, pre, lead, main + zero), lead + ItemLine(cfg, items[i], v1, pre));
  }

  /** The enum loop, one negative item: its line is deferred. */
  lemma EnumNegStep(cfg: Cfg, items: seq<Node>, pre: string, lead: string, vals: seq<Option<int>>, i: nat,
                    value: int, main: seq<Slot>, post: seq<Slot>, postdecl: seq<string>)
    requires i < |vals| && IsNegative(vals[i]) && i < |items|
    requires Joined(lead, postdecl) == Body(cfg, items, pre, lead, post)
    ensures Scan(vals, i, value, main, post) == Scan(vals, i + 1, value, main, post + [ItemSlot(i, vals[i].value)])
    ensures Joined(lead, postdecl + [ItemLine(cfg, items[i], vals[i].value, pre)]) ==
            Body(cfg, items, pre, lead, post + [ItemSlot(i, vals[i].value)])
  {
    JoinedSnoc(lead, postdecl, ItemLine(cfg, items[i], vals[i].value, pre));
    BodySnoc(cfg, items, pre, lead, post, ItemSlot(i, vals[i].value));
  }

  /** The values of the first `i` items all parse. */
  predicate ValuesParse(items: seq<Node>, i: nat)
  {
    forall k :: 0 <= k < i && k < |items| ==> ItemValue(items[k]).Ok?
  }

  /** At the end of the enum loop every value parsed, and the lines are the body in `Layout` order. */
  lemma EnumLoopDone(cfg: Cfg, items: seq<Node>, pre: string, lead: string, header: string, vals: seq<Option<int>>,
                     value: int, main: seq<Slot>, post: seq<Slot>, out: string, postdecl: seq<string>)
    requires vals == Lenient(items)
    requires ValuesParse(items, |items|)
    requires Layout(vals) == Scan(vals, |vals|, value, main, post)
    requires out == header + Body(cfg, items, pre, lead, main)
    requires Joined(lead, postdecl) == Body(cfg, items, pre, lead, post)
    ensures EnumValues(items) == Ok(vals)
    ensures out + Joined(lead, postdecl) == header + Body(cfg, items, pre, lead, Layout(vals))
  {
    LenientIsValues(items);
    BodyAppend(cfg, items, pre, lead, main, post);
    Assoc3(header, Body(cfg, items, pre, lead, main), Body(cfg, items, pre, lead, post));
  }

  /** One step of the mask loop: the line is appended, then the comment, then a newline. */
  lemma MaskStep(cfg: Cfg, items: seq<Node>, ind: string, k: nat, head: string, out: string, name: string)
    requires k < |items| && out == head + MaskLines(cfg, items, ind, k) && name == Name(cfg, items[k], k)
    ensures AppendComment(items[k], out + (ind + "  " + name + " = 0x" + Hex(k) + ";")) + "\n" == head + MaskLines(cfg, items, ind, k + 1)
  {
    var line := ind + "  " + name + " = 0x" + Hex(k) + ";";
    MaskNumbering(cfg, items, ind, k);
    CommentAfter(items[k], out, line);
    Assoc3(out, AppendComment(items[k], line), "\n");
    Assoc3(head, MaskLines(cfg, items, ind, k), MaskLine(cfg, items[k], ind, k));
  }

  /**
   * `ProtoRenderer`: the renames, the version and the package are its
   * configuration; `imports` is the one field a render changes. Each method
   * is proved against the function above that specifies it; the ones with a
   * loop follow the source's loop.
   */
  class ProtoRenderer {
    const xpath: map<string, seq<nat>>
    const protoNs: Option<string>
    var imports: set<Option<string>>
    var version: int
    var exceptions: seq<(string, string)>

    function Config(): Cfg
      reads this
    {
      Cfg(xpath, exceptions, version, protoNs)
    }

    /** A new renderer writes protobuf version 2, with no renames and no imports. */
    constructor (xpath: map<string, seq<nat>>, protoNs: Option<string>)
      ensures Config() == Cfg(xpath, [], 2, protoNs) && imports == {}
    {
      this.xpath := xpath;
      this.protoNs := protoNs;
      imports := {};
      version := 2;
      exceptions := [];
    }

    /** `set_version(ver)`. */
    method SetVersion(v: int)
      modifies this
      ensures Config() == old(Config()).(version := v) && imports == old(imports)
    {
      version := v;
    }

    /** `add_exception_rename(path, new_name)`: the rule goes after the existing ones. */
    method AddExceptionRename(path: string, newName: string)
      modifies this
      ensures Config() == old(Config()).(exceptions := old(exceptions) + [(path, newName)]) && imports == old(imports)
    {
      exceptions := exceptions + [(path, newName)];
    }

    /** `get_name(xml, value)`: every rule that selects the element replaces the name. */
    method GetName(n: Node, value: int) returns (name: string)
      ensures name == Name(Config(), n, value)
    {
      var nm := Get(n, "name");
      var k := 0;
      while k < |exceptions|
        invariant 0 <= k <= |exceptions|
        invariant Renamed(Config(), n, 0, Get(n, "name")) == Renamed(Config(), n, k, nm)
      {
        if Selects(xpath, exceptions[k].0, n) {
          nm := Some(exceptions[k].1);
        }
        k := k + 1;
      }
      if !Truthy(nm) {
        nm := Get(n, "ld:anon-name");
      }
      var v := if value < 0 then "m" + IntToString(-value) else IntToString(value);
      if !Truthy(nm) {
        nm := Some("anon_" + v);
      }
      name := nm.value;
    }

    /** `_render_enum_item(item, tname, value, prefix)`. */
    method RenderEnumItem(item: Node, value: int, prefix: string) returns (line: string)
      ensures line == ItemLine(Config(), item, value, prefix)
    {
      var name := GetName(item, value);
      line := AppendComment(item, prefix + name + " = " + IntToString(value) + ";") + "\n";
    }

    /** A negative item of the enum loop: its line is deferred. */
    method EnumNegItem(ghost vals: seq<Option<int>>, items: seq<Node>, i: nat, v: int, value: int, ghost main: seq<Slot>, ghost post: seq<Slot>,
                       postdecl: seq<string>, pre: string, lead: string) returns (postdecl': seq<string>, ghost post': seq<Slot>)
      requires i < |items| == |vals| && vals[i] == Some(v) && v < 0
      requires Joined(lead, postdecl) == Body(Config(), items, pre, lead, post)
      ensures Scan(vals, i, value, main, post) == Scan(vals, i + 1, value, main, post')
      ensures Joined(lead, postdecl') == Body(Config(), items, pre, lead, post')
    {
      var line := RenderEnumItem(items[i], v, pre);
      EnumNegStep(Config(), items, pre, lead, vals, i, value, main, post, postdecl);
      postdecl' := postdecl + [line];
      post' := post + [ItemSlot(i, v)];
    }

    /**
     * Any other item of the enum loop: an explicit value above the counter
     * moves the counter up, after a ZERO line when the counter was 0; the item
     * takes the counter, which then goes up by one.
     */
    method EnumMainItem(ghost vals: seq<Option<int>>, items: seq<Node>, i: nat, v: Option<int>, value: int, ghost main: seq<Slot>, ghost post: seq<Slot>,
                        out: string, ghost header: string, pre: string, lead: string) returns (value': int, out': string, ghost main': seq<Slot>)
      requires i < |items| == |vals| && vals[i] == v && !IsNegative(v)
      requires out == header + Body(Config(), items, pre, lead, main)
      ensures Scan(vals, i, value, main, post) == Scan(vals, i + 1, value', main', post)
      ensures out' == header + Body(Config(), items, pre, lead, main')
    {
      var v1 := value;
      var ztext := "";
      if v.Some? && v.value > value {
        if value == 0 {
          ztext := lead + pre + "ZERO = 0;\n";
        }
        v1 := v.value;
      }
      ghost var zero: seq<Slot> := if Jumps(vals[i], value) && value == 0 then [ZeroSlot] else [];
      var line := RenderEnumItem(items[i], v1, pre);
      EnumMainStep(Config(), items, pre, lead, header, vals, i, value, main, post, out, v1, zero, ztext);
      out' := out + ztext + (lead + line);
      main' := main + zero + [ItemSlot(i, v1)];
      value' := v1 + 1;
    }

    /**
     * The item loop of `render_enum_type`: the lines of the non-negative items
     * after `header`, and the deferred lines of the negative ones; a value that
     * is not a number raises.
     */
    /** One item of the enum loop: a negative item is deferred, any other is written. */
    method EnumItem(ghost vals: seq<Option<int>>, items: seq<Node>, i: nat, v: Option<int>, value: int,
                    ghost main: seq<Slot>, ghost post: seq<Slot>, out: string, postdecl: seq<string>, ghost header: string, pre: string, lead: string)
      returns (value': int, out': string, postdecl': seq<string>, ghost main': seq<Slot>, ghost post': seq<Slot>)
      requires i < |items| == |vals| && vals[i] == v
      requires out == header + Body(Config(), items, pre, lead, main)
      requires Joined(lead, postdecl) == Body(Config(), items, pre, lead, post)
      ensures Scan(vals, i, value, main, post) == Scan(vals, i + 1, value', main', post')
      ensures out' == header + Body(Config(), items, pre, lead, main')
      ensures Joined(lead, postdecl') == Body(Config(), items, pre, lead, post')
    {
      if v.Some? && v.value < 0 {
        value', out', main' := value, out, main;
        postdecl', post' := EnumNegItem(vals, items, i, v.value, value, main, post, postdecl, pre, lead);
      } else {
        postdecl', post' := postdecl, post;
        value', out', main' := EnumMainItem(vals, items, i, v, value, main, post, out, header, pre, lead);
      }
    }

    method EnumItems(items: seq<Node>, pre: string, lead: string, header: string) returns (r: Result<(string, seq<string>)>)
      ensures EnumValues(items).Err? ==> r == Err("ValueError")
      ensures EnumValues(items).Ok? ==> r.Ok?
      ensures EnumValues(items).Ok? && r.Ok? ==>
        r.value.0 + Joined(lead, r.value.1) == header + Body(Config(), items, pre, lead, Layout(EnumValues(items).value))
    {
      ghost var cfg := Config();
      ghost var vals := Lenient(items);
      ghost var main: seq<Slot> := [];
      ghost var post: seq<Slot> := [];
      var out := header;
      var value := 0;
      var postdecl: seq<string> := [];
      var i := 0;
      assert out == header + Body(cfg, items, pre, lead, main);
      while i < |items|
        invariant 0 <= i <= |items|
        invariant ValuesParse(items, i)
        invariant Layout(vals) == Scan(vals, i, value, main, post)
        invariant out == header + Body(cfg, items, pre, lead, main)
        invariant Joined(lead, postdecl) == Body(cfg, items, pre, lead, post)
      {
        var iv := ItemValue(items[i]);
        if iv.Err? {
          EnumValuesFail(items, i);
          return Err(iv.msg);
        }
        LenientAt(items, i);
        value, out, postdecl, main, post := EnumItem(vals, items, i, iv.value, value, main, post, out, postdecl, header, pre, lead);
        i := i + 1;
      }
      EnumLoopDone(cfg, items, pre, lead, header, vals, value, main, post, out, postdecl);
      return Ok((out, postdecl));
    }

    /** `render_enum_type(xml, tname, prefix, extra_ident)`: the item loop, the deferred lines, the closing brace. */
    method RenderEnumType(n: Node, tname: Option<string>, prefix: Option<string>, extra: string) returns (r: Result<string>)
      ensures r == EnumType(Config(), n, tname, prefix, extra)
    {
      var t := if Truthy(tname) then tname else Get(n, "type-name");
      if !Truthy(t) {
        return Err("AssertionError");
      }
      var ind := Ident(n);
      if ind.Err? {
        return Err(ind.msg);
      }
      var header := ind.value + extra + "enum " + t.value + " {\n";
      var pre := if prefix.None? then t.value + "_" else prefix.value;
      var lead := ind.value + extra + "  ";
      var items := Findall(n, "enum-item");
      var loop := EnumItems(items, pre, lead, header);
      if loop.Err? {
        return Err(loop.msg);
      }
      var out := AppendLines(loop.value.0, lead, loop.value.1);
      return Ok(out + ind.value + extra + "}\n");
    }

    /** `render_bitfield_masks(xml)`: one `<name> = 0x<bit>;` line per field, each followed by its comment. */
    method RenderMasks(n: Node) returns (r: Result<string>)
      ensures r == Masks(Config(), n)
    {
      var ind := Ident(n);
      if ind.Err? {
        return Err(ind.msg);
      }
      var items := Findall(n, "ld:field");
      var out := ind.value + "enum mask {\n";
      ghost var head := out;
      var value := 0;
      while value < |items|
        invariant 0 <= value <= |items|
        invariant out == head + MaskLines(Config(), items, ind.value, value)
      {
        var name := GetName(items[value], value);
        MaskStep(Config(), items, ind.value, value, head, out, name);
        out := AppendComment(items[value], out + (ind.value + "  " + name + " = 0x" + Hex(value) + ";")) + "\n";
        value := value + 1;
      }
      return Ok(out + ind.value + "}\n");
    }

    /** `render_bitfield_type(xml, tname)`. */
    method RenderBitfieldType(n: Node, tname: Option<string>) returns (r: Result<string>)
      ensures r == BitfieldType(Config(), n, tname)
    {
      var t := if Truthy(tname) then tname else Get(n, "type-name");
      if !Truthy(t) {
        return Err("AssertionError");
      }
      var ind := Ident(n);
      if ind.Err? {
        return Err(ind.msg);
      }
      var m := RenderMasks(n);
      var out := ind.value + "message " + t.value + " {\n";
      out := out + m.value;
      out := out + ind.value + "  " + RenderLine(Config(), n, Some("fixed32"), 1, Some("flags"), "required") + "\n";
      return Ok(out + ind.value + "}\n");
    }

    /** `_convert_tname(tname)`. */
    method ConvertTypeName(t: Option<string>) returns (r: string)
      modifies this
      ensures Config() == old(Config())
      ensures (r, imports) == ConvertTname(old(imports), t)
    {
      if IsPrimitive(t) {
        r := Types[t.value];
      } else if Truthy(t) {
        imports := imports + {t};
        r := t.value;
      } else {
        r := "bytes";
      }
    }

    /** `render_simple_field(xml, value, keyword)`. */
    method RenderSimpleField(n: Node, value: int, keyword: string) returns (text: string)
      modifies this
      ensures Config() == old(Config())
      ensures Out(text, imports) == Simple(old(Config()), old(imports), n, value, keyword)
    {
      var t := Get(n, "ld:subtype");
      if Is(t, "enum") || Is(t, "bitfield") {
        t := Get(n, "type-name");
        imports := imports + {t};
      } else {
        var c := ConvertTypeName(t);
        t := Some(c);
      }
      text := RenderLine(Config(), n, t, value, None, keyword);
    }

    /** `render_field(xml, value, name)`: renders one field and keeps the imports it adds. */
    method RenderField(n: Node, value: int, name: Option<string>) returns (r: Result<string>)
      modifies this
      ensures Config() == old(Config())
      ensures var s := Field(old(Config()), old(imports), n, value, name);
        (s.Ok? ==> r == Ok(s.value.text) && imports == s.value.imports) && (s.Err? ==> r == Err(s.msg))
    {
      var s := Field(Config(), imports, n, value, name);
      if s.Err? {
        return Err(s.msg);
      }
      imports := s.value.imports;
      return Ok(s.value.text);
    }

    /**
     * `render_struct_type(xml, tname)`: the parent field, then each field
     * after its own indentation, the ordinal moving on by the field's width.
     */
    method RenderStructType(n: Node, tname: Option<string>) returns (r: Result<string>)
      modifies this
      ensures Config() == old(Config())
      ensures var s := StructType(old(Config()), old(imports), n, tname);
        (s.Ok? ==> r == Ok(s.value.text) && imports == s.value.imports) && (s.Err? ==> r == Err(s.msg))
    {
      var t := if Truthy(tname) then tname else Get(n, "type-name");
      var ind := Ident(n);
      if ind.Err? {
        r := Err(ind.msg);
      } else if t.None? {
        r := Err("TypeError");
      } else {
        StructTypeHead(Config(), imports, n, tname);
        var parent := Get(n, "inherits-from");
        var head := ind.value + "message " + t.value + " {\n" +
          (if Truthy(parent) then ind.value + "  " + RenderLine(Config(), n, parent, 1, Some("parent"), "required") + " /* parent type */\n" else "");
        if Truthy(parent) {
          imports := imports + {parent};
        }
        var fields := RenderStructFields(n, if Truthy(parent) then 2 else 1);
        r := if fields.Err? then Err(fields.msg) else Ok(head + fields.value + ind.value + "}\n");
      }
    }

    /** The field loop of `render_struct_type`: each field after its own indentation, the ordinal moving on by the field's width. */
    method RenderStructFields(n: Node, value0: int) returns (r: Result<string>)
      modifies this
      ensures Config() == old(Config())
      ensures var s := StructLoop(old(Config()), old(imports), n, 0, value0, "");
        (s.Ok? ==> r == Ok(s.value.text) && imports == s.value.imports) && (s.Err? ==> r == Err(s.msg))
    {
      ghost var cfg := Config();
      ghost var spec := StructLoop(cfg, imports, n, 0, value0, "");
      var items := Findall(n, "ld:field");
      var body := "";
      var value := value0;
      var i := 0;
      ghost var imp := imports;
      while i < |items|
        invariant 0 <= i <= |items|
        invariant Config() == cfg && imports == imp
        invariant spec == StructLoop(cfg, imp, n, i, value, body)
      {
        var f := RenderStructField(items[i], value);
        if f.Err? {
          StructLoopEnds(cfg, imp, n, i, value, body);
          return Err(f.msg);
        }
        var next := Out(f.value, imports);
        StructLoopOk(cfg, imp, n, i, value, body, next);
        value, body, i, imp := value + Width(items[i]), body + next.text, i + 1, next.imports;
      }
      StructLoopEnds(cfg, imports, n, i, value, body);
      return Ok(body);
    }

    /** One field of the struct loop: its indentation, then the field rendered at ordinal `value`. */
    method RenderStructField(item: Node, value: int) returns (r: Result<string>)
      modifies this
      ensures Config() == old(Config())
      ensures var s := StructField(old(Config()), old(imports), item, value);
        (s.Ok? ==> r == Ok(s.value.text) && imports == s.value.imports) && (s.Err? ==> r == Err(s.msg))
    {
      StructFieldCases(Config(), imports, item, value);
      var ii := Ident(item);
      if ii.Err? {
        r := Err(ii.msg);
      } else {
        var f := RenderField(item, value, None);
        r := if f.Err? then Err(f.msg) else Ok(ii.value + f.value);
      }
    }

    /**
     * `render_union(xml, tname, value)`: arm i takes ordinal `value + i`; a
     * compound arm is predeclared as message `T_anon_<ordinal>`.
     */
    method RenderUnion(n: Node, tname: string, value0: int) returns (r: Result<string>)
      modifies this
      ensures Config() == old(Config())
      ensures var s := Union(old(Config()), old(imports), n, tname, value0);
        (s.Ok? ==> r == Ok(s.value.text) && imports == s.value.imports) && (s.Err? ==> r == Err(s.msg))
    {
      ghost var cfg := Config();
      ghost var spec := UnionLoop(cfg, imports, n, 0, value0, "", "");
      var items := Findall(n, "ld:field");
      var predecl := "";
      var fields := "";
      var value := value0;
      var i := 0;
      while i < |items|
        invariant 0 <= i <= |items|
        invariant Config() == cfg
        invariant value == value0 + i
        invariant spec == UnionLoop(cfg, imports, n, i, value, predecl, fields)
      {
        var item := items[i];
        if Is(Get(item, "ld:meta"), "compound") {
          var itname := "T_anon_" + IntToString(value);
          var s := RenderStructType(item, Some(itname));
          if s.Err? {
            return Err(s.msg);
          }
          predecl := predecl + s.value;
          var ii := Ident(item);
          fields := fields + (ii.value + "  " + RenderLine(Config(), item, Some(itname), value, None, ""));
        } else {
          var ii := Ident(item);
          if ii.Err? {
            return Err(ii.msg);
          }
          var f := RenderSimpleField(item, value, "");
          fields := fields + (ii.value + f);
        }
        value := value + 1;
        i := i + 1;
      }
      var ind := Ident(n);
      if ind.Err? {
        return Err(ind.msg);
      }
      return Ok(predecl + "oneof " + tname + " {\n" + fields + ind.value + "}\n");
    }

    /** `render_type(xml)`: the package line and the type comment, then the bitfield, enum or struct. */
    method RenderType(n: Node) returns (r: Result<string>)
      modifies this
      ensures Config() == old(Config())
      ensures var s := TypeDecl(old(Config()), old(imports), n);
        (s.Ok? ==> r == Ok(s.value.text) && imports == s.value.imports) && (s.Err? ==> r == Err(s.msg))
    {
      var meta := Get(n, "ld:meta");
      var out := if Truthy(protoNs) then "package " + protoNs.value + ";\n" else "";
      out := AppendComment(n, out) + "\n";
      if Is(meta, "bitfield-type") {
        var b := RenderBitfieldType(n, None);
        if b.Err? {
          return Err(b.msg);
        }
        return Ok(out + b.value);
      } else if Is(meta, "enum-type") {
        var e := RenderEnumType(n, None, None, "");
        if e.Err? {
          return Err(e.msg);
        }
        return Ok(out + e.value);
      } else if Is(meta, "class-type") || Is(meta, "struct-type") {
        var s := RenderStructType(n, None);
        if s.Err? {
          return Err(s.msg);
        }
        return Ok(out + s.value);
      }
      return Err("not supported");
    }
  }
}
