/**
 * cpp_renderer.py: the current generation's C++ renderer. It writes the
 * `describe_*` functions that copy a DFHack object into its protobuf message.
 *
 * The renderer's mutable state (the `imports` and `dfproto_imports` sets, the
 * last enum field rendered and the enclosing type's name) is the record `St`.
 * `render_type` catches every exception and returns an empty text, so what a
 * render changed before it raised stays changed: every render here returns
 * its state together with its text or its error (`Run`).
 */
module RootCpp {
  import opened Base
  import opened Xml
  import opened TypeTable
  import opened RootAbstract

  /** The namespaces a render reads. */
  datatype Cfg = Cfg(protoNs: string, cppNs: string)

  /**
   * The state a render changes. `globalType` is `None` until `render_type`
   * has set `global_type_name`, and then holds the type's `type-name`.
   */
  datatype St = St(imports: set<Option<string>>, dfImports: set<Option<string>>,
                   lastEnum: Option<Node>, globalType: Option<Option<string>>)

  /** The text or the exception, and the state after either. */
  datatype Run = Run(out: Result<string>, st: St)

  /** What a field render may change: the two sets only grow and the enclosing type stays. */
  predicate Grows(st: St, st': St)
  {
    st.imports <= st'.imports && st.dfImports <= st'.dfImports && st'.globalType == st.globalType
  }

  // ---- names ----

  /** `get_name(xml, value)`: `name`, else `ld:anon-name`, else `anon_<value>` (no renames here). */
  function Name(n: Node, value: int): (r: string)
    ensures r != ""
  {
    OrdinalName(Get(n, "name"), n, value)
  }

  /** `get_typedef_name(xml, name)` when `name` may be `None`: `'T_' + None` raises. */
  function TypedefNameOf(n: Node, name: Option<string>): (r: Result<string>)
    ensures r.Err? <==> !Truthy(Get(n, "ld:typedef-name")) && name.None?
    ensures r.Ok? && name.Some? ==> r.value == TypedefName(n, name.value)
  {
    if Truthy(Get(n, "ld:typedef-name")) then Ok(Get(n, "ld:typedef-name").value)
    else if name.None? then Err("TypeError")
    else Ok("T_" + name.value)
  }

  // ---- line helpers ----

  /** The comment suffix of the C++ line helpers: ` /* <comment>*/`, with no space before the end. */
  function CommentTail(n: Node): string
  {
    if Truthy(Get(n, "comment")) then " /* " + Get(n, "comment").value + "*/" else ""
  }

  /** `_render_line(xml, tname, value, name)`. */
  function RenderLine(n: Node, tname: Option<string>, value: int, name: Option<string>): string
  {
    var nm := if Truthy(name) then name.value else Name(n, value);
    (if Truthy(tname) then tname.value + " " else "") + nm + " = " + IntToString(value) + ";" + CommentTail(n) + "\n"
  }

  /** `_render_enum_item(xml, tname, value, prefix)`. */
  function EnumItem(n: Node, value: int, prefix: string): string
  {
    prefix + Name(n, value) + " = " + IntToString(value) + ";" + CommentTail(n) + "\n"
  }

  /**
   * Both line helpers end in the same `<name> = <value>;`, the comment and a
   * newline, and without a type or prefix they write the same line.
   */
  lemma LineHelpersAgree(n: Node, value: int)
    ensures RenderLine(n, None, value, None) == EnumItem(n, value, "")
    ensures EndsWith(EnumItem(n, value, ""), ";" + CommentTail(n) + "\n")
  {
    var a := Name(n, value) + " = " + IntToString(value);
    var e := EnumItem(n, value, "");
    assert "" + Name(n, value) == Name(n, value);
    assert e == a + (";" + CommentTail(n) + "\n");
    assert e[|e| - |";" + CommentTail(n) + "\n"|..] == ";" + CommentTail(n) + "\n";
  }

  // ---- type templates ----

  /** `describe_<t>(<proto_ns>::<t>* proto, df::<t>* dfhack)`. */
  function Signature(cfg: Cfg, t: string): string
  {
    "describe_" + t + "(" + cfg.protoNs + "::" + t + "* proto, df::" + t + "* dfhack)"
  }

  /** The indented definition template of `render_enum_type` and `render_bitfield_type`. */
  function Template(cfg: Cfg, t: string, body: string): string
  {
    "\n        void " + cfg.cppNs + "::" + Signature(cfg, t) + " {\n          " + body + "\n        }\n        "
  }

  /** `render_enum_type(xml, tname)`: the enum is copied whole; there must be a type name. */
  function EnumType(cfg: Cfg, n: Node, tname: Option<string>): (r: Result<string>)
    ensures r.Ok? <==> Truthy(tname) || Truthy(Get(n, "type-name"))
  {
    var t := if Truthy(tname) then tname else Get(n, "type-name");
    if !Truthy(t) then Err("AssertionError") else Ok(Template(cfg, t.value, "*proto = *dfhack;"))
  }

  /** `render_bitfield_type(xml, tname)`: the flags are copied whole; a missing name is written `None`. */
  function BitfieldType(cfg: Cfg, n: Node, tname: Option<string>): string
  {
    Template(cfg, Show(if Truthy(tname) then tname else Get(n, "type-name")), "proto->set_flags(dfhack->whole);")
  }

  /** `render_prototype(xml)`. */
  function Prototype(cfg: Cfg, n: Node): string
  {
    "void " + Signature(cfg, Show(Get(n, "type-name"))) + ";"
  }

  /** The first line of `render_struct_type`. */
  function StructHeader(cfg: Cfg, t: string): string
  {
    "void " + cfg.cppNs + "::" + Signature(cfg, t) + " {\n"
  }

  /**
   * The prototype declares the function a struct type defines: the same
   * signature, without the C++ namespace and with `;` for the body.
   */
  lemma PrototypeMatchesDefinition(cfg: Cfg, n: Node)
    ensures var sig := Signature(cfg, Show(Get(n, "type-name")));
      Prototype(cfg, n) == "void " + sig + ";" &&
      StructHeader(cfg, Show(Get(n, "type-name"))) == "void " + cfg.cppNs + "::" + sig + " {\n"
  {
  }

  // ---- fields ----

  /** `render_enum(xml, value)`: the value is cast to the enum; the element is kept as the union discriminator. */
  function Enum(st: St, n: Node, value: int): Run
  {
    var nm := Name(n, value);
    Run(Ok("  proto->set_" + nm + "(static_cast<dfproto::" + Show(Get(n, "type-name")) + ">(dfhack->" + nm + "));\n"),
        st.(lastEnum := Some(n)))
  }

  /** `render_bitfield(xml, value)`. */
  function Bitfield(n: Node, value: int): string
  {
    var nm := Name(n, value);
    "  proto->mutable_" + nm + "()->set_flags(dfhack->" + nm + ".whole);\n"
  }

  /** `_convert_tname(tname)`: a primitive becomes its scalar, another name is imported, no name is `bytes`. */
  function ConvertTname(st: St, t: Option<string>): (string, St)
  {
    if IsPrimitive(t) then (Types[t.value], st)
    else if Truthy(t) then (t.value, st.(imports := st.imports + {t}))
    else ("bytes", st)
  }

  /** `render_simple_field(xml)`: `render_field` passes no ordinal, so the name is taken with ordinal 1. */
  function SimpleField(n: Node): string
  {
    var nm := Name(n, 1);
    "  proto->set_" + nm + "(dfhack->" + nm + ");\n"
  }

  /** The loop `render_container` writes for a container of pointers to a type. */
  function RefLoop(nm: string): string
  {
    "\n            for (size_t i=0; i<dfhack->" + nm + ".size(); i++) {\n\t      proto->add_" + nm + "_ref(dfhack->" + nm + "[i]->id);\n\t    }\n"
  }

  /** The loop `render_container` writes for a container of values. */
  function ItemLoop(nm: string): string
  {
    "  for (size_t i=0; i<dfhack->" + nm + ".size(); i++) {\n    proto->add_" + nm + "(dfhack->" + nm + "[i]);\n  }\n"
  }

  /** `render_container(xml, value)`: named with ordinal 1; the ordinal is not used. */
  function Container(st: St, n: Node): (r: Run)
    ensures r.out.Ok? && Grows(st, r.st) && r.st.lastEnum == st.lastEnum
  {
    var nm := Name(n, 1);
    var pt := Get(n, "pointer-type");
    if Truthy(pt) && !IsPrimitive(pt) then Run(Ok(RefLoop(nm)), st.(imports := st.imports + {pt}))
    else
      var t := if Truthy(pt) then pt else Get(n, "type-name");
      var (c, st') := if Is(t, "pointer") then ("int32", st) else ConvertTname(st, t);
      if c == "bytes" then Run(Ok("  // type of " + nm + " not supported"), st')
      else Run(Ok(ItemLoop(nm)), st')
  }

  /** `render_global(xml, value)`: an enum or bitfield is imported, any other type goes to the dfproto imports. */
  function Global(st: St, n: Node, value: int): (r: Run)
    ensures Grows(st, r.st)
  {
    var nm := Name(n, value);
    var t := Get(n, "type-name");
    if !Truthy(t) then Run(Err("AssertionError"), st)
    else if Is(Get(n, "ld:subtype"), "enum") then Enum(st.(imports := st.imports + {t}), n, 1)
    else if Is(Get(n, "ld:subtype"), "bitfield") then Run(Ok(Bitfield(n, value)), st.(imports := st.imports + {t}))
    else Run(Ok("  describe_" + t.value + "(proto->mutable_" + nm + "(), &dfhack->" + nm + ");\n"),
             st.(dfImports := st.dfImports + {t}))
  }

  /** One `case` of the union switch: the arm's field is copied from the union member of the same name. */
  function Case(t: string, name: string, iname: string): string
  {
    "    case ::df::enums::" + t + "::" + iname + ":\n" +
    "      proto->set_" + iname + "(dfhack->" + name + "." + iname + ");\n" +
    "      break;\n"
  }

  /** The cases of the first `k` arms, every arm named with the same ordinal `value`. */
  function Cases(t: string, name: string, items: seq<Node>, value: int, k: nat): string
    requires k <= |items|
  {
    if k == 0 then "" else Cases(t, name, items, value, k - 1) + Case(t, name, Name(items[k - 1], value))
  }

  /** One more arm appends its case. */
  lemma CasesStep(t: string, name: string, items: seq<Node>, value: int, k: nat)
    requires k < |items|
    ensures Cases(t, name, items, value, k + 1) == Cases(t, name, items, value, k) + Case(t, name, Name(items[k], value))
  {
  }

  /**
   * `render_union(xml, tname, value)`: without an enum field rendered before
   * it, a comment; otherwise a switch on `dfhack->type` over that enum's
   * values. The `tname` argument is overwritten before use, so it is not one
   * here.
   */
  function Union(st: St, n: Node, value: int): string
  {
    var name := Name(n, 1);
    if st.lastEnum.None? then "// failed to find a discriminator for union " + TypedefName(n, name) + "\n"
    else
      var t := Show(Get(st.lastEnum.value, "type-name"));
      var items := Findall(n, "ld:field");
      "  switch (dfhack->type) {\n" + Cases(t, name, items, value, |items|) +
      "    default:\n" + "      proto->clear_" + name + "();\n" + "  }\n"
  }

  /** `render_field(xml, value, name)`: the dispatch on `ld:meta`; any other kind raises. */
  function Field(cfg: Cfg, st: St, n: Node, value: int, name: Option<string>): (r: Run)
    ensures Grows(st, r.st)
    decreases Size(n), 5
  {
    var meta := Get(n, "ld:meta");
    if !Truthy(meta) || Is(meta, "compound") then Compound(cfg, st, n, value, name)
    else if Is(meta, "primitive") || Is(meta, "number") || Is(meta, "bytes") then Run(Ok(SimpleField(n)), st)
    else if Is(meta, "container") || Is(meta, "static-array") then Container(st, n)
    else if Is(meta, "global") then Global(st, n, value)
    else if Is(meta, "pointer") then Pointer(cfg, st, n, value, name)
    else Run(Err("not supported"), st)
  }

  /** `render_compound(xml, value, name)`. */
  function Compound(cfg: Cfg, st: St, n: Node, value: int, name: Option<string>): (r: Run)
    ensures Grows(st, r.st)
    decreases Size(n), 4
  {
    var sub := Get(n, "ld:subtype");
    var anon := Get(n, "ld:anon-compound");
    if Is(sub, "enum") then Enum(st, n, value)
    else if Is(sub, "bitfield") then Run(Ok(Bitfield(n, value)), st)
    else if Is(Get(n, "is-union"), "true") then Run(Ok(Union(st, n, if Is(anon, "true") then value else 1)), st)
    else if Is(anon, "true") then AnonCompound(cfg, st, n, None)
    else
      var nm := if Truthy(name) then name.value else Name(n, value);
      var tn := TypedefName(n, nm);
      var a := AnonCompound(cfg, st, n, Some(nm));
      if a.out.Err? then a
      else Run(Ok(a.out.value + "  describe_" + tn + "(proto->mutable_" + nm + "(), *dfhack->" + nm + ");\n"), a.st)
  }

  /** `render_pointer(xml, value, name)`: an untyped pointer with a child renders the child under the pointer's name. */
  function Pointer(cfg: Cfg, st: St, n: Node, value: int, name: Option<string>): (r: Run)
    ensures Grows(st, r.st)
    decreases Size(n), 3
  {
    var nm := if Truthy(name) then name.value else Name(n, value);
    var t := Get(n, "type-name");
    if t.None? && Len(n) > 0 then
      ChildSmaller(n, 0);
      Field(cfg, st, n.children[0], value, Some(nm))
    else Run(Ok("  proto->set_" + nm + "_ref(dfhack->" + nm + "->id);\n"), st.(imports := st.imports + {t}))
  }

  /** The lambda header of `render_anon_compound`, inside the enclosing type. */
  function LambdaHead(gtn: string, tn: string): string
  {
    "  auto describe_" + tn + " = [](dfproto::" + gtn + "_" + tn + "* proto, df::" + gtn + "::" + tn + "* dfhack) {\n"
  }

  /**
   * `render_anon_compound(xml, name)`: a lambda over the fields, named by the
   * typedef name; it needs a name and the enclosing type's name.
   */
  function AnonCompound(cfg: Cfg, st: St, n: Node, name: Option<string>): (r: Run)
    ensures Grows(st, r.st)
    decreases Size(n), 2
  {
    var tn := TypedefNameOf(n, name);
    if tn.Err? then Run(Err(tn.msg), st)
    else if st.globalType.None? then Run(Err("AttributeError"), st)
    else
      var f := FieldsLoop(cfg, st, n, 0, LambdaHead(Show(st.globalType.value), tn.value));
      if f.out.Err? then f else Run(Ok(f.out.value + "};\n"), f.st)
  }

  /** The field loop of `render_struct_type` and `render_anon_compound`: every field is rendered with ordinal 1. */
  function FieldsLoop(cfg: Cfg, st: St, n: Node, i: nat, out: string): (r: Run)
    requires i <= |Findall(n, "ld:field")|
    ensures Grows(st, r.st)
    ensures r.out.Ok? ==> |r.out.value| >= |out|
    decreases Size(n), 1, |Findall(n, "ld:field")| - i
  {
    var items := Findall(n, "ld:field");
    if i == |items| then Run(Ok(out), st)
    else
      FindallSmaller(n, "ld:field", i);
      var f := Field(cfg, st, items[i], 1, None);
      if f.out.Err? then f
      else
        var r := FieldsLoop(cfg, f.st, n, i + 1, out + f.out.value);
        r
  }

  /** `render_struct_type(xml, tname)`: the header, the parent's describe call, the fields. */
  function StructType(cfg: Cfg, st: St, n: Node, tname: Option<string>): (r: Run)
    ensures Grows(st, r.st)
    ensures r.out.Ok? ==> |r.out.value| > 0
  {
    var t := Show(if Truthy(tname) then tname else Get(n, "type-name"));
    var parent := Get(n, "inherits-from");
    var head := StructHeader(cfg, t) +
      (if Truthy(parent) then "  describe_" + parent.value + "(proto->mutable_parent(), dfhack);\n" else "");
    var st1 := if Truthy(parent) then st.(dfImports := st.dfImports + {parent}) else st;
    var f := FieldsLoop(cfg, st1, n, 0, head);
    if f.out.Err? then f else Run(Ok(f.out.value + "}\n"), f.st)
  }

  /** The `try` body of `render_type`, after `global_type_name` is set. */
  function Decl(cfg: Cfg, st: St, n: Node): (r: Run)
    ensures r.st.globalType == Some(Get(n, "type-name"))
    ensures r.out.Ok? ==> |r.out.value| > 0
  {
    var st1 := st.(globalType := Some(Get(n, "type-name")));
    var meta := Get(n, "ld:meta");
    if Is(meta, "bitfield-type") then Run(Ok(BitfieldType(cfg, n, None)), st1)
    else if Is(meta, "enum-type") then Run(EnumType(cfg, n, None), st1)
    else if Is(meta, "class-type") || Is(meta, "struct-type") then StructType(cfg, st1, n, None)
    else Run(Err("not supported"), st1)
  }

  /**
   * `render_type(xml)`: any exception is caught and gives an empty text; the
   * state keeps what the render changed before it raised.
   */
  function TypeDecl(cfg: Cfg, st: St, n: Node): (string, St)
  {
    var r := Decl(cfg, st, n);
    (if r.out.Ok? then r.out.value else "", r.st)
  }

  /** `render_bitfield_masks(xml)`: mask line k, `<name> = 0x<k>;` with the field named after k, and its comment. */
  function MaskLine(item: Node, ind: string, k: nat): string
  {
    ind + "  " + Name(item, k) + " = 0x" + Hex(k) + ";" + CommentTail(item) + "\n"
  }

  function MaskLines(items: seq<Node>, ind: string, k: nat): string
    requires k <= |items|
  {
    if k == 0 then "" else MaskLines(items, ind, k - 1) + MaskLine(items[k - 1], ind, k - 1)
  }

  /** `render_bitfield_masks(xml)`: an `enum mask` with field k's value its bit position k. */
  function Masks(n: Node): Result<string>
  {
    var ind :- Ident(n);
    var items := Findall(n, "ld:field");
    Ok(ind + "enum mask {\n" + MaskLines(items, ind, |items|) + ind + "}\n")
  }

  // ---- properties ----

  /**
   * `render_type` yields the empty text exactly when its body raised, and
   * leaves `global_type_name` set to the type's name either way.
   */
  lemma RenderTypeSwallowsErrors(cfg: Cfg, st: St, n: Node)
    ensures TypeDecl(cfg, st, n).0 == "" <==> Decl(cfg, st, n).out.Err?
    ensures TypeDecl(cfg, st, n).1.globalType == Some(Get(n, "type-name"))
    ensures Decl(cfg, st, n).out.Ok? ==> TypeDecl(cfg, st, n).0 == Decl(cfg, st, n).out.value
  {
  }

  /** A type whose `ld:meta` is not a bitfield, enum, class or struct type renders as the empty text. */
  lemma UnknownTypeIsEmpty(cfg: Cfg, st: St, n: Node)
    requires Get(n, "ld:meta").None? || Get(n, "ld:meta").value !in {"bitfield-type", "enum-type", "class-type", "struct-type"}
    ensures TypeDecl(cfg, st, n) == ("", st.(globalType := Some(Get(n, "type-name"))))
  {
  }

  /** A field whose `ld:meta` names no known kind raises and changes nothing. */
  lemma UnknownFieldRaises(cfg: Cfg, st: St, n: Node, value: int, name: Option<string>)
    requires Truthy(Get(n, "ld:meta"))
    requires Get(n, "ld:meta").value !in {"compound", "primitive", "number", "bytes", "container", "static-array", "global", "pointer"}
    ensures Field(cfg, st, n, value, name) == Run(Err("not supported"), st)
  {
  }

  /** A simple field is named with ordinal 1 whatever ordinal it is rendered with, and changes nothing. */
  lemma SimpleIgnoresOrdinal(cfg: Cfg, st: St, n: Node, a: int, b: int, name: Option<string>)
    requires Is(Get(n, "ld:meta"), "primitive") || Is(Get(n, "ld:meta"), "number") || Is(Get(n, "ld:meta"), "bytes")
    ensures Field(cfg, st, n, a, name) == Field(cfg, st, n, b, None) == Run(Ok(SimpleField(n)), st)
  {
  }

  /**
   * An enum field records itself as the discriminator: a union rendered next
   * switches on that enum's `type-name`.
   */
  lemma EnumIsDiscriminator(st: St, e: Node, value: int, u: Node, w: int)
    ensures Enum(st, e, value).st.lastEnum == Some(e)
    ensures var name := Name(u, 1);
      var items := Findall(u, "ld:field");
      Union(Enum(st, e, value).st, u, w) ==
        "  switch (dfhack->type) {\n" + Cases(Show(Get(e, "type-name")), name, items, w, |items|) +
        "    default:\n" + "      proto->clear_" + name + "();\n" + "  }\n"
  {
  }

  /** Without an enum rendered before it, a union is a comment naming its typedef name. */
  lemma UnionNoDiscriminator(st: St, n: Node, value: int)
    requires st.lastEnum.None?
    ensures Union(st, n, value) == "// failed to find a discriminator for union " + TypedefName(n, Name(n, 1)) + "\n"
  {
  }

  /**
   * Every arm of the switch is named with the union's own ordinal, so two
   * arms with neither `name` nor `ld:anon-name` get the same case label
   * (`anon_<value>`), where the protobuf renderer numbers them apart.
   */
  lemma UnnamedArmsShareCase(t: string, name: string, a: Node, b: Node, value: int)
    requires !Truthy(Get(a, "name")) && !Truthy(Get(a, "ld:anon-name"))
    requires !Truthy(Get(b, "name")) && !Truthy(Get(b, "ld:anon-name"))
    ensures Name(a, value) == Name(b, value) == "anon_" + Ordinal(value)
    ensures Case(t, name, Name(a, value)) == Case(t, name, Name(b, value))
  {
  }

  /** The k-th case follows the first k, and arm k is named with the union's ordinal whatever k is. */
  lemma CasesSnoc(t: string, name: string, items: seq<Node>, value: int, k: nat)
    requires k < |items|
    ensures Cases(t, name, items, value, k + 1) == Cases(t, name, items, value, k) + Case(t, name, Name(items[k], value))
  {
  }

  /**
   * Containers: pointers to a type are copied by id and the type imported; a
   * container of `pointer` copies int32 values; one whose element converts to
   * `bytes` (or has no type) is a comment; the state changes only by the
   * import of a converted non-primitive type.
   */
  lemma ContainerCases(st: St, n: Node)
    ensures var pt := Get(n, "pointer-type");
      Truthy(pt) && !IsPrimitive(pt) ==>
        Container(st, n) == Run(Ok(RefLoop(Name(n, 1))), st.(imports := st.imports + {pt}))
    ensures var pt := Get(n, "pointer-type");
      var t := if Truthy(pt) then pt else Get(n, "type-name");
      (!Truthy(pt) || IsPrimitive(pt)) && Is(t, "pointer") ==> Container(st, n) == Run(Ok(ItemLoop(Name(n, 1))), st)
    ensures var pt := Get(n, "pointer-type");
      var t := if Truthy(pt) then pt else Get(n, "type-name");
      ((!Truthy(pt) || IsPrimitive(pt)) && !Is(t, "pointer") && (!Truthy(t) || (IsPrimitive(t) && Types[t.value] == "bytes")))
      ==> Container(st, n) == Run(Ok("  // type of " + Name(n, 1) + " not supported"), st)
  {
  }

  /**
   * A global field needs a `type-name`; an enum or bitfield global imports it
   * (an enum global becomes the discriminator and is named with ordinal 1),
   * any other goes to the dfproto imports.
   */
  lemma GlobalImports(st: St, n: Node, value: int)
    ensures var t := Get(n, "type-name");
      !Truthy(t) ==> Global(st, n, value) == Run(Err("AssertionError"), st)
    ensures var t := Get(n, "type-name");
      Truthy(t) && Is(Get(n, "ld:subtype"), "enum") ==>
        Global(st, n, value).st == st.(imports := st.imports + {t}, lastEnum := Some(n)) &&
        Global(st, n, value).out == Enum(st, n, 1).out
    ensures var t := Get(n, "type-name");
      Truthy(t) && !Is(Get(n, "ld:subtype"), "enum") && !Is(Get(n, "ld:subtype"), "bitfield") ==>
        Global(st, n, value).st == st.(dfImports := st.dfImports + {t})
  {
  }

  /**
   * An anonymous compound without a typedef name and without a name raises
   * `TypeError`; outside `render_type` (no enclosing type name yet) it raises
   * `AttributeError`.
   */
  lemma AnonCompoundNeedsNames(cfg: Cfg, st: St, n: Node, name: Option<string>)
    ensures !Truthy(Get(n, "ld:typedef-name")) && name.None? ==> AnonCompound(cfg, st, n, name) == Run(Err("TypeError"), st)
    ensures (Truthy(Get(n, "ld:typedef-name")) || name.Some?) && st.globalType.None? ==>
      AnonCompound(cfg, st, n, name) == Run(Err("AttributeError"), st)
  {
  }

  /** A compound marked anonymous is rendered with no name, so without a typedef name it raises. */
  lemma AnonymousCompoundRaises(cfg: Cfg, st: St, n: Node, value: int, name: Option<string>)
    requires !Is(Get(n, "ld:subtype"), "enum") && !Is(Get(n, "ld:subtype"), "bitfield")
    requires !Is(Get(n, "is-union"), "true") && Is(Get(n, "ld:anon-compound"), "true")
    requires !Truthy(Get(n, "ld:typedef-name"))
    ensures Compound(cfg, st, n, value, name) == Run(Err("TypeError"), st)
  {
  }

  /** Mask k is numbered k in hexadecimal and, unnamed, is called `anon_<k>`; the k-th line follows the first k. */
  lemma MaskNumbering(items: seq<Node>, ind: string, k: nat)
    requires k < |items|
    ensures MaskLines(items, ind, k + 1) == MaskLines(items, ind, k) + MaskLine(items[k], ind, k)
    ensures StartsWith(MaskLine(items[k], ind, k), ind + "  " + Name(items[k], k) + " = 0x" + Hex(k) + ";")
    ensures !Truthy(Get(items[k], "name")) && !Truthy(Get(items[k], "ld:anon-name")) ==> Name(items[k], k) == "anon_" + IntToString(k)
  {
    var line := ind + "  " + Name(items[k], k) + " = 0x" + Hex(k) + ";";
    assert MaskLine(items[k], ind, k) == line + (CommentTail(items[k]) + "\n");
    assert MaskLine(items[k], ind, k)[..|line|] == line;
  }

  // ---- the renderer ----

  /**
   * `CppRenderer`: the namespaces are its configuration, the two import sets,
   * the last enum and the enclosing type's name its state. Each method is
   * proved against the function above that specifies it; the ones with a
   * loop follow the source's loop.
   */
  class CppRenderer {
    const protoNs: string
    const cppNs: string
    var imports: set<Option<string>>
    var dfprotoImports: set<Option<string>>
    var lastEnum: Option<Node>
    var globalType: Option<Option<string>>

    function Config(): Cfg
      reads this
    {
      Cfg(protoNs, cppNs)
    }

    function State(): St
      reads this
    {
      St(imports, dfprotoImports, lastEnum, globalType)
    }

    /** A new renderer has empty import sets, no enum recorded and no enclosing type. */
    constructor (protoNs: string, cppNs: string)
      ensures Config() == Cfg(protoNs, cppNs) && State() == St({}, {}, None, None)
    {
      this.protoNs := protoNs;
      this.cppNs := cppNs;
      imports := {};
      dfprotoImports := {};
      lastEnum := None;
      globalType := None;
    }

    /** Writes a new state back into the fields. */
    method Store(st: St)
      modifies this
      ensures State() == st
    {
      imports := st.imports;
      dfprotoImports := st.dfImports;
      lastEnum := st.lastEnum;
      globalType := st.globalType;
    }

    /** `render_field(xml, value, name)`: renders one field and keeps the state it leaves, raising or not. */
    method RenderField(n: Node, value: int, name: Option<string>) returns (r: Result<string>)
      modifies this
      ensures Run(r, State()) == Field(Config(), old(State()), n, value, name)
    {
      var f := Field(Config(), State(), n, value, name);
      Store(f.st);
      r := f.out;
    }

    /** The field loop of `render_struct_type` and `render_anon_compound`: `out += render_field(item)`. */
    method RenderFields(n: Node, out0: string) returns (r: Result<string>)
      modifies this
      ensures Run(r, State()) == FieldsLoop(Config(), old(State()), n, 0, out0)
    {
      ghost var spec := FieldsLoop(Config(), State(), n, 0, out0);
      var items := Findall(n, "ld:field");
      var out := out0;
      var i := 0;
      while i < |items|
        invariant 0 <= i <= |items|
        invariant spec == FieldsLoop(Config(), State(), n, i, out)
      {
        var f := RenderField(items[i], 1, None);
        if f.Err? {
          return f;
        }
        out := out + f.value;
        i := i + 1;
      }
      return Ok(out);
    }

    /** `render_struct_type(xml, tname)`. */
    method RenderStructType(n: Node, tname: Option<string>) returns (r: Result<string>)
      modifies this
      ensures Run(r, State()) == StructType(Config(), old(State()), n, tname)
    {
      ghost var st0 := State();
      var t := Show(if Truthy(tname) then tname else Get(n, "type-name"));
      var out := StructHeader(Config(), t);
      var parent := Get(n, "inherits-from");
      if Truthy(parent) {
        out := out + ("  describe_" + parent.value + "(proto->mutable_parent(), dfhack);\n");
        dfprotoImports := dfprotoImports + {parent};
        assert State() == st0.(dfImports := st0.dfImports + {parent});
      } else {
        assert out + "" == out;
      }
      assert StructType(Config(), st0, n, tname) == (var f := FieldsLoop(Config(), State(), n, 0, out);
        if f.out.Err? then f else Run(Ok(f.out.value + "}\n"), f.st));
      var f := RenderFields(n, out);
      if f.Err? {
        return f;
      }
      return Ok(f.value + "}\n");
    }

    /** `render_anon_compound(xml, name)`. */
    method RenderAnonCompound(n: Node, name: Option<string>) returns (r: Result<string>)
      modifies this
      ensures Run(r, State()) == AnonCompound(Config(), old(State()), n, name)
    {
      var tn := TypedefNameOf(n, name);
      if tn.Err? {
        return Err(tn.msg);
      }
      if globalType.None? {
        return Err("AttributeError");
      }
      var f := RenderFields(n, LambdaHead(Show(globalType.value), tn.value));
      if f.Err? {
        return f;
      }
      return Ok(f.value + "};\n");
    }

    /** `render_union(xml, tname, value)`: one `case` per arm, all named with `value`. */
    method RenderUnion(n: Node, value: int) returns (out: string)
      ensures out == Union(State(), n, value)
    {
      var name := Name(n, 1);
      if lastEnum.None? {
        return "// failed to find a discriminator for union " + TypedefName(n, name) + "\n";
      }
      var t := Show(Get(lastEnum.value, "type-name"));
      var items := Findall(n, "ld:field");
      var cases := "";
      var i := 0;
      while i < |items|
        invariant 0 <= i <= |items|
        invariant cases == Cases(t, name, items, value, i)
      {
        CasesStep(t, name, items, value, i);
        cases := cases + Case(t, name, Name(items[i], value));
        i := i + 1;
      }
      out := "  switch (dfhack->type) {\n" + cases +
        "    default:\n" + "      proto->clear_" + name + "();\n" + "  }\n";
    }

    /** `render_bitfield_masks(xml)`. */
    method RenderBitfieldMasks(n: Node) returns (r: Result<string>)
      ensures r == Masks(n)
    {
      var ind := Ident(n);
      if ind.Err? {
        return Err(ind.msg);
      }
      var items := Findall(n, "ld:field");
      var lines := "";
      var value := 0;
      while value < |items|
        invariant 0 <= value <= |items|
        invariant lines == MaskLines(items, ind.value, value)
      {
        lines := lines + MaskLine(items[value], ind.value, value);
        value := value + 1;
      }
      return Ok(ind.value + "enum mask {\n" + lines + ind.value + "}\n");
    }

    /** `render_type(xml)`: sets the enclosing type's name, renders, and turns an exception into the empty text. */
    method RenderType(n: Node) returns (out: string)
      modifies this
      ensures (out, State()) == TypeDecl(Config(), old(State()), n)
    {
      globalType := Some(Get(n, "type-name"));
      var meta := Get(n, "ld:meta");
      var r: Result<string>;
      if Is(meta, "bitfield-type") {
        r := Ok(BitfieldType(Config(), n, None));
      } else if Is(meta, "enum-type") {
        r := EnumType(Config(), n, None);
      } else if Is(meta, "class-type") || Is(meta, "struct-type") {
        r := RenderStructType(n, None);
      } else {
        r := Err("not supported");
      }
      out := if r.Ok? then r.value else "";
    }
  }
}
