/**
 * protogen.legacy/proto_renderer.py: renders one DFHack type, or one field,
 * as Protocol Buffers schema text.
 *
 * The renderer's mutable state (the anonymous-name cache and the `imports`
 * set) is the record `St`, threaded through the functions below in the order
 * the source performs its calls; `copy()` is a renderer with a fresh cache
 * that shares the caller's `imports`. A `Context` is a value returned
 * together with the text, because the source's callers read back the changes
 * its callees make to it (`ctx.name`, `ctx.keyword`, `ctx.ident`).
 */
module LegacyProto {
  import opened Base
  import opened Xml
  import opened TypeTable
  import opened EnumNumbering
  import opened LegacyAbstract

  /** `Context`: the field ordinal, the field name once chosen, the keyword and the indent offset. */
  datatype Ctx = Ctx(value: int, name: Option<string>, keyword: string, ident: int)

  /** `Context(value, keyword=keyword, ident=ident)`. */
  function NewCtx(value: Option<int>, keyword: Option<string>, ident: int): Ctx
  {
    Ctx(if value.Some? && value.value != 0 then value.value else 1, None,
        if keyword.None? then "required" else keyword.value, ident)
  }

  /** `Context()`. */
  const DefaultCtx: Ctx := NewCtx(None, None, 0)

  /** A falsy ordinal becomes 1, the keyword defaults to `required`, the indent offset to 0. */
  lemma ContextDefaults(value: Option<int>, ident: int)
    ensures DefaultCtx == Ctx(1, None, "required", 0)
    ensures NewCtx(Some(0), None, ident).value == 1
    ensures NewCtx(value, Some(""), ident).keyword == ""
  {
  }

  /** The settings a render reads but never changes. */
  datatype Cfg = Cfg(rules: Rules, version: int, protoNs: Option<string>)

  /** The state a render changes: the anonymous-name cache and the imports. */
  datatype St = St(anon: Anon, imports: set<Option<string>>)

  /** The state of `self.copy()`: a fresh cache, the same imports. */
  function Fresh(st: St): St
  {
    St(NoAnon, st.imports)
  }

  /** Text, new state and the context as the callee left it. */
  datatype Out = Out(text: string, st: St, ctx: Ctx)

  function AddImport(st: St, t: Option<string>): St
  {
    st.(imports := st.imports + {t})
  }

  /** `ProtoRenderer.get_name`: the protobuf name. */
  function PbName(cfg: Cfg, st: St, n: Node): (r: (string, St))
    ensures r.0 != "" && r.1.imports == st.imports
  {
    var x := ResolveName(cfg.rules, st.anon, n);
    (x.pb, st.(anon := x.anon))
  }

  /** `if not ctx.name: ctx.name = self.get_name(xml)`. */
  function EnsureName(cfg: Cfg, st: St, n: Node, ctx: Ctx): (r: (Ctx, St))
    ensures Truthy(r.0.name) && r.1.imports == st.imports
    ensures r.0 == ctx.(name := r.0.name)
    ensures Truthy(ctx.name) ==> r == (ctx, st)
  {
    if Truthy(ctx.name) then (ctx, st)
    else
      var (pb, st1) := PbName(cfg, st, n);
      (ctx.(name := Some(pb)), st1)
  }

  /** The keyword `_render_line` writes: version 3 drops `required` and `optional`. */
  function LineKeyword(cfg: Cfg, keyword: string): string
  {
    if cfg.version == 3 && (keyword == "required" || keyword == "optional") then "" else keyword
  }

  /** `_render_line(xml, tname, ctx)`: `<keyword> [<tname> ]<name> = <value>;` and the comment. */
  function RenderLine(cfg: Cfg, st: St, n: Node, tname: Option<string>, ctx: Ctx): (r: Result<Out>)
    ensures r.Ok? ==> Truthy(r.value.ctx.name) && r.value.st.imports == st.imports
    ensures r.Ok? ==> r.value.ctx == ctx.(keyword := LineKeyword(cfg, ctx.keyword), name := r.value.ctx.name)
    ensures r.Ok? <==> Level(n).Ok?
  {
    var kw := LineKeyword(cfg, ctx.keyword);
    var ind :- Ident(n, ctx.ident);
    var head := ind + kw + " " + (if Truthy(tname) then tname.value + " " else "");
    var (c, st1) := EnsureName(cfg, st, n, ctx.(keyword := kw));
    Ok(Out(AppendComment(n, head + c.name.value + " = " + IntToString(ctx.value) + ";"), st1, c))
  }

  lemma StartsWithTrans(a: string, b: string, c: string)
    requires StartsWith(a, b) && StartsWith(b, c)
    ensures StartsWith(a, c)
  {
    assert a[..|c|] == a[..|b|][..|c|];
  }

  /**
   * Version 3 drops `required` and `optional` for this line and for every
   * later use of the context; `repeated` and the empty keyword stay. The line
   * starts with the indentation and that keyword; its name is the context's,
   * or the element's protobuf name, which the context then keeps.
   */
  lemma LineKeywordAndName(cfg: Cfg, st: St, n: Node, tname: Option<string>, ctx: Ctx)
    requires Level(n).Ok?
    ensures var r := RenderLine(cfg, st, n, tname, ctx);
      var kw := if cfg.version == 3 && (ctx.keyword == "required" || ctx.keyword == "optional") then "" else ctx.keyword;
      r.Ok? && r.value.ctx.keyword == kw &&
      StartsWith(r.value.text, Indent(Level(n).value + ctx.ident) + kw + " ") &&
      r.value.ctx.name == (if Truthy(ctx.name) then ctx.name else Some(ResolveName(cfg.rules, st.anon, n).pb))
  {
    var kw := LineKeyword(cfg, ctx.keyword);
    var ind := Indent(Level(n).value + ctx.ident);
    var head := ind + kw + " " + (if Truthy(tname) then tname.value + " " else "");
    var ec := EnsureName(cfg, st, n, ctx.(keyword := kw));
    var line := head + ec.0.name.value + " = " + IntToString(ctx.value) + ";";
    LineUnfold(cfg, st, n, tname, ctx);
    assert StartsWith(line, ind + kw + " ") by {
      assert line[..|ind + kw + " "|] == ind + kw + " ";
    }
    AppendCommentShape(n, line);
    StartsWithTrans(AppendComment(n, line), line, ind + kw + " ");
  }

  /** A line whose element has a level is the commented `keyword [type] name = ordinal;`. */
  lemma LineUnfold(cfg: Cfg, st: St, n: Node, tname: Option<string>, ctx: Ctx)
    requires Level(n).Ok?
    ensures var kw := LineKeyword(cfg, ctx.keyword);
      var head := Indent(Level(n).value + ctx.ident) + kw + " " + (if Truthy(tname) then tname.value + " " else "");
      var ec := EnsureName(cfg, st, n, ctx.(keyword := kw));
      RenderLine(cfg, st, n, tname, ctx) == Ok(Out(AppendComment(n, head + ec.0.name.value + " = " + IntToString(ctx.value) + ";"), ec.1, ec.0))
  {
    assert Ident(n, ctx.ident) == Ok(Indent(Level(n).value + ctx.ident));
  }

  // ---- enumerations ----

  /** The protobuf names of the items, resolved one after the other. */
  function ItemNames(rules: Rules, anon: Anon, items: seq<Node>): (r: (seq<string>, Anon))
    ensures |r.0| == |items|
    decreases |items|
  {
    if |items| == 0 then ([], anon)
    else
      var p := ItemNames(rules, anon, items[..|items| - 1]);
      var x := ResolveName(rules, p.1, items[|items| - 1]);
      (p.0 + [x.pb], x.anon)
  }

  lemma {:induction false} ItemNamesPrefix(rules: Rules, anon: Anon, items: seq<Node>, i: nat)
    requires i <= |items|
    ensures ItemNames(rules, anon, items[..i]).0 == ItemNames(rules, anon, items).0[..i]
    decreases |items|
  {
    if i < |items| {
      assert items[..|items| - 1][..i] == items[..i];
      ItemNamesPrefix(rules, anon, items[..|items| - 1], i);
    } else {
      assert items[..i] == items;
    }
  }

  /** `_render_enum_item`: `<prefix><name> = <value>;` and the comment. */
  function ItemLine(item: Node, name: string, value: int, prefix: string): string
  {
    AppendComment(item, prefix + name + " = " + IntToString(value) + ";")
  }

  /** One body line, indented by `lead`. */
  function SlotText(items: seq<Node>, names: seq<string>, prefix: string, lead: string, s: Slot): string
  {
    match s
    case ZeroSlot => lead + prefix + "ZERO = 0;\n"
    case ItemSlot(k, v) => if k < |items| && k < |names| then lead + ItemLine(items[k], names[k], v, prefix) else ""
  }

  function SlotsText(items: seq<Node>, names: seq<string>, prefix: string, lead: string, slots: seq<Slot>): string
    decreases |slots|
  {
    if |slots| == 0 then ""
    else SlotsText(items, names, prefix, lead, slots[..|slots| - 1]) + SlotText(items, names, prefix, lead, slots[|slots| - 1])
  }

  lemma {:induction false} SlotsTextAppend(items: seq<Node>, names: seq<string>, prefix: string, lead: string, a: seq<Slot>, b: seq<Slot>)
    ensures SlotsText(items, names, prefix, lead, a + b) ==
      SlotsText(items, names, prefix, lead, a) + SlotsText(items, names, prefix, lead, b)
    decreases |b|
  {
    if |b| > 0 {
      assert (a + b)[..|a + b| - 1] == a + b[..|b| - 1];
      SlotsTextAppend(items, names, prefix, lead, a, b[..|b| - 1]);
    } else {
      assert a + b == a;
    }
  }

  /** The enum name `render_type_enum` uses: the argument, else `type-name`; it must be set. */
  function EnumTypeName(n: Node, tname: Option<string>): Option<string>
  {
    if Truthy(tname) then tname else Get(n, "type-name")
  }

  /**
   * `render_type_enum(xml, tname, prefix, extra_ident)`: the header, the body
   * lines in the order `Layout` gives them (each item named by `get_name` in
   * document order), and the closing brace.
   */
  function TypeEnum(cfg: Cfg, st: St, n: Node, tname: Option<string>, prefix: Option<string>, extra: string): Result<(string, St)>
  {
    var t := EnumTypeName(n, tname);
    if !Truthy(t) then Err("AssertionError")
    else
      var ind :- Ident(n, 0);
      var pre := if prefix.None? then t.value + "_" else prefix.value;
      var items := Findall(n, "enum-item");
      var vals :- EnumValues(items);
      var (names, anon) := ItemNames(cfg.rules, st.anon, items);
      var lead := ind + extra + "  ";
      Ok((ind + extra + "enum " + t.value + " {\n" + SlotsText(items, names, pre, lead, Layout(vals)) + ind + extra + "}\n",
          st.(anon := anon)))
  }

  /**
   * An enum without explicit values numbers item k as k, each line being
   * `<prefix><name> = k;`, and the prefix defaults to `<tname>_`.
   */
  lemma EnumDefaultNumbering(cfg: Cfg, st: St, n: Node, tname: Option<string>, extra: string)
    requires Truthy(EnumTypeName(n, tname)) && Level(n).Ok?
    requires forall k :: 0 <= k < |Findall(n, "enum-item")| ==> !Truthy(Get(Findall(n, "enum-item")[k], "value"))
    ensures var items := Findall(n, "enum-item");
      var ind := Indent(Level(n).value);
      var t := EnumTypeName(n, tname).value;
      var names := ItemNames(cfg.rules, st.anon, items).0;
      TypeEnum(cfg, st, n, tname, None, extra).Ok? &&
      TypeEnum(cfg, st, n, tname, None, extra).value.0 ==
        ind + extra + "enum " + t + " {\n" +
        SlotsText(items, names, t + "_", ind + extra + "  ", Counted(0, |items|, 0)) +
        ind + extra + "}\n"
  {
    var items := Findall(n, "enum-item");
    EnumValuesNone(items);
    NoExplicitValues(EnumValues(items).value);
  }

  /** `render_field_enum`: a named enum is imported, a local one is declared with its items prefixed `<typedef>_`. */
  function FieldEnum(cfg: Cfg, st: St, n: Node, ctx: Ctx): Result<Out>
  {
    var (c, st1) := EnsureName(cfg, st, n, ctx);
    var t := Get(n, "type-name");
    if Truthy(t) then
      var st2 := if !IsPrimitive(t) then AddImport(st1, t) else st1;
      var line :- RenderLine(cfg, st2, n, t, c);
      Ok(Out(line.text + "\n", line.st, line.ctx))
    else
      var (tn, anon) := GetTypedefName(cfg.rules, st1.anon, n, c.name);
      var (body, st3) :- TypeEnum(cfg, st1.(anon := anon), n, Some(tn), Some(tn + "_"), "  ");
      var line :- RenderLine(cfg, st3, n, Some(tn), c);
      Ok(Out(body + line.text + "\n", line.st, line.ctx))
  }

  /** A local enum field declares its enum first, then the field line with the enum's name as type. */
  lemma LocalEnumField(cfg: Cfg, st: St, n: Node, ctx: Ctx)
    requires !Truthy(Get(n, "type-name"))
    requires FieldEnum(cfg, st, n, ctx).Ok?
    ensures var (c, st1) := EnsureName(cfg, st, n, ctx);
      var (tn, anon) := GetTypedefName(cfg.rules, st1.anon, n, c.name);
      var e := TypeEnum(cfg, st1.(anon := anon), n, Some(tn), Some(tn + "_"), "  ");
      e.Ok? && StartsWith(FieldEnum(cfg, st, n, ctx).value.text, e.value.0)
  {
    var (c, st1) := EnsureName(cfg, st, n, ctx);
    var (tn, anon) := GetTypedefName(cfg.rules, st1.anon, n, c.name);
    var e := TypeEnum(cfg, st1.(anon := anon), n, Some(tn), Some(tn + "_"), "  ");
    assert e.Ok?;
    var line := RenderLine(cfg, e.value.1, n, Some(tn), c);
    assert line.Ok?;
    var text := e.value.0 + line.value.text + "\n";
    assert FieldEnum(cfg, st, n, ctx).value.text == text;
    assert text[..|e.value.0|] == e.value.0;
  }

  // ---- bitfields ----

  /** The mask loop: item k is `<name> = 0x<k>;`, its bit position. */
  function MaskLoop(cfg: Cfg, st: St, items: seq<Node>, i: nat, out: string): Result<(string, St)>
    requires i <= |items|
    decreases |items| - i
  {
    if i == |items| then Ok((out, st))
    else
      var ii :- Ident(items[i], 0);
      var (name, st1) := PbName(cfg, st, items[i]);
      MaskLoop(cfg, st1, items, i + 1, AppendComment(items[i], out + ii + "  " + name + " = 0x" + Hex(i) + ";"))
  }

  /** `_render_masks`: nothing but a newline for a childless bitfield, else `enum mask { ... }`. */
  function Masks(cfg: Cfg, st: St, n: Node): Result<(string, St)>
  {
    if Len(n) == 0 then Ok(("\n", st))
    else
      var ind :- Ident(n, 0);
      var (body, st1) :- MaskLoop(cfg, st, Findall(n, "ld:field"), 0, ind + "  enum mask {\n");
      Ok((body + ind + "  }\n", st1))
  }

  lemma {:induction false} MaskLoopLines(cfg: Cfg, st: St, items: seq<Node>, i: nat, out: string)
    requires i <= |items| && MaskLoop(cfg, st, items, i, out).Ok?
    ensures StartsWith(MaskLoop(cfg, st, items, i, out).value.0, out)
    ensures i < |items| ==> (Level(items[i]).Ok? &&
      StartsWith(MaskLoop(cfg, st, items, i, out).value.0,
        out + Indent(Level(items[i]).value) + "  " + ResolveName(cfg.rules, st.anon, items[i]).pb + " = 0x" + Hex(i) + ";"))
    decreases |items| - i
  {
    if i < |items| {
      var ii := Indent(Level(items[i]).value);
      var (name, st1) := PbName(cfg, st, items[i]);
      var line := out + ii + "  " + name + " = 0x" + Hex(i) + ";";
      MaskLoopLines(cfg, st1, items, i + 1, AppendComment(items[i], line));
      AppendCommentShape(items[i], line);
      StartsWithTrans(MaskLoop(cfg, st, items, i, out).value.0, AppendComment(items[i], line), line);
      assert StartsWith(line, out) by {
        assert line[..|out|] == out;
      }
      StartsWithTrans(MaskLoop(cfg, st, items, i, out).value.0, line, out);
    }
  }

  /** Mask k is written after the masks before it with the value 0x<k>: masks are numbered by bit position. */
  lemma MaskNumbering(cfg: Cfg, st: St, items: seq<Node>, i: nat, out: string)
    requires i < |items| && MaskLoop(cfg, st, items, i, out).Ok?
    ensures Level(items[i]).Ok?
    ensures StartsWith(MaskLoop(cfg, st, items, i, out).value.0,
      out + Indent(Level(items[i]).value) + "  " + ResolveName(cfg.rules, st.anon, items[i]).pb + " = 0x" + Hex(i) + ";")
  {
    MaskLoopLines(cfg, st, items, i, out);
  }

  /** `render_type_bitfield`: a message holding the masks and `required fixed32 flags = 1`. */
  function TypeBitfield(cfg: Cfg, st: St, n: Node, tname: Option<string>): Result<(string, St)>
  {
    var t := if Truthy(tname) then tname else Get(n, "type-name");
    if !Truthy(t) then Err("AssertionError")
    else
      var ind :- Ident(n, 0);
      var (m, st1) :- Masks(cfg, st, n);
      Ok((AppendComment(n, ind + "message " + t.value + " {\n" + m + ind + "  required fixed32 flags = 1;") + ind + "}\n", st1))
  }

  /** A bitfield without children has no `enum mask` block; the flags line says `required` in every version. */
  lemma EmptyBitfield(cfg: Cfg, st: St, n: Node, t: string)
    requires Len(n) == 0 && t != "" && Level(n).Ok?
    ensures var ind := Indent(Level(n).value);
      TypeBitfield(cfg, st, n, Some(t)) ==
        Ok((AppendComment(n, ind + "message " + t + " {\n\n" + ind + "  required fixed32 flags = 1;") + ind + "}\n", st))
  {
    var ind := Indent(Level(n).value);
    assert ind + "message " + t + " {\n" + "\n" + ind + "  required fixed32 flags = 1;" ==
      ind + "message " + t + " {\n\n" + ind + "  required fixed32 flags = 1;";
  }

  /** `render_field_bitfield`: the bitfield message (from a copy) and the field line. */
  function FieldBitfield(cfg: Cfg, st: St, n: Node, ctx: Ctx, tname: Option<string>): Result<Out>
  {
    var (c, st1) := EnsureName(cfg, st, n, ctx);
    var (tn, anon) := if Truthy(tname) then (tname.value, st1.anon) else GetTypedefName(cfg.rules, st1.anon, n, c.name);
    var st2 := st1.(anon := anon);
    var (body, st3) :- TypeBitfield(cfg, Fresh(st2), n, Some(tn));
    var line :- RenderLine(cfg, st2.(imports := st3.imports), n, Some(tn), c);
    Ok(Out(body + line.text, line.st, line.ctx))
  }

  // ---- simple, global and converted fields ----

  /** `_convert_tname`: a primitive is mapped, another name is imported, no name gives `bytes`. */
  function ConvertTname(st: St, t: Option<string>): (r: (string, St))
    ensures r.1.anon == st.anon
    ensures r.1.imports == if !IsPrimitive(t) && Truthy(t) then st.imports + {t} else st.imports
    ensures r.0 == if IsPrimitive(t) then Convert(t).value else Or(t, "bytes")
  {
    if IsPrimitive(t) then (Types[t.value], st)
    else if Truthy(t) then (t.value, AddImport(st, t))
    else ("bytes", st)
  }

  /** `render_field_simple`: enum and bitfield subtypes use (and import) `type-name`, possibly `None`. */
  function FieldSimple(cfg: Cfg, st: St, n: Node, ctx: Ctx): Result<Out>
  {
    var sub := Get(n, "ld:subtype");
    if Is(sub, "enum") || Is(sub, "bitfield") then
      RenderLine(cfg, AddImport(st, Get(n, "type-name")), n, Get(n, "type-name"), ctx)
    else
      var (t, st1) := ConvertTname(st, sub);
      RenderLine(cfg, st1, n, Some(t), ctx)
  }

  /** `render_field_global`: `type-name` must be set; it is imported and used as the type. */
  function FieldGlobal(cfg: Cfg, st: St, n: Node, ctx: Ctx): Result<Out>
  {
    var t := Get(n, "type-name");
    if !Truthy(t) then Err("AssertionError")
    else RenderLine(cfg, AddImport(st, t), n, t, ctx)
  }

  /** `render_field_conversion`: the line with `export-as` as its type. */
  function FieldConversion(cfg: Cfg, st: St, n: Node, ctx: Ctx): Result<Out>
  {
    RenderLine(cfg, st, n, Get(n, "export-as"), ctx)
  }

  /** `render_field_method`: a getter `get_x` becomes field `_x` lower-cased; its ret-type is the field type. */
  function FieldMethod(cfg: Cfg, st: St, n: Node, ctx: Ctx): Result<Out>
  {
    var (name, st1) := PbName(cfg, st, n);
    var t := Get(n, "ret-type");
    var short := Lower(if |name| >= 3 then name[3..] else "");
    var (tn, st2) := if IsPrimitive(t) then (Types[t.value], st1) else (Show(t), AddImport(st1, t));
    var ind :- Ident(n, ctx.ident);
    Ok(Out(ind + ctx.keyword + " " + tn + " " + short + " = " + IntToString(ctx.value) + ";\n", st2, ctx))
  }

  /** The number of ordinals a struct field takes: a union's child count, else one. */
  function Width(item: Node): nat
  {
    if Truthy(Get(item, "is-union")) then Len(item) else 1
  }

  function SumWidths(items: seq<Node>): nat
    decreases |items|
  {
    if |items| == 0 then 0 else SumWidths(items[..|items| - 1]) + Width(items[|items| - 1])
  }

  /** Accumulated text, state and next ordinal of a loop over children. */
  datatype Acc = Acc(text: string, st: St, value: int)

  /** Predeclared messages, `oneof` arms and state of the union loop. */
  datatype UAcc = UAcc(predecl: string, fields: string, st: St)

  /** `render_field(xml, ctx)`: the field, preceded by its comment line unless it already ends in a comment. */
  function Field(cfg: Cfg, st: St, n: Node, ctx: Ctx): Result<Out>
    decreases Size(n), 20, 0
  {
    var f :- Impl(cfg, st, n, ctx);
    if |f.text| > 0 && !EndsWith(RStrip(f.text), "*/") && Truthy(Get(n, "comment")) then
      var i1 :- Ident(n, 0);
      var i2 :- Ident(n, f.ctx.ident);
      Ok(Out(i2 + i1 + AppendComment(n, "") + f.text, f.st, f.ctx))
    else Ok(f)
  }

  /** `render_field_impl`: the export filter, the export marking, then the dispatch on `ld:meta`. */
  function Impl(cfg: Cfg, st: St, n: Node, ctx: Ctx): Result<Out>
    decreases Size(n), 19, 0
  {
    match Decide(cfg.rules, n)
    case Conversion => FieldConversion(cfg, st, n, ctx)
    case Ignored =>
      var t :- IgnoredText(cfg.rules, n);
      Ok(Out(t, st, ctx))
    case Kept =>
      MarkExportedSize(n);
      Dispatch(cfg, st, MarkExported(n), ctx)
  }

  /** The dispatch on `ld:meta` of an element that passed the filter. */
  function Dispatch(cfg: Cfg, st: St, m: Node, ctx: Ctx): Result<Out>
    decreases Size(m), 18, 1
  {
    match KindOf(m)
    case MethodField => FieldMethod(cfg, st, m, ctx)
    case CompoundField => Compound(cfg, st, m, ctx)
    case SimpleField => FieldSimple(cfg, st, m, ctx)
    case GlobalField => FieldGlobal(cfg, st, m, ctx)
    case ContainerField => Container(cfg, st, m, ctx)
    case PointerField => Pointer(cfg, st, m, ctx)
    case UnknownField => Err("not supported")
  }

  /** `render_field_pointer`. */
  function Pointer(cfg: Cfg, st: St, n: Node, ctx: Ctx): Result<Out>
    decreases Size(n), 18, 0
  {
    var c0 := if ctx.keyword == "required" then ctx.(keyword := "optional") else ctx;
    var (c1, st1) := EnsureName(cfg, st, n, c0);
    var c := c1.(ident := c1.ident - 1);
    var t := Get(n, "type-name");
    if t.None? then
      if Len(n) > 0 then
        ChildSmaller(n, 0);
        Field(cfg, st1, n.children[0], c)
      else
        var ind :- Ident(n, 0);
        Ok(Out(ind + "/* ignored pointer to unknown type */\n", st1, c))
    else if IsPrimitive(t) then RenderLine(cfg, st1, n, Convert(t), c)
    else match IndexRule(cfg.rules.index, t.value)
      case Some(v) => RenderLine(cfg, st1, n, Some("int32"), c.(name := Some(c.name.value + "_" + v)))
      case None =>
        if Len(n) > 0 then
          ChildSmaller(n, 0);
          Field(cfg, st1, n.children[0], c)
        else Err("IndexError")
  }

  /** `render_field_container`. */
  function Container(cfg: Cfg, st: St, n: Node, ctx: Ctx): Result<Out>
    decreases Size(n), 18, 0
  {
    var (c, st1) := EnsureName(cfg, st, n, ctx);
    var name := c.name.value;
    var rep := c.(keyword := "repeated");
    var pt := Get(n, "pointer-type");
    if Is(Get(n, "ld:subtype"), "df-linked-list") then FieldGlobal(cfg, st1, n, c)
    else if Truthy(pt) && !IsPrimitive(pt) then
      if Len(n) == 0 then Err("IndexError")
      else
        ChildSmaller(n, 0);
        Pointer(cfg, st1, n.children[0], rep)
    else
      var t0 := if Truthy(pt) then pt else Get(n, "type-name");
      var t := if Is(t0, "pointer") then Some("int32") else t0;
      if !Truthy(t) && Len(n) > 0 then
        var e := n.children[0];
        ChildSmaller(n, 0);
        var et := if Truthy(Get(e, "type-name")) then Get(e, "type-name").value else "T_" + name;
        var sub := Get(e, "ld:subtype");
        var meta := Get(e, "ld:meta");
        if Is(meta, "pointer") then Pointer(cfg, st1, e, rep)
        else if Is(meta, "container") || Is(meta, "static-array") then
          Ok(Out("/* ignored container of containers " + name + " */\n", st1, c))
        else if Is(sub, "bitfield") then FieldBitfield(cfg, st1, e, rep, Some(et))
        else if Is(sub, "enum") then FieldEnum(cfg, st1, e, rep)
        else if IsPrimitive(sub) then RenderLine(cfg, st1, e, Convert(sub), rep)
        else if Truthy(Get(e, "type-name")) then RenderLine(cfg, AddImport(st1, Get(e, "type-name")), e, Get(e, "type-name"), rep)
        else
          var s :- TypeStruct(cfg, Fresh(st1), e, Some("T_" + name), Some(c));
          var line :- RenderLine(cfg, st1.(imports := s.st.imports), e, Some("T_" + name), s.ctx.(keyword := "repeated"));
          Ok(Out(s.text + line.text, line.st, line.ctx))
      else if IsPrimitive(t) then
        var (tn, st2) := ConvertTname(st1, t);
        RenderLine(cfg, st2, n, Some(tn), rep)
      else if Len(n) > 0 then
        ChildSmaller(n, 0);
        Field(cfg, st1, n.children[0], rep)
      else Ok(Out("  /* ignored container " + name + " */\n", st1, c))
  }

  /** `render_field_compound`. */
  function Compound(cfg: Cfg, st: St, n: Node, ctx: Ctx): Result<Out>
    decreases Size(n), 18, 0
  {
    var sub := Get(n, "ld:subtype");
    var anon := Get(n, "ld:anon-compound");
    if Is(sub, "enum") then FieldEnum(cfg, st, n, ctx)
    else if Is(sub, "bitfield") then FieldBitfield(cfg, st, n, ctx, None)
    else if Is(Get(n, "is-union"), "true") then
      if Is(anon, "true") then
        var (text, st1) :- Union(cfg, st, n, "anon", ctx.value);
        Ok(Out(text, st1, ctx))
      else
        var (nm, st1) := PbName(cfg, st, n);
        var (text, st2) :- Union(cfg, st1, n, nm, ctx.value);
        Ok(Out(text, st2, ctx))
    else if Is(anon, "true") then TypeStruct(cfg, st, n, Some("T_anon"), Some(ctx))
    else
      var (c, st1) := EnsureName(cfg, st, n, ctx);
      var (tn, a) := GetTypedefName(cfg.rules, st1.anon, n, c.name);
      var st2 := st1.(anon := a);
      var s :- TypeStruct(cfg, Fresh(st2), n, Some(tn), None);
      var line :- RenderLine(cfg, st2.(imports := s.st.imports), n, Some(tn), c);
      Ok(Out(s.text + line.text, line.st, line.ctx))
  }

  /** `render_field_union(xml, tname, value)`: compound arms are predeclared, then `oneof <tname> { ... }`. */
  function Union(cfg: Cfg, st: St, n: Node, tname: string, value: int): Result<(string, St)>
    decreases Size(n), 17, 0
  {
    var u :- UnionLoop(cfg, st, n, 0, value, "", "");
    var ind :- Ident(n, 0);
    Ok((u.predecl + ind + "oneof " + tname + " {\n" + u.fields + ind + "}\n", u.st))
  }

  /** The arm loop of `render_field_union`: arm i has ordinal `value + i` and an empty keyword. */
  function UnionLoop(cfg: Cfg, st: St, n: Node, i: nat, value: int, predecl: string, fields: string): Result<UAcc>
    requires i <= |Findall(n, "ld:field")|
    decreases Size(n), 16, |Findall(n, "ld:field")| - i
  {
    var items := Findall(n, "ld:field");
    if i == |items| then Ok(UAcc(predecl, fields, st))
    else
      var item := items[i];
      var c := NewCtx(Some(value), Some(""), 0);
      if Is(Get(item, "ld:meta"), "compound") then
        var (itname, a) := GetTypeName(cfg.rules, st.anon, item, None);
        var st1 := st.(anon := a);
        FindallSmaller(n, "ld:field", i);
        var s :- TypeStruct(cfg, Fresh(st1), item, Some(itname), Some(c));
        var line :- RenderLine(cfg, st1.(imports := s.st.imports), item, Some(itname), s.ctx);
        UnionLoop(cfg, line.st, n, i + 1, value + 1, predecl + s.text, fields + line.text)
      else
        var f :- FieldSimple(cfg, st, item, c);
        UnionLoop(cfg, f.st, n, i + 1, value + 1, predecl, fields + f.text)
  }

  /** `_render_struct_parent`: the parent as a field named `parent`; it changes the struct's own context. */
  function StructParent(cfg: Cfg, st: St, n: Node, parent: string, ctx: Ctx): Result<Out>
  {
    var pi :- Ident(n, ctx.ident + 1);
    var line :- RenderLine(cfg, st, n, Some(parent), ctx.(name := Some("parent"), ident := ctx.ident + 1));
    Ok(Out(pi + "/* parent type */\n" + line.text, AddImport(line.st, Some(parent)), line.ctx))
  }

  /**
   * `render_type_struct(xml, tname, ctx)`: header, parent, fields numbered
   * from 1 (2 after a parent), getters numbered after the fields, footer.
   */
  function TypeStruct(cfg: Cfg, st: St, n: Node, tname: Option<string>, ctx: Option<Ctx>): Result<Out>
    decreases Size(n), 15, 0
  {
    var c0 := if ctx.Some? then ctx.value else DefaultCtx;
    var t := if Truthy(tname) then tname else Get(n, "type-name");
    var hi :- Ident(n, c0.ident);
    if t.None? then Err("TypeError")
    else
      var parent := Get(n, "inherits-from");
      var p :- if Truthy(parent) then StructParent(cfg, st, n, parent.value, c0) else Ok(Out("", st, c0));
      var fields :- StructLoop(cfg, p.st, n, 0, if Truthy(parent) then 2 else 1, p.ctx.ident, "");
      var methods :- VMethodLoop(cfg, fields.st, n, 0, fields.value, "");
      var fi :- Ident(n, p.ctx.ident);
      Ok(Out(hi + "message " + t.value + " {\n" + p.text + fields.text + methods.text + fi + "}\n", methods.st, p.ctx))
  }

  /** The field loop of `render_type_struct`: each field gets `Context(value, ident=ctx.ident)`. */
  function StructLoop(cfg: Cfg, st: St, n: Node, i: nat, value: int, ident: int, out: string): Result<Acc>
    requires i <= |Findall(n, "ld:field")|
    decreases Size(n), 14, |Findall(n, "ld:field")| - i
  {
    var items := Findall(n, "ld:field");
    if i == |items| then Ok(Acc(out, st, value))
    else
      FindallSmaller(n, "ld:field", i);
      var f :- Field(cfg, st, items[i], NewCtx(Some(value), None, ident));
      StructLoop(cfg, f.st, n, i + 1, value + Width(items[i]), ident, out + f.text)
  }

  /** A field that renders moves the loop on to the next field; one that fails ends it with its error. */
  lemma StructLoopErr(cfg: Cfg, st: St, n: Node, i: nat, value: int, ident: int, out: string)
    requires i < |Findall(n, "ld:field")|
    requires Field(cfg, st, Findall(n, "ld:field")[i], NewCtx(Some(value), None, ident)).Err?
    ensures StructLoop(cfg, st, n, i, value, ident, out) ==
      Err(Field(cfg, st, Findall(n, "ld:field")[i], NewCtx(Some(value), None, ident)).msg)
  {
  }

  lemma StructLoopOk(cfg: Cfg, st: St, n: Node, i: nat, value: int, ident: int, out: string, f: Out)
    requires i < |Findall(n, "ld:field")|
    requires Field(cfg, st, Findall(n, "ld:field")[i], NewCtx(Some(value), None, ident)) == Ok(f)
    ensures StructLoop(cfg, st, n, i, value, ident, out) ==
      StructLoop(cfg, f.st, n, i + 1, value + Width(Findall(n, "ld:field")[i]), ident, out + f.text)
  {
  }

    /** The method loop of `render_type_struct` and `_render_class_method`: only getters take an ordinal. */
  function VMethodLoop(cfg: Cfg, st: St, n: Node, i: nat, value: int, out: string): Result<Acc>
    requires i <= |VMethods(n)|
    decreases Size(n), 13, |VMethods(n)| - i
  {
    var ms := VMethods(n);
    if i == |ms| then Ok(Acc(out, st, value))
    else
      var r := ResolveName(cfg.rules, st.anon, ms[i]);
      var st1 := st.(anon := r.anon);
      if !IsGetter(r.pb, ms[i]) then VMethodLoop(cfg, st1, n, i + 1, value, out)
      else
        VMethodsSmaller(n, i);
        var f :- Field(cfg, st1, ms[i], Ctx(value, None, "required", 0));
        VMethodLoop(cfg, f.st, n, i + 1, value + 1, out + f.text)
  }

  /** Getters take consecutive ordinals; a method that is not a getter with a `ret-type` takes none. */
  lemma {:induction false} MethodOrdinals(cfg: Cfg, st: St, n: Node, i: nat, value: int, out: string)
    requires i <= |VMethods(n)|
    requires VMethodLoop(cfg, st, n, i, value, out).Ok?
    ensures value <= VMethodLoop(cfg, st, n, i, value, out).value.value <= value + |VMethods(n)| - i
    ensures (forall k :: i <= k < |VMethods(n)| ==> !Truthy(Get(VMethods(n)[k], "ret-type"))) ==>
      VMethodLoop(cfg, st, n, i, value, out).value == Acc(out, VMethodLoop(cfg, st, n, i, value, out).value.st, value)
    decreases |VMethods(n)| - i
  {
    var ms := VMethods(n);
    if i < |ms| {
      var r := ResolveName(cfg.rules, st.anon, ms[i]);
      var st1 := st.(anon := r.anon);
      if !IsGetter(r.pb, ms[i]) {
        MethodOrdinals(cfg, st1, n, i + 1, value, out);
      } else {
        var f := Field(cfg, st1, ms[i], Ctx(value, None, "required", 0)).value;
        MethodOrdinals(cfg, f.st, n, i + 1, value + 1, out + f.text);
      }
    }
  }

  /** `render_type`: `package <ns>;`, the type comment, then the type. */
  function TypeDecl(cfg: Cfg, st: St, n: Node): Result<(string, St)>
  {
    var head := if Truthy(cfg.protoNs) then "package " + cfg.protoNs.value + ";\n" else "";
    var head2 := if Truthy(Get(n, "comment")) then AppendComment(n, head) else head;
    match TypeKindOf(n)
    case BitfieldType =>
      var (t, st1) :- TypeBitfield(cfg, st, n, None);
      Ok((head2 + t, st1))
    case EnumType =>
      var (t, st1) :- TypeEnum(cfg, st, n, None, None, "");
      Ok((head2 + t, st1))
    case StructType =>
      var s :- TypeStruct(cfg, st, n, None, None);
      Ok((head2 + s.text, s.st))
    case UnknownType => Err("not supported")
  }

  /** A type whose `ld:meta` is not bitfield-, enum-, class- or struct-type is refused. */
  lemma UnknownTypeRaises(cfg: Cfg, st: St, n: Node)
    requires !(Is(Get(n, "ld:meta"), "bitfield-type") || Is(Get(n, "ld:meta"), "enum-type") ||
               Is(Get(n, "ld:meta"), "class-type") || Is(Get(n, "ld:meta"), "struct-type"))
    ensures TypeDecl(cfg, st, n).Err?
  {
  }

  /** A field with an unknown `ld:meta` that passes the filter is refused. */
  lemma UnknownFieldRaises(cfg: Cfg, st: St, n: Node, ctx: Ctx)
    requires Decide(cfg.rules, n) == Kept && KindOf(n) == UnknownField
    ensures Field(cfg, st, n, ctx).Err?
  {
    var m := MarkExported(n);
    KindOfMarked(n);
    DispatchUnknown(cfg, st, m, ctx);
    ImplKept(cfg, st, n, ctx);
    FieldRaises(cfg, st, n, ctx);
  }

  lemma ImplKept(cfg: Cfg, st: St, n: Node, ctx: Ctx)
    requires Decide(cfg.rules, n) == Kept
    ensures Impl(cfg, st, n, ctx) == Dispatch(cfg, st, MarkExported(n), ctx)
  {
  }

  lemma DispatchUnknown(cfg: Cfg, st: St, m: Node, ctx: Ctx)
    requires KindOf(m) == UnknownField
    ensures Dispatch(cfg, st, m, ctx) == Err("not supported")
  {
  }

  lemma FieldRaises(cfg: Cfg, st: St, n: Node, ctx: Ctx)
    requires Impl(cfg, st, n, ctx).Err?
    ensures Field(cfg, st, n, ctx).Err?
  {
  }

  /** An ignored field renders as its ignore comment or nothing, with no descent and no state change. */
  lemma IgnoredField(cfg: Cfg, st: St, n: Node, ctx: Ctx)
    requires Decide(cfg.rules, n) == Ignored && Level(n).Ok?
    ensures var r := Field(cfg, st, n, ctx);
      r.Ok? && r.value.st == st && r.value.ctx == ctx &&
      r.value.text == (if cfg.rules.commentIgnored then Indent(Level(n).value) + "/* ignored field " + Or(Get(n, "name"), "anon") + " */\n" else "")
  {
    var t := IgnoredText(cfg.rules, n).value;
    assert Impl(cfg, st, n, ctx) == Ok(Out(t, st, ctx));
    if cfg.rules.commentIgnored {
      var body := Indent(Level(n).value) + "/* ignored field " + Or(Get(n, "name"), "anon");
      assert t == body + " */\n";
      RStripEndsWithComment(body);
    }
  }

  lemma RStripEndsWithComment(s: string)
    ensures RStrip(s + " */\n") == s + " */"
    ensures EndsWith(s + " */", "*/")
  {
    assert (s + " */\n")[..|s + " */\n"| - 1] == s + " */";
    assert (s + " */")[|s + " */"| - 2..] == "*/";
  }

  /**
   * A pointer field never says `required`: the keyword becomes `optional`
   * (dropped in version 3). A pointer to a primitive is a line of the mapped
   * type, and a pointer whose type has an index rule is an `int32` line named
   * `<name>_<field>`.
   */
  lemma PointerLines(cfg: Cfg, st: St, n: Node, ctx: Ctx)
    requires Level(n).Ok? && Get(n, "type-name").Some?
    requires IsPrimitive(Get(n, "type-name")) || IndexRule(cfg.rules.index, Get(n, "type-name").value).Some?
    ensures var r := Pointer(cfg, st, n, ctx);
      var kw := if ctx.keyword == "required" then "optional" else ctx.keyword;
      var (c1, st1) := EnsureName(cfg, st, n, ctx);
      var t := Get(n, "type-name");
      r.Ok? && r.value.ctx.keyword == LineKeyword(cfg, kw) && r.value.ctx.ident == ctx.ident - 1 &&
      r.value.ctx.name == (if IsPrimitive(t) then c1.name
                           else Some(c1.name.value + "_" + IndexRule(cfg.rules.index, t.value).value))
  {
  }

  /** A pointer with neither a type nor a child is the ignored-pointer comment. */
  lemma PointerUnknown(cfg: Cfg, st: St, n: Node, ctx: Ctx)
    requires Level(n).Ok? && Get(n, "type-name").None? && Len(n) == 0
    ensures Pointer(cfg, st, n, ctx).Ok?
    ensures Pointer(cfg, st, n, ctx).value.text == Indent(Level(n).value) + "/* ignored pointer to unknown type */\n"
  {
  }

  /**
   * The inert container paths: a `df-linked-list` is one global field; an
   * untyped container of containers or static arrays, and a container with
   * neither a type nor a child, become comments.
   */
  lemma ContainerComments(cfg: Cfg, st: St, n: Node, ctx: Ctx)
    ensures var (c, st1) := EnsureName(cfg, st, n, ctx);
      Is(Get(n, "ld:subtype"), "df-linked-list") ==> Container(cfg, st, n, ctx) == FieldGlobal(cfg, st1, n, c)
    ensures var (c, st1) := EnsureName(cfg, st, n, ctx);
      !Is(Get(n, "ld:subtype"), "df-linked-list") && !Truthy(Get(n, "pointer-type")) &&
      !Truthy(Get(n, "type-name")) && Len(n) > 0 &&
      (Is(Get(n.children[0], "ld:meta"), "container") || Is(Get(n.children[0], "ld:meta"), "static-array")) ==>
        Container(cfg, st, n, ctx) == Ok(Out("/* ignored container of containers " + c.name.value + " */\n", st1, c))
    ensures var (c, st1) := EnsureName(cfg, st, n, ctx);
      !Is(Get(n, "ld:subtype"), "df-linked-list") && !Truthy(Get(n, "pointer-type")) &&
      !Truthy(Get(n, "type-name")) && Len(n) == 0 ==>
        Container(cfg, st, n, ctx) == Ok(Out("  /* ignored container " + c.name.value + " */\n", st1, c))
  {
  }

  /** A union's arms, rendered after all predeclared messages, consume no state but what the arms do. */
  lemma {:induction false} UnionLoopKeepsPrefix(cfg: Cfg, st: St, n: Node, i: nat, value: int, predecl: string, fields: string)
    requires i <= |Findall(n, "ld:field")|
    requires UnionLoop(cfg, st, n, i, value, predecl, fields).Ok?
    ensures StartsWith(UnionLoop(cfg, st, n, i, value, predecl, fields).value.predecl, predecl)
    ensures StartsWith(UnionLoop(cfg, st, n, i, value, predecl, fields).value.fields, fields)
    decreases |Findall(n, "ld:field")| - i
  {
    var items := Findall(n, "ld:field");
    if i < |items| {
      var item := items[i];
      var c := NewCtx(Some(value), Some(""), 0);
      var u := UnionLoop(cfg, st, n, i, value, predecl, fields).value;
      if Is(Get(item, "ld:meta"), "compound") {
        var (itname, a) := GetTypeName(cfg.rules, st.anon, item, None);
        var st1 := st.(anon := a);
        var s := TypeStruct(cfg, Fresh(st1), item, Some(itname), Some(c)).value;
        var line := RenderLine(cfg, st1.(imports := s.st.imports), item, Some(itname), s.ctx).value;
        UnionLoopKeepsPrefix(cfg, line.st, n, i + 1, value + 1, predecl + s.text, fields + line.text);
        StartsWithTrans(u.predecl, predecl + s.text, predecl);
        StartsWithTrans(u.fields, fields + line.text, fields);
      } else {
        var f := FieldSimple(cfg, st, item, c).value;
        UnionLoopKeepsPrefix(cfg, f.st, n, i + 1, value + 1, predecl, fields + f.text);
        StartsWithTrans(u.fields, fields + f.text, fields);
      }
    }
  }

  lemma ItemNamesStep(rules: Rules, anon: Anon, items: seq<Node>, i: nat)
    requires i < |items|
    ensures ItemNames(rules, anon, items).0[i] == ResolveName(rules, ItemNames(rules, anon, items[..i]).1, items[i]).pb
    ensures ItemNames(rules, anon, items[..i + 1]).1 == ResolveName(rules, ItemNames(rules, anon, items[..i]).1, items[i]).anon
  {
    ItemNamesPrefix(rules, anon, items, i + 1);
    assert items[..i + 1][..i] == items[..i];
  }

  lemma SlotsTextSnoc(items: seq<Node>, names: seq<string>, prefix: string, lead: string, a: seq<Slot>, x: Slot)
    ensures SlotsText(items, names, prefix, lead, a + [x]) ==
      SlotsText(items, names, prefix, lead, a) + SlotText(items, names, prefix, lead, x)
  {
    assert (a + [x])[..|a|] == a;
  }

  lemma SumWidthsSnoc(items: seq<Node>, i: nat)
    requires i < |items|
    ensures SumWidths(items[..i + 1]) == SumWidths(items[..i]) + Width(items[i])
  {
    assert items[..i + 1][..i] == items[..i];
  }

  /**
   * The renderer object. `base` holds the fields inherited from
   * `AbstractRenderer`; `Config()` and `State()` are what the functions above
   * take. Each method changes the fields as the function it is proved
   * against says; the loop methods follow the source's loops.
   */
  /**
   * The item loop of `render_type_enum` step by step: `value` is the running
   * counter, `out` the text so far, `postdecl` the deferred negative-valued
   * lines, `anon` the anonymous-name cache.
   */
  function EnumLoop(rules: Rules, anon: Anon, items: seq<Node>, i: nat, value: int, out: string, postdecl: seq<string>,
                    pre: string, lead: string): Result<(string, seq<string>, Anon)>
    requires i <= |items|
    decreases |items| - i
  {
    if i == |items| then Ok((out, postdecl, anon))
    else
      var v :- ItemValue(items[i]);
      var x := ResolveName(rules, anon, items[i]);
      if v.Some? && v.value < 0 then
        EnumLoop(rules, x.anon, items, i + 1, value, out, postdecl + [ItemLine(items[i], x.pb, v.value, pre)], pre, lead)
      else
        var out1 := if v.Some? && v.value > value && value == 0 then out + (lead + pre + "ZERO = 0;\n") else out;
        var value1 := if v.Some? && v.value > value then v.value else value;
        EnumLoop(rules, x.anon, items, i + 1, value1 + 1, out1 + (lead + ItemLine(items[i], x.pb, value1, pre)), postdecl, pre, lead)
  }

  /** The item loop fails at the first item whose value does not parse, and ends with its accumulators. */
  lemma EnumLoopEnds(rules: Rules, anon: Anon, items: seq<Node>, i: nat, value: int, out: string, postdecl: seq<string>,
                     pre: string, lead: string)
    requires i <= |items|
    ensures i == |items| ==> EnumLoop(rules, anon, items, i, value, out, postdecl, pre, lead) == Ok((out, postdecl, anon))
    ensures i < |items| && ItemValue(items[i]).Err? ==>
      EnumLoop(rules, anon, items, i, value, out, postdecl, pre, lead) == Err(ItemValue(items[i]).msg)
  {
  }

  /** One step of the item loop on a negative-valued item: the line is deferred. */
  lemma EnumLoopNegStep(rules: Rules, anon: Anon, items: seq<Node>, i: nat, value: int, out: string, postdecl: seq<string>,
                        pre: string, lead: string)
    requires i < |items| && ItemValue(items[i]).Ok? && IsNegative(ItemValue(items[i]).value)
    ensures var x := ResolveName(rules, anon, items[i]);
      EnumLoop(rules, anon, items, i, value, out, postdecl, pre, lead) ==
      EnumLoop(rules, x.anon, items, i + 1, value, out, postdecl + [ItemLine(items[i], x.pb, ItemValue(items[i]).value.value, pre)], pre, lead)
  {
  }

  /** One step of the item loop on any other item: the ZERO line if the counter jumps from 0, then the item. */
  lemma EnumLoopMainStep(rules: Rules, anon: Anon, items: seq<Node>, i: nat, value: int, out: string, postdecl: seq<string>,
                         pre: string, lead: string, value1: int, out1: string)
    requires i < |items| && ItemValue(items[i]).Ok? && !IsNegative(ItemValue(items[i]).value)
    requires value1 == if Jumps(ItemValue(items[i]).value, value) then ItemValue(items[i]).value.value else value
    requires out1 == if Jumps(ItemValue(items[i]).value, value) && value == 0 then out + (lead + pre + "ZERO = 0;\n") else out
    ensures var x := ResolveName(rules, anon, items[i]);
      EnumLoop(rules, anon, items, i, value, out, postdecl, pre, lead) ==
      EnumLoop(rules, x.anon, items, i + 1, value1 + 1, out1 + (lead + ItemLine(items[i], x.pb, value1, pre)), postdecl, pre, lead)
  {
  }

  /** The same step, for a name and cache already resolved and a line already rendered. */
  lemma EnumLoopItemStep(rules: Rules, anon: Anon, items: seq<Node>, i: nat, value: int, out: string, postdecl: seq<string>,
                         pre: string, lead: string, value1: int, out1: string, pb: string, anon1: Anon, line: string)
    requires i < |items| && ItemValue(items[i]).Ok? && !IsNegative(ItemValue(items[i]).value)
    requires value1 == if Jumps(ItemValue(items[i]).value, value) then ItemValue(items[i]).value.value else value
    requires out1 == if Jumps(ItemValue(items[i]).value, value) && value == 0 then out + (lead + pre + "ZERO = 0;\n") else out
    requires pb == ResolveName(rules, anon, items[i]).pb && anon1 == ResolveName(rules, anon, items[i]).anon
    requires line == ItemLine(items[i], pb, value1, pre)
    ensures EnumLoop(rules, anon, items, i, value, out, postdecl, pre, lead) ==
      EnumLoop(rules, anon1, items, i + 1, value1 + 1, out1 + (lead + line), postdecl, pre, lead)
  {
    EnumLoopMainStep(rules, anon, items, i, value, out, postdecl, pre, lead, value1, out1);
  }

  /**
   * The step-by-step loop writes the enum body of the reference layout: the
   * non-negative items in `Layout` order, then the deferred lines joined, and
   * it fails exactly when some item's value does not parse.
   */
  lemma {:induction false} EnumLoopLayout(rules: Rules, anon0: Anon, items: seq<Node>, i: nat, value: int, out: string,
                                          postdecl: seq<string>, pre: string, lead: string, header: string,
                                          main: seq<Slot>, post: seq<Slot>)
    requires i <= |items|
    requires forall k :: 0 <= k < i ==> ItemValue(items[k]).Ok?
    requires out == header + SlotsText(items, ItemNames(rules, anon0, items).0, pre, lead, main)
    requires Joined(lead, postdecl) == SlotsText(items, ItemNames(rules, anon0, items).0, pre, lead, post)
    requires Layout(Lenient(items)) == Scan(Lenient(items), i, value, main, post)
    ensures var r := EnumLoop(rules, ItemNames(rules, anon0, items[..i]).1, items, i, value, out, postdecl, pre, lead);
      (r.Ok? <==> EnumValues(items).Ok?) &&
      (r.Ok? ==> (r.value.0 + Joined(lead, r.value.1) ==
                 header + SlotsText(items, ItemNames(rules, anon0, items).0, pre, lead, Layout(EnumValues(items).value)) &&
               r.value.2 == ItemNames(rules, anon0, items).1))
    decreases |items| - i, 1
  {
    if i == |items| {
      EnumLoopLayoutDone(rules, anon0, items, i, value, out, postdecl, pre, lead, header, main, post);
    } else if ItemValue(items[i]).Err? {
      EnumValuesFail(items, i);
    } else if IsNegative(ItemValue(items[i]).value) {
      EnumLoopLayoutNeg(rules, anon0, items, i, value, out, postdecl, pre, lead, header, main, post);
    } else {
      EnumLoopLayoutMain(rules, anon0, items, i, value, out, postdecl, pre, lead, header, main, post);
    }
  }

  /** `EnumLoopLayout` once every item is done. */
  lemma EnumLoopLayoutDone(rules: Rules, anon0: Anon, items: seq<Node>, i: nat, value: int, out: string,
                                          postdecl: seq<string>, pre: string, lead: string, header: string,
                                          main: seq<Slot>, post: seq<Slot>)
    requires i <= |items|
    requires forall k :: 0 <= k < i ==> ItemValue(items[k]).Ok?
    requires out == header + SlotsText(items, ItemNames(rules, anon0, items).0, pre, lead, main)
    requires Joined(lead, postdecl) == SlotsText(items, ItemNames(rules, anon0, items).0, pre, lead, post)
    requires Layout(Lenient(items)) == Scan(Lenient(items), i, value, main, post)
    requires i == |items|
    ensures var r := EnumLoop(rules, ItemNames(rules, anon0, items[..i]).1, items, i, value, out, postdecl, pre, lead);
      (r.Ok? <==> EnumValues(items).Ok?) &&
      (r.Ok? ==> (r.value.0 + Joined(lead, r.value.1) ==
                 header + SlotsText(items, ItemNames(rules, anon0, items).0, pre, lead, Layout(EnumValues(items).value)) &&
               r.value.2 == ItemNames(rules, anon0, items).1))
  {
    var names := ItemNames(rules, anon0, items).0;
    var lv := Lenient(items);
    assert items[..i] == items;
    LenientIsValues(items);
    assert Scan(lv, i, value, main, post) == main + post;
    DoneText(items, names, pre, lead, header, main, post, out, Joined(lead, postdecl), Layout(lv));
    assert EnumLoop(rules, ItemNames(rules, anon0, items[..i]).1, items, i, value, out, postdecl, pre, lead) ==
      Ok((out, postdecl, ItemNames(rules, anon0, items).1));
  }

  lemma DoneText(items: seq<Node>, names: seq<string>, pre: string, lead: string, header: string, main: seq<Slot>, post: seq<Slot>,
                 out: string, joined: string, layout: seq<Slot>)
    requires out == header + SlotsText(items, names, pre, lead, main)
    requires joined == SlotsText(items, names, pre, lead, post)
    requires layout == main + post
    ensures out + joined == header + SlotsText(items, names, pre, lead, layout)
  {
    SlotsTextAppend(items, names, pre, lead, main, post);
    Assoc3(header, SlotsText(items, names, pre, lead, main), joined);
  }

  /** `EnumLoopLayout` for a negative-valued item. */
  lemma {:induction false} EnumLoopLayoutNeg(rules: Rules, anon0: Anon, items: seq<Node>, i: nat, value: int, out: string,
                                          postdecl: seq<string>, pre: string, lead: string, header: string,
                                          main: seq<Slot>, post: seq<Slot>)
    requires i <= |items|
    requires forall k :: 0 <= k < i ==> ItemValue(items[k]).Ok?
    requires out == header + SlotsText(items, ItemNames(rules, anon0, items).0, pre, lead, main)
    requires Joined(lead, postdecl) == SlotsText(items, ItemNames(rules, anon0, items).0, pre, lead, post)
    requires Layout(Lenient(items)) == Scan(Lenient(items), i, value, main, post)
    requires i < |items| && ItemValue(items[i]).Ok? && IsNegative(ItemValue(items[i]).value)
    ensures var r := EnumLoop(rules, ItemNames(rules, anon0, items[..i]).1, items, i, value, out, postdecl, pre, lead);
      (r.Ok? <==> EnumValues(items).Ok?) &&
      (r.Ok? ==> (r.value.0 + Joined(lead, r.value.1) ==
                 header + SlotsText(items, ItemNames(rules, anon0, items).0, pre, lead, Layout(EnumValues(items).value)) &&
               r.value.2 == ItemNames(rules, anon0, items).1))
    decreases |items| - i, 0
  {
    var names := ItemNames(rules, anon0, items).0;
    var lv := Lenient(items);
    var anon := ItemNames(rules, anon0, items[..i]).1;
    var v := ItemValue(items[i]).value;
    LenientAt(items, i);
    ItemNamesStep(rules, anon0, items, i);
    var x := ResolveName(rules, anon, items[i]);
    assert ItemNames(rules, anon0, items[..i + 1]).1 == x.anon;
    assert forall k :: 0 <= k < i + 1 ==> ItemValue(items[k]).Ok?;
    var line := ItemLine(items[i], x.pb, v.value, pre);
    var post' := post + [ItemSlot(i, v.value)];
    EnumLoopNegStep(rules, anon, items, i, value, out, postdecl, pre, lead);
    ScanNegStep(lv, i, value, main, post);
    JoinedSnoc(lead, postdecl, line);
    SlotsTextSnoc(items, names, pre, lead, post, ItemSlot(i, v.value));
    assert Joined(lead, postdecl + [line]) == SlotsText(items, names, pre, lead, post');
    EnumLoopLayout(rules, anon0, items, i + 1, value, out, postdecl + [line], pre, lead, header, main, post');
    assert EnumLoop(rules, anon, items, i, value, out, postdecl, pre, lead) ==
      EnumLoop(rules, ItemNames(rules, anon0, items[..i + 1]).1, items, i + 1, value, out, postdecl + [line], pre, lead);
  }

  /** `EnumLoopLayout` for any other item. */
  lemma {:induction false} EnumLoopLayoutMain(rules: Rules, anon0: Anon, items: seq<Node>, i: nat, value: int, out: string,
                                          postdecl: seq<string>, pre: string, lead: string, header: string,
                                          main: seq<Slot>, post: seq<Slot>)
    requires i <= |items|
    requires forall k :: 0 <= k < i ==> ItemValue(items[k]).Ok?
    requires out == header + SlotsText(items, ItemNames(rules, anon0, items).0, pre, lead, main)
    requires Joined(lead, postdecl) == SlotsText(items, ItemNames(rules, anon0, items).0, pre, lead, post)
    requires Layout(Lenient(items)) == Scan(Lenient(items), i, value, main, post)
    requires i < |items| && ItemValue(items[i]).Ok? && !IsNegative(ItemValue(items[i]).value)
    ensures var r := EnumLoop(rules, ItemNames(rules, anon0, items[..i]).1, items, i, value, out, postdecl, pre, lead);
      (r.Ok? <==> EnumValues(items).Ok?) &&
      (r.Ok? ==> (r.value.0 + Joined(lead, r.value.1) ==
                 header + SlotsText(items, ItemNames(rules, anon0, items).0, pre, lead, Layout(EnumValues(items).value)) &&
               r.value.2 == ItemNames(rules, anon0, items).1))
    decreases |items| - i, 0
  {
    var names := ItemNames(rules, anon0, items).0;
    var lv := Lenient(items);
    var anon := ItemNames(rules, anon0, items[..i]).1;
    var v := ItemValue(items[i]).value;
    LenientAt(items, i);
    ItemNamesStep(rules, anon0, items, i);
    var x := ResolveName(rules, anon, items[i]);
    assert ItemNames(rules, anon0, items[..i + 1]).1 == x.anon;
    assert forall k :: 0 <= k < i + 1 ==> ItemValue(items[k]).Ok?;
    var value1 := if Jumps(v, value) then v.value else value;
    var zero: seq<Slot> := if Jumps(v, value) && value == 0 then [ZeroSlot] else [];
    var out1 := if Jumps(v, value) && value == 0 then out + (lead + pre + "ZERO = 0;\n") else out;
    var out' := out1 + (lead + ItemLine(items[i], x.pb, value1, pre));
    EnumLoopMainStep(rules, anon, items, i, value, out, postdecl, pre, lead, value1, out1);
    ScanMainStep(lv, i, value, main, post, value1, zero);
    MainLine(items, names, pre, lead, header, main, out, i, value1, zero, out1, x.pb);
    EnumLoopLayout(rules, anon0, items, i + 1, value1 + 1, out', postdecl, pre, lead, header, main + zero + [ItemSlot(i, value1)], post);
    assert EnumLoop(rules, anon, items, i, value, out, postdecl, pre, lead) ==
      EnumLoop(rules, ItemNames(rules, anon0, items[..i + 1]).1, items, i + 1, value1 + 1, out', postdecl, pre, lead);
  }

  /** The text written for a non-negative item is the slot text of the ZERO line (if any) and the item. */
  lemma MainLine(items: seq<Node>, names: seq<string>, pre: string, lead: string, header: string, main: seq<Slot>,
                 out: string, i: nat, value1: int, zero: seq<Slot>, out1: string, pb: string)
    requires i < |items| && i < |names| && names[i] == pb
    requires out == header + SlotsText(items, names, pre, lead, main)
    requires (zero == [ZeroSlot] && out1 == out + (lead + pre + "ZERO = 0;\n")) || (zero == [] && out1 == out)
    ensures out1 + (lead + ItemLine(items[i], pb, value1, pre)) == header + SlotsText(items, names, pre, lead, main + zero + [ItemSlot(i, value1)])
  {
    var mz := main + zero;
    if zero == [ZeroSlot] {
      SlotsTextSnoc(items, names, pre, lead, main, ZeroSlot);
      Assoc3(header, SlotsText(items, names, pre, lead, main), lead + pre + "ZERO = 0;\n");
    } else {
      assert mz == main;
    }
    SlotsTextSnoc(items, names, pre, lead, mz, ItemSlot(i, value1));
    Assoc3(header, SlotsText(items, names, pre, lead, mz), SlotText(items, names, pre, lead, ItemSlot(i, value1)));
  }

  class ProtoRenderer {
    const base: AbstractRenderer
    const protoNs: Option<string>
    var imports: set<Option<string>>
    var version: int

    function Config(): Cfg
      reads this, base
    {
      Cfg(base.Settings(), version, protoNs)
    }

    function State(): St
      reads this, base
    {
      St(base.Cache(), imports)
    }

    constructor (xpath: map<string, seq<nat>>, protoNs: Option<string>)
      ensures fresh(base)
      ensures Config() == Cfg(Rules([], [], [], [], true, false, xpath), 2, protoNs)
      ensures State() == St(NoAnon, {})
    {
      base := new AbstractRenderer(xpath);
      this.protoNs := protoNs;
      imports := {};
      version := 2;
    }

    /** `set_version`. */
    method SetVersion(v: int)
      modifies this
      ensures Config() == old(Config()).(version := v) && State() == old(State())
    {
      version := v;
    }

    /** Writes a new state back into the fields. */
    method Store(st: St)
      modifies this, base
      ensures State() == st && Config() == old(Config())
    {
      imports := st.imports;
      base.anonXml := st.anon.last;
      base.anonId := st.anon.count;
    }

    /** `get_name`: the protobuf name, advancing the cache. */
    method GetName(n: Node) returns (pb: string)
      modifies base
      ensures Config() == old(Config())
      ensures (pb, State()) == PbName(old(Config()), old(State()), n)
    {
      var df;
      pb, df := base.GetName(n);
    }

    /**
     * The item loop of `render_type_enum`: the lines of the non-negative items
     * appended to `header`, and the deferred lines of the negative ones.
     */
    method RenderEnumItems(items: seq<Node>, pre: string, lead: string, header: string) returns (r: Result<(string, seq<string>)>)
      modifies base
      ensures Config() == old(Config()) && imports == old(imports)
      ensures var s := EnumLoop(old(Config()).rules, old(base.Cache()), items, 0, 0, header, [], pre, lead);
        (r.Ok? <==> s.Ok?) && (r.Ok? ==> r.value == (s.value.0, s.value.1) && base.Cache() == s.value.2)
    {
      ghost var rules := Config().rules;
      ghost var spec := EnumLoop(rules, base.Cache(), items, 0, 0, header, [], pre, lead);
      var out := header;
      var value := 0;
      var postdecl: seq<string> := [];
      var i := 0;
      ghost var cache := base.Cache();
      while i < |items|
        invariant 0 <= i <= |items|
        invariant Config() == old(Config()) && imports == old(imports) && rules == Config().rules
        invariant base.Cache() == cache
        invariant spec == EnumLoop(rules, cache, items, i, value, out, postdecl, pre, lead)
      {
        var iv := ItemValue(items[i]);
        if iv.Err? {
          EnumLoopEnds(rules, cache, items, i, value, out, postdecl, pre, lead);
          return Err(iv.msg);
        }
        var v := iv.value;
        if v.Some? && v.value < 0 {
          postdecl := RenderNegativeItem(rules, items, i, value, out, postdecl, pre, lead);
        } else {
          value, out := RenderItem(rules, items, i, value, out, postdecl, pre, lead);
        }
        i, cache := i + 1, base.Cache();
      }
      EnumLoopEnds(rules, cache, items, i, value, out, postdecl, pre, lead);
      return Ok((out, postdecl));
    }

    /** A negative item: its line is deferred. */
    method RenderNegativeItem(ghost rules: Rules, items: seq<Node>, i: nat, value: int, out: string, postdecl: seq<string>,
                              pre: string, lead: string) returns (postdecl': seq<string>)
      requires rules == Config().rules
      requires i < |items| && ItemValue(items[i]).Ok? && IsNegative(ItemValue(items[i]).value)
      modifies base
      ensures Config() == old(Config()) && imports == old(imports)
      ensures EnumLoop(rules, old(base.Cache()), items, i, value, out, postdecl, pre, lead) ==
              EnumLoop(rules, base.Cache(), items, i + 1, value, out, postdecl', pre, lead)
    {
      EnumLoopNegStep(rules, base.Cache(), items, i, value, out, postdecl, pre, lead);
      var name := GetName(items[i]);
      postdecl' := postdecl + [ItemLine(items[i], name, ItemValue(items[i]).value.value, pre)];
    }

    /** Any other item: the ZERO line when the counter jumps from 0, then the item with the counter's value. */
    method RenderItem(ghost rules: Rules, items: seq<Node>, i: nat, value: int, out: string, postdecl: seq<string>,
                      pre: string, lead: string) returns (value': int, out': string)
      requires rules == Config().rules
      requires i < |items| && ItemValue(items[i]).Ok? && !IsNegative(ItemValue(items[i]).value)
      modifies base
      ensures Config() == old(Config()) && imports == old(imports)
      ensures EnumLoop(rules, old(base.Cache()), items, i, value, out, postdecl, pre, lead) ==
              EnumLoop(rules, base.Cache(), items, i + 1, value', out', postdecl, pre, lead)
    {
      var v := ItemValue(items[i]).value;
      out' := if Jumps(v, value) && value == 0 then out + (lead + pre + "ZERO = 0;\n") else out;
      value' := if Jumps(v, value) then v.value else value;
      ghost var a := base.Cache();
      var name := GetName(items[i]);
      var line := ItemLine(items[i], name, value', pre);
      EnumLoopItemStep(rules, a, items, i, value, out, postdecl, pre, lead, value', out', name, base.Cache(), line);
      out' := out' + (lead + line);
      value' := value' + 1;
    }

    /** `render_type_enum`: the item loop, then the deferred lines, then the closing brace. */
    method RenderTypeEnum(n: Node, tname: Option<string>, prefix: Option<string>, extra: string) returns (r: Result<string>)
      modifies base
      ensures Config() == old(Config())
      ensures var s := TypeEnum(old(Config()), old(State()), n, tname, prefix, extra);
        (r.Ok? <==> s.Ok?) && (r.Ok? ==> r.value == s.value.0 && State() == s.value.1)
    {
      ghost var s := TypeEnum(Config(), State(), n, tname, prefix, extra);
      var t := EnumTypeName(n, tname);
      if !Truthy(t) {
        return Err("AssertionError");
      }
      var level := Ident(n, 0);
      if level.Err? {
        return Err(level.msg);
      }
      var ind := level.value;
      var pre := if prefix.None? then t.value + "_" else prefix.value;
      var lead := ind + extra + "  ";
      var header := ind + extra + "enum " + t.value + " {\n";
      var items := Findall(n, "enum-item");
      ghost var rules := Config().rules;
      ghost var anon0 := base.Cache();
      var loop := RenderEnumItems(items, pre, lead, header);
      if loop.Err? {
        assert s.Err? by {
          assert items[..0] == [];
          EnumLoopLayout(rules, anon0, items, 0, 0, header, [], pre, lead, header, [], []);
        }
        return Err(loop.msg);
      }
      var (body, postdecl) := loop.value;
      var out := AppendLines(body, lead, postdecl);
      out := out + ind + extra + "}\n";
      assert s.Ok? && out == s.value.0 && base.Cache() == s.value.1.anon by {
        assert items[..0] == [];
        EnumLoopLayout(rules, anon0, items, 0, 0, header, [], pre, lead, header, [], []);
      }
      return Ok(out);
    }

    /** `_render_masks`: one `name = 0x<bit>;` line per field, each followed by its comment. */
    method RenderMasks(n: Node) returns (r: Result<string>)
      modifies base
      ensures Config() == old(Config())
      ensures var s := Masks(old(Config()), old(State()), n);
        (r.Ok? <==> s.Ok?) && (r.Ok? ==> r.value == s.value.0 && State() == s.value.1)
    {
      if Len(n) == 0 {
        return Ok("\n");
      }
      var level := Ident(n, 0);
      if level.Err? {
        return Err(level.msg);
      }
      var ind := level.value;
      var out := ind + "  enum mask {\n";
      var items := Findall(n, "ld:field");
      ghost var cfg := Config();
      ghost var spec := MaskLoop(cfg, State(), items, 0, out);
      var value := 0;
      while value < |items|
        invariant 0 <= value <= |items|
        invariant Config() == cfg
        invariant spec == MaskLoop(cfg, State(), items, value, out)
      {
        var ii := Ident(items[value], 0);
        if ii.Err? {
          return Err(ii.msg);
        }
        var name := GetName(items[value]);
        out := out + ii.value + "  " + name + " = 0x" + Hex(value) + ";";
        out := AppendComment(items[value], out);
        value := value + 1;
      }
      out := out + ind + "  }\n";
      return Ok(out);
    }

    /** `render_type_bitfield`. */
    method RenderTypeBitfield(n: Node, tname: Option<string>) returns (r: Result<string>)
      modifies base
      ensures Config() == old(Config())
      ensures var s := TypeBitfield(old(Config()), old(State()), n, tname);
        (r.Ok? <==> s.Ok?) && (r.Ok? ==> r.value == s.value.0 && State() == s.value.1)
    {
      var t := if Truthy(tname) then tname else Get(n, "type-name");
      if !Truthy(t) {
        return Err("AssertionError");
      }
      var level := Ident(n, 0);
      if level.Err? {
        return Err(level.msg);
      }
      var ind := level.value;
      var out := ind + "message " + t.value + " {\n";
      var m := RenderMasks(n);
      if m.Err? {
        return Err(m.msg);
      }
      out := out + m.value;
      out := out + ind + "  required fixed32 flags = 1;";
      out := AppendComment(n, out);
      out := out + ind + "}\n";
      return Ok(out);
    }

    /** `render_field`: renders one field and stores the new state. */
    method RenderField(n: Node, ctx: Ctx) returns (r: Result<Out>)
      modifies this, base
      ensures Config() == old(Config())
      ensures r == Field(old(Config()), old(State()), n, ctx)
      ensures r.Ok? ==> State() == r.value.st
    {
      r := Field(Config(), State(), n, ctx);
      if r.Ok? {
        Store(r.value.st);
      }
    }

    /** The field loop of `render_type_struct`: field i is rendered with `Context(value, ident=ident)`. */
    method RenderStructFields(n: Node, value0: int, ident: int) returns (r: Result<Acc>)
      modifies this, base
      ensures Config() == old(Config())
      ensures var s := StructLoop(old(Config()), old(State()), n, 0, value0, ident, "");
        r == s && (r.Ok? ==> State() == s.value.st)
      ensures r.Ok? ==> r.value.value == value0 + SumWidths(Findall(n, "ld:field"))
    {
      ghost var cfg := Config();
      ghost var spec := StructLoop(cfg, State(), n, 0, value0, ident, "");
      var items := Findall(n, "ld:field");
      var out := "";
      var value := value0;
      var i := 0;
      ghost var st := State();
      while i < |items|
        invariant 0 <= i <= |items|
        invariant Config() == cfg && State() == st
        invariant spec == StructLoop(cfg, st, n, i, value, ident, out)
        invariant value == value0 + SumWidths(items[..i])
      {
        var f := RenderField(items[i], NewCtx(Some(value), None, ident));
        if f.Err? {
          StructLoopErr(cfg, st, n, i, value, ident, out);
          return Err(f.msg);
        }
        StructLoopOk(cfg, st, n, i, value, ident, out, f.value);
        SumWidthsSnoc(items, i);
        out, value, i := out + f.value.text, value + Width(items[i]), i + 1;
        st := f.value.st;
      }
      assert items[..i] == items;
      return Ok(Acc(out, State(), value));
    }

    /** The method loop of `render_type_struct`: a getter is rendered with the next ordinal, any other method is skipped. */
    method RenderMethods(n: Node, value0: int) returns (r: Result<Acc>)
      modifies this, base
      ensures Config() == old(Config())
      ensures var s := VMethodLoop(old(Config()), old(State()), n, 0, value0, "");
        r == s && (r.Ok? ==> State() == s.value.st)
    {
      ghost var cfg := Config();
      ghost var spec := VMethodLoop(cfg, State(), n, 0, value0, "");
      var ms := VMethods(n);
      var out := "";
      var value := value0;
      var k := 0;
      while k < |ms|
        invariant 0 <= k <= |ms|
        invariant Config() == cfg
        invariant spec == VMethodLoop(cfg, State(), n, k, value, out)
      {
        var name := GetName(ms[k]);
        if IsGetter(name, ms[k]) {
          var f := RenderField(ms[k], Ctx(value, None, "required", 0));
          if f.Err? {
            return Err(f.msg);
          }
          out := out + f.value.text;
          value := value + 1;
        }
        k := k + 1;
      }
      return Ok(Acc(out, State(), value));
    }

    /**
     * `render_type_struct`: header, parent, the field loop numbered from 1
     * (2 after a parent), the getter loop, footer.
     */
    method RenderTypeStruct(n: Node, tname: Option<string>, ctx: Option<Ctx>) returns (r: Result<Out>)
      modifies this, base
      ensures Config() == old(Config())
      ensures var s := TypeStruct(old(Config()), old(State()), n, tname, ctx);
        r == s && (r.Ok? ==> State() == s.value.st)
    {
      var c := if ctx.Some? then ctx.value else DefaultCtx;
      var t := if Truthy(tname) then tname else Get(n, "type-name");
      var hi := Ident(n, c.ident);
      if hi.Err? {
        return Err(hi.msg);
      }
      if t.None? {
        return Err("TypeError");
      }
      var value := 1;
      var parent := Get(n, "inherits-from");
      var ptext := "";
      if Truthy(parent) {
        var p := StructParent(Config(), State(), n, parent.value, c);
        if p.Err? {
          return Err(p.msg);
        }
        ptext := p.value.text;
        c := p.value.ctx;
        Store(p.value.st);
        value := 2;
      }
      var fields := RenderStructFields(n, value, c.ident);
      if fields.Err? {
        return Err(fields.msg);
      }
      var methods := RenderMethods(n, fields.value.value);
      if methods.Err? {
        return Err(methods.msg);
      }
      var fi := Ident(n, c.ident);
      if fi.Err? {
        return Err(fi.msg);
      }
      var out := hi.value + "message " + t.value + " {\n" + ptext + fields.value.text + methods.value.text + fi.value + "}\n";
      return Ok(Out(out, State(), c));
    }

    /** `render_type`: package line, type comment, then the enum, bitfield or struct. */
    method RenderType(n: Node) returns (r: Result<string>)
      modifies this, base
      ensures Config() == old(Config())
      ensures var s := TypeDecl(old(Config()), old(State()), n);
        (r.Ok? <==> s.Ok?) && (r.Ok? ==> r.value == s.value.0 && State() == s.value.1)
    {
      var out := if Truthy(protoNs) then "package " + protoNs.value + ";\n" else "";
      if Truthy(Get(n, "comment")) {
        out := AppendComment(n, out);
      }
      match TypeKindOf(n)
      case BitfieldType =>
        var b := RenderTypeBitfield(n, None);
        if b.Err? {
          return Err(b.msg);
        }
        return Ok(out + b.value);
      case EnumType =>
        var e := RenderTypeEnum(n, None, None, "");
        if e.Err? {
          return Err(e.msg);
        }
        return Ok(out + e.value);
      case StructType =>
        var s := RenderTypeStruct(n, None, None);
        if s.Err? {
          return Err(s.msg);
        }
        return Ok(out + s.value.text);
      case UnknownType =>
        return Err("not supported");
    }
  }
}
