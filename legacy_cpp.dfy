/**
 * protogen.legacy/cpp_renderer.py: renders the C++ `describe_*` functions
 * that copy a DFHack object into its protobuf message.
 *
 * The renderer's mutable state (the anonymous-name cache, the `imports` and
 * `dfproto_imports` sets, the last enum field rendered and the stack of
 * enclosing type names) is the record `St`, threaded through the functions
 * below in the order the source performs its calls. `copy()` is a renderer
 * with a fresh cache and no recorded enum that shares the caller's two sets
 * and holds its own copy of the outer-type stack: what a copy adds to the sets
 * flows back to the caller (`Shared`), nothing else does.
 *
 * A `Context` is passed down and never read back by a caller, so it is a
 * plain argument here.
 */
module LegacyCpp {
  import opened Base
  import opened Xml
  import opened TypeTable
  import opened LegacyAbstract

  /**
   * `Context`: the `(protobuf, DFHack)` names once chosen, the indent offset
   * and the dereference switch. The constructor never stores its `value`
   * argument and no C++ path reads `ctx.value`, so it is not part of the model.
   */
  datatype Ctx = Ctx(names: Option<(string, string)>, ident: int, deref: bool)

  /** `Context()`. */
  const DefaultCtx: Ctx := Ctx(None, 0, false)

  /** The settings a render reads but never changes. */
  datatype Cfg = Cfg(rules: Rules, protoNs: string, cppNs: string)

  /** The state a render changes. */
  datatype St = St(anon: Anon, imports: set<Option<string>>, dfImports: set<Option<string>>,
                   lastEnum: Option<Node>, outer: seq<Option<string>>)

  /** The state of `self.copy()`. */
  function Fresh(st: St): St
  {
    St(NoAnon, st.imports, st.dfImports, None, st.outer)
  }

  /** The caller's state once a copy has done its work: only the shared sets changed. */
  function Shared(st: St, sub: St): St
  {
    st.(imports := sub.imports, dfImports := sub.dfImports)
  }

  /** `imports.add(t)` and `dfproto_imports.add(t)`. */
  function Import(st: St, t: Option<string>): St
  {
    st.(imports := st.imports + {t}, dfImports := st.dfImports + {t})
  }

  /** Text and the new state. */
  datatype Out = Out(text: string, st: St)

  /** What a field render may change: the stack stays, the sets only grow. */
  predicate Grows(st: St, st': St)
  {
    st'.outer == st.outer && st.imports <= st'.imports && st.dfImports <= st'.dfImports
  }

  // ---- the outer-type stack ----

  /** `sep.join(outer_types)`: an entry that is `None` raises `TypeError`. */
  function OuterJoin(outer: seq<Option<string>>, sep: string): Result<string>
    decreases |outer|
  {
    if |outer| == 0 then Ok("")
    else if outer[0].None? then Err("TypeError")
    else if |outer| == 1 then Ok(outer[0].value)
    else
      var rest :- OuterJoin(outer[1..], sep);
      Ok(outer[0].value + sep + rest)
  }

  /** `outer_proto_tname`. */
  function OuterProto(st: St): Result<string>
  {
    OuterJoin(st.outer, "_")
  }

  /** `outer_dfhack_tname`. */
  function OuterDfhack(st: St): Result<string>
  {
    OuterJoin(st.outer, "::")
  }

  /**
   * The join is Python's `str.join`: pushing a name appends the separator and
   * the name; an empty stack joins to the empty string; any `None` raises.
   */
  lemma {:induction false} OuterJoinPush(outer: seq<Option<string>>, sep: string, t: string)
    requires OuterJoin(outer, sep).Ok?
    ensures OuterJoin(outer + [Some(t)], sep) == Ok(if |outer| == 0 then t else OuterJoin(outer, sep).value + sep + t)
    decreases |outer|
  {
    if |outer| > 0 {
      assert (outer + [Some(t)])[1..] == outer[1..] + [Some(t)];
      if |outer| > 1 {
        OuterJoinPush(outer[1..], sep, t);
        var a := outer[0].value + sep;
        var j := OuterJoin(outer[1..], sep).value;
        Assoc(a, j + sep, t);
        Assoc(a, j, sep);
      }
    }
  }

  /** The join succeeds exactly when no entry is `None`; an empty stack joins to the empty string. */
  lemma {:induction false} OuterJoinOk(outer: seq<Option<string>>, sep: string)
    ensures OuterJoin([], sep) == Ok("")
    ensures OuterJoin(outer, sep).Ok? <==> forall k :: 0 <= k < |outer| ==> outer[k].Some?
    decreases |outer|
  {
    if |outer| > 0 {
      OuterJoinOk(outer[1..], sep);
      assert forall k :: 1 <= k < |outer| ==> outer[k] == outer[1..][k - 1];
    }
  }

  lemma Assoc(a: string, b: string, c: string)
    ensures a + (b + c) == a + b + c
  {
  }

  // ---- statement builders ----

  function Idx(isArray: bool): string
  {
    if isArray then "[i]" else ""
  }

  /** `if (dfhack-><elem> != NULL) {` around a statement. */
  function Guard(elem: string, stmt: string): string
  {
    "if (dfhack->" + elem + " != NULL) {\n" + stmt + "\n}\n"
  }

  /** The source expression: `dfhack-><df>`, or `(*dfhack-><df>)` when the container itself is behind a pointer. */
  function SField(df: string, isPtr: bool): string
  {
    if isPtr then "(*dfhack->" + df + ")" else "dfhack->" + df
  }

  /** `proto-><op>_<pb>(`. */
  function Call(op: string, pb: string): string
  {
    "proto->" + op + "_" + pb + "("
  }

  /** `_convert_simple(names, deref, array, is_ptr)`. */
  function ConvertSimple(names: (string, string), deref: bool, isArray: bool, isPtr: bool): string
  {
    var out := Call(if isArray then "add" else "set", names.0) +
      (if deref then "*" else "") + SField(names.1, isPtr) + Idx(isArray) + ");\n";
    if deref then Guard(names.1 + Idx(isArray), out) else out
  }

  /**
   * `add_` for an array element and `set_` otherwise; dereferencing inserts
   * exactly one `*` before the source expression and wraps the statement in a
   * NULL test of the same element.
   */
  lemma ConvertSimpleShape(names: (string, string), isArray: bool, isPtr: bool)
    ensures var call := Call(if isArray then "add" else "set", names.0);
      var tail := SField(names.1, isPtr) + Idx(isArray) + ");\n";
      ConvertSimple(names, false, isArray, isPtr) == call + tail &&
      ConvertSimple(names, true, isArray, isPtr) == Guard(names.1 + Idx(isArray), call + "*" + tail)
  {
    var call := Call(if isArray then "add" else "set", names.0);
    var sf := SField(names.1, isPtr);
    var ix := Idx(isArray);
    assert call + "" == call;
    Assoc4(call, sf, ix, ");\n");
    Assoc4(call + "*", sf, ix, ");\n");
  }

  lemma Assoc4(a: string, b: string, c: string, d: string)
    ensures a + b + c + d == a + (b + c + d)
  {
  }

  /** `_convert_field_compound(tname, names, deref, array)`. */
  function ConvertFieldCompound(tname: Option<string>, names: (string, string), deref: bool, isArray: bool): string
  {
    var out := "describe_" + Show(tname) + "(proto->" + (if isArray then "add" else "mutable") + "_" + names.0 + "(), " +
      (if deref then "" else "&") + "dfhack->" + names.1 + Idx(isArray) + ");\n";
    if deref then Guard(names.1 + Idx(isArray), out) else out
  }

  /** `_convert_enum(tname, names, anon=anon)`, given the proto type: qualified by the outer types for an anonymous enum. */
  function ConvertEnum(tname: string, ltname: string, names: (string, string)): string
  {
    "dfproto::" + ltname + " " + names.0 + ";\n" +
    "describe_" + tname + "(&" + names.0 + ", &dfhack->" + names.1 + ");\n" +
    "proto->set_" + names.0 + "(" + names.0 + ");\n"
  }

  /** `_convert_bitfield(tname, names, array)`. */
  function ConvertBitfield(tname: string, names: (string, string), isArray: bool): string
  {
    "describe_" + tname + "(proto->" + (if isArray then "add" else "mutable") + "_" + names.0 + "(), &dfhack->" +
      names.1 + Idx(isArray) + ");\n"
  }

  /** `describe_T(<proto>::T* proto, df::T* dfhack)`. */
  function Signature(cfg: Cfg, t: string): string
  {
    "describe_" + t + "(" + cfg.protoNs + "::" + t + "* proto, df::" + t + "* dfhack)"
  }

  /** The opening line of every `describe_` function, qualified by the C++ namespace. */
  function Describe(cfg: Cfg, t: string): string
  {
    "void " + cfg.cppNs + "::" + Signature(cfg, t) + " {\n"
  }

  /** `render_prototype`: the declaration of `describe_T`. */
  function Prototype(cfg: Cfg, n: Node): string
  {
    "void " + Signature(cfg, Show(Get(n, "type-name"))) + ";"
  }

  /**
   * The prototype declares exactly the function the type's header defines:
   * the header is the prototype, qualified by the C++ namespace, with `{` for `;`.
   */
  lemma PrototypeMatchesHeader(cfg: Cfg, n: Node)
    ensures var p := Prototype(cfg, n);
      |p| > 6 && Describe(cfg, Show(Get(n, "type-name"))) == "void " + cfg.cppNs + "::" + p[5..|p| - 1] + " {\n"
  {
    var sig := Signature(cfg, Show(Get(n, "type-name")));
    Middle("void ", sig, ";");
  }

  lemma Middle(a: string, b: string, c: string)
    ensures (a + b + c)[|a|..|a| + |b|] == b && (a + b + c)[..|a|] == a && (a + b + c)[|a + b|..] == c
  {
  }

  // ---- type renderers ----

  /** `render_type_enum(xml)`: a `static_cast` of the whole value. */
  function TypeEnum(cfg: Cfg, n: Node): Result<string>
  {
    var t := Show(Get(n, "type-name"));
    var ind :- Ident(n, 0);
    Ok(ind + Describe(cfg, t) + "  *proto = static_cast<dfproto::" + t + ">(*dfhack);\n" + "}\n")
  }

  /** `render_type_bitfield(xml)`: the flags word is copied whole. */
  function TypeBitfield(cfg: Cfg, n: Node): Result<string>
  {
    var t := Show(Get(n, "type-name"));
    var ind :- Ident(n, 0);
    Ok(ind + Describe(cfg, t) + "  proto->set_flags(dfhack->whole);\n" + "}\n")
  }

  /** `get_name(xml)` as a pair, advancing the cache. */
  function GetNames(cfg: Cfg, st: St, n: Node): (r: ((string, string), St))
    ensures r.0.0 != "" && r.0.1 != "" && r.1 == st.(anon := r.1.anon)
  {
    var x := ResolveName(cfg.rules, st.anon, n);
    ((x.pb, x.df), st.(anon := x.anon))
  }

  /** `if not ctx.names: ctx.names = self.get_name(xml)`. */
  function EnsureNames(cfg: Cfg, st: St, n: Node, ctx: Ctx): (r: (Ctx, St))
    ensures r.0.names.Some? && r.0 == ctx.(names := r.0.names) && r.1 == st.(anon := r.1.anon)
    ensures ctx.names.Some? ==> r == (ctx, st)
  {
    if ctx.names.Some? then (ctx, st)
    else
      var (names, st1) := GetNames(cfg, st, n);
      (ctx.(names := Some(names)), st1)
  }

  /** `render_field_enum(xml)`: records the element as the next union's discriminant. */
  function FieldEnum(cfg: Cfg, st: St, n: Node): (r: Result<Out>)
    ensures r.Ok? ==> r.value.st.lastEnum == Some(n) && Grows(st, r.value.st)
  {
    var st1 := st.(lastEnum := Some(n));
    var (names, st2) := GetNames(cfg, st1, n);
    var t := Get(n, "type-name");
    var o :- if Truthy(t) then Ok("") else OuterProto(st2);
    var (td, a) := GetTypedefName(cfg.rules, st2.anon, n, Some(names.0));
    var tname := if Truthy(t) then t.value else o + "_" + td;
    var st3 := if Truthy(t) then st2 else st2.(anon := a);
    var ind :- Ident(n, 0);
    Ok(Out(ind + ConvertEnum(tname, tname, names), st3))
  }

  /** `auto describe_T = [](dfproto::<outer>* proto, df::<outer>* dfhack) {`. */
  function LambdaHead(ind: string, tname: string, op: string, od: string): string
  {
    ind + "auto describe_" + tname + " = [](dfproto::" + op + "* proto, df::" + od + "* dfhack) {\n"
  }

  /**
   * The head of `_convert_anon_*(xml, name)`: the name (resolved only when
   * none is given), the typedef name, and the copy with that name pushed.
   */
  function AnonScope(cfg: Cfg, st: St, n: Node, name: string): (r: (string, St, St))
    ensures r.1 == st.(anon := r.1.anon)
    ensures r.2 == Fresh(r.1).(outer := st.outer + [Some(r.0)])
  {
    var (nm, st1) := if name != "" then (name, st) else (var x := ResolveName(cfg.rules, st.anon, n); (x.pb, st.(anon := x.anon)));
    var (tname, a) := GetTypedefName(cfg.rules, st1.anon, n, Some(nm));
    var st2 := st1.(anon := a);
    (tname, st2, Fresh(st2).(outer := st2.outer + [Some(tname)]))
  }

  /** `_convert_anon_enum(xml, name)`: a lambda casting to the nested enum type. */
  function AnonEnum(cfg: Cfg, st: St, n: Node, name: string): (r: Result<(string, St)>)
    ensures r.Ok? ==> r.value.1 == st.(anon := r.value.1.anon)
  {
    var (tname, st1, rdr) := AnonScope(cfg, st, n, name);
    var ind :- Ident(n, 0);
    var op :- OuterProto(rdr);
    var od :- OuterDfhack(rdr);
    Ok((LambdaHead(ind, tname, op, od) + "  *proto = static_cast<dfproto::" + op + ">(*dfhack);\n" + "};\n", st1))
  }

  /** `_convert_anon_bitfield(xml, name)`: a lambda copying the flags word. */
  function AnonBitfield(cfg: Cfg, st: St, n: Node, name: string): (r: Result<(string, St)>)
    ensures r.Ok? ==> r.value.1 == st.(anon := r.value.1.anon)
  {
    var (tname, st1, rdr) := AnonScope(cfg, st, n, name);
    var ind :- Ident(n, 0);
    var op :- OuterProto(rdr);
    var od :- OuterDfhack(rdr);
    Ok((LambdaHead(ind, tname, op, od) + "  proto->set_flags(dfhack->whole);\n" + "};\n", st1))
  }

  /**
   * A nested lambda is typed by the enclosing types joined with the new
   * typedef name: `<outer>_T` for protobuf and `<outer>::T` for DFHack.
   */
  lemma AnonScopeTypes(cfg: Cfg, st: St, n: Node, name: string)
    requires |st.outer| > 0 && forall k :: 0 <= k < |st.outer| ==> st.outer[k].Some?
    ensures OuterProto(st).Ok? && OuterDfhack(st).Ok?
    ensures var (tname, _, rdr) := AnonScope(cfg, st, n, name);
      OuterProto(rdr) == Ok(OuterProto(st).value + "_" + tname) &&
      OuterDfhack(rdr) == Ok(OuterDfhack(st).value + "::" + tname)
  {
    var (tname, _, rdr) := AnonScope(cfg, st, n, name);
    OuterJoinOk(st.outer, "_");
    OuterJoinOk(st.outer, "::");
    OuterJoinPush(st.outer, "_", tname);
    OuterJoinPush(st.outer, "::", tname);
  }

  /** The bound of a container loop: the `count` attribute, else the container's `size()`. */
  function Bound(n: Node, names: (string, string), deref: bool): string
  {
    var count := Get(n, "count");
    if Truthy(count) then count.value else "dfhack->" + names.1 + (if deref then "->" else ".") + "size()"
  }

  /** The loop at the end of `render_field_container`. */
  function ContainerLoop(n: Node, names: (string, string), deref: bool, out: string, item: string): Result<string>
  {
    var ind :- Ident(n, 0);
    Ok(out + ind + "for (size_t i=0; i<" + Bound(n, names, deref) + "; i++) {\n" + ind + "  " + item + ind + "}\n")
  }

  /** The three statements copying one enum element of a container. */
  function EnumElement(ltname: string, tname: string, names: (string, string)): string
  {
    "  dfproto::" + ltname + " value;\n" +
    "  describe_" + tname + "(&value, &dfhack->" + names.0 + "[i]);\n" +
    "  proto->add_" + names.0 + "(value);\n"
  }

  /** `for k, v in exceptions_index: if k == tname: item_str = ...` without a break: the last rule for the type. */
  function LastIndexRule(index: seq<(string, string)>, t: string): Option<string>
    decreases |index|
  {
    if |index| == 0 then None
    else if index[|index| - 1].0 == t then Some(index[|index| - 1].1)
    else LastIndexRule(index[..|index| - 1], t)
  }

  /** A rule is found exactly when one names the type, and it is the last such rule. */
  lemma {:induction false} LastIndexRuleSpec(index: seq<(string, string)>, t: string)
    ensures LastIndexRule(index, t).Some? <==> exists k :: 0 <= k < |index| && index[k].0 == t
    ensures LastIndexRule(index, t).Some? ==>
      exists k :: 0 <= k < |index| && index[k] == (t, LastIndexRule(index, t).value) &&
                  forall j :: k < j < |index| ==> index[j].0 != t
    decreases |index|
  {
    if |index| > 0 {
      var last := |index| - 1;
      var init := index[..last];
      if index[last].0 == t {
        assert index[last] == (t, LastIndexRule(index, t).value);
      } else {
        LastIndexRuleSpec(init, t);
        if LastIndexRule(init, t).Some? {
          var k :| 0 <= k < last && init[k] == (t, LastIndexRule(init, t).value) && forall j :: k < j < last ==> init[j].0 != t;
          assert index[k] == init[k];
          forall j | k < j < |index|
            ensures index[j].0 != t
          {
            if j < last {
              assert index[j] == init[j];
            }
          }
        } else {
          forall k | 0 <= k < |index|
            ensures index[k].0 != t
          {
            if k < last {
              assert index[k] == init[k];
            }
          }
        }
      }
    }
  }

  /** An element type rendered as an enum: `ld:subtype` enum, a type name ending in `_type`, or an enum exception. */
  predicate EnumLike(rules: Rules, sub: Option<string>, t: Option<string>)
  {
    Is(sub, "enum") || (Truthy(t) && EndsWith(t.value, "_type")) || (t.Some? && t.value in rules.enums)
  }

  // ---- the field renderers ----

  /** `render_field(xml, ctx)`, that is `render_field_impl`: the export filter, the marking, the dispatch. */
  function Field(cfg: Cfg, st: St, n: Node, ctx: Ctx): (r: Result<Out>)
    ensures r.Ok? ==> Grows(st, r.value.st)
    decreases Size(n), 4
  {
    match Decide(cfg.rules, n)
    case Conversion => FieldConversion(cfg, st, n)
    case Ignored =>
      var t :- IgnoredText(cfg.rules, n);
      Ok(Out(t, st))
    case Kept =>
      MarkExportedSize(n);
      Dispatch(cfg, st, MarkExported(n), ctx)
  }

  /** The dispatch on `ld:meta` of an element that passed the filter. */
  function Dispatch(cfg: Cfg, st: St, m: Node, ctx: Ctx): (r: Result<Out>)
    ensures r.Ok? ==> Grows(st, r.value.st)
    decreases Size(m), 3
  {
    match KindOf(m)
    case MethodField => FieldMethod(cfg, st, m, ctx)
    case CompoundField => Compound(cfg, st, m, ctx)
    case SimpleField => FieldSimple(cfg, st, m, ctx)
    case GlobalField => FieldGlobal(cfg, st, m, ctx)
    case ContainerField => Container(cfg, st, m, ctx)
    case PointerField => Pointer(cfg, st, m, ctx)
    case UnknownField => Err("not supported")
  }

  /** `render_field_conversion`: `convert_<T>_to_<export-as>(...)`, importing `conversion`. */
  function FieldConversion(cfg: Cfg, st: St, n: Node): (r: Result<Out>)
    ensures r.Ok? ==> Grows(st, r.value.st) && Some("conversion") in r.value.st.dfImports
  {
    var (names, st1) := GetNames(cfg, st, n);
    var (td, a) := GetTypedefName(cfg.rules, st1.anon, n, Some(names.0));
    var nt := Get(n, "export-as");
    if !Truthy(nt) then Err("AssertionError")
    else
      var st2 := st1.(anon := a, dfImports := st1.dfImports + {Some("conversion")});
      var ind :- Ident(n, 0);
      Ok(Out(ind + "convert_" + td + "_to_" + nt.value + "(&dfhack->" + names.0 + ", proto->mutable_" + names.0 + "());\n", st2))
  }

  /** `render_field_method`: a getter `getX` becomes `set_x(dfhack->getX())`, through a temporary when not primitive. */
  function FieldMethod(cfg: Cfg, st: St, n: Node, ctx: Ctx): (r: Result<Out>)
    ensures r.Ok? ==> Grows(st, r.value.st)
  {
    var mn := Get(n, "name");
    if mn.None? then Err("AttributeError")
    else if !StartsWith(mn.value, "get") then Err("AssertionError")
    else
      var name := Lower(mn.value[3..]);
      var t := Get(n, "ret-type");
      if IsPrimitive(t) then
        var ind :- Ident(n, ctx.ident);
        Ok(Out(ind + " " + "proto->set_" + name + "(dfhack->" + mn.value + "());\n", st))
      else
        Ok(Out("df::" + Show(t) + " df_" + name + " = dfhack->" + mn.value + "();\n" +
               "dfproto::" + Show(t) + " " + name + ";\n" +
               "describe_" + Show(t) + "(&" + name + ", &df_" + name + ");\n" +
               "proto->set_" + name + "(" + name + ");\n", Import(st, t)))
  }

  /** `render_field_simple`: `proto->set_<pb>(dfhack-><df>);`. */
  function FieldSimple(cfg: Cfg, st: St, n: Node, ctx: Ctx): (r: Result<Out>)
    ensures r.Ok? ==> Grows(st, r.value.st)
  {
    var (names, st1) := GetNames(cfg, st, n);
    var ind :- Ident(n, ctx.ident);
    Ok(Out(ind + ConvertSimple(names, false, false, false), st1))
  }

  /** `render_field_global`: an enum subtype is an enum field; anything else is described by its type's function. */
  function FieldGlobal(cfg: Cfg, st: St, n: Node, ctx: Ctx): (r: Result<Out>)
    ensures r.Ok? ==> Grows(st, r.value.st)
  {
    var (c, st1) := EnsureNames(cfg, st, n, ctx);
    var t := Get(n, "type-name");
    if Is(Get(n, "ld:subtype"), "enum") then FieldEnum(cfg, Import(st1, t), n)
    else
      var ind :- Ident(n, c.ident);
      Ok(Out(ind + ConvertFieldCompound(t, c.names.value, c.deref, false), Import(st1, t)))
  }

  /** `render_field_pointer`. */
  function Pointer(cfg: Cfg, st: St, n: Node, ctx: Ctx): (r: Result<Out>)
    ensures r.Ok? ==> Grows(st, r.value.st)
    decreases Size(n), 2
  {
    var (c, st1) := EnsureNames(cfg, st, n, ctx);
    var names := c.names.value;
    var t := Get(n, "type-name");
    if IsPrimitive(t) then Ok(Out(ConvertSimple(names, true, false, false), st1))
    else match (if t.Some? then IndexRule(cfg.rules.index, t.value) else None)
      case Some(v) =>
        Ok(Out(ConvertSimple((names.0 + "_" + v, names.1 + "->" + v), false, false, false),
               st1.(dfImports := st1.dfImports + {t})))
      case None =>
        if Len(n) > 0 then
          ChildSmaller(n, 0);
          var f :- Field(cfg, st1, n.children[0], c.(deref := true, ident := c.ident - 1));
          var meta := Get(n.children[0], "ld:meta");
          Ok(Out(if Is(meta, "static-array") || Is(meta, "container") then Guard(names.1, f.text) else f.text, f.st))
        else
          var ind :- Ident(n, 0);
          Ok(Out(ind + "/* ignored pointer to unknown type */\n", st1))
  }

  /** `render_field_container`. */
  function Container(cfg: Cfg, st: St, n: Node, ctx: Ctx): (r: Result<Out>)
    ensures r.Ok? ==> Grows(st, r.value.st)
    decreases Size(n), 2
  {
    var (names, st1) := if ctx.names.Some? then (ctx.names.value, st) else GetNames(cfg, st, n);
    var sub := Get(n, "ld:subtype");
    var pt := Get(n, "pointer-type");
    if Len(n) == 0 then
      var ind :- Ident(n, 0);
      Ok(Out(ind + "/* ignored empty container " + names.0 + " */\n", st1))
    else if Is(sub, "df-flagarray") then
      var ind :- Ident(n, 0);
      Ok(Out(ind + "/* ignored flagarray container " + names.0 + " */\n", st1))
    else if Is(sub, "stl-bit-vector") then
      var ind :- Ident(n, 0);
      Ok(Out(ind + "/* ignored stl-bit-vector container " + names.0 + " */\n", st1))
    else if Is(sub, "df-linked-list") then FieldGlobal(cfg, st1, n, ctx)
    else if Truthy(pt) then
      if pt.value == "bytes" then
        var ind :- Ident(n, 0);
        Ok(Out(ind + "/* ignored container of pointers to bytes " + names.0 + " */\n", st1))
      else if IsPrimitive(pt) then
        var loop :- ContainerLoop(n, names, ctx.deref, "", ConvertSimple(names, true, true, ctx.deref));
        Ok(Out(loop, st1))
      else
        var rule := LastIndexRule(cfg.rules.index, pt.value);
        var item := if rule.Some? then "proto->add_" + names.0 + "_" + rule.value + "(dfhack->" + names.1 + "[i]->" + rule.value + ");"
          else ConvertFieldCompound(pt, names, true, true);
        var loop :- ContainerLoop(n, names, ctx.deref, "", item);
        Ok(Out(loop, Import(st1, pt)))
    else
      ChildSmaller(n, 0);
      Element(cfg, st1, n, ctx, names)
  }

  /** The element branches of `render_field_container`, for a container with a child and no `pointer-type`. */
  function Element(cfg: Cfg, st: St, n: Node, ctx: Ctx, names: (string, string)): (r: Result<Out>)
    requires Len(n) > 0
    ensures r.Ok? ==> Grows(st, r.value.st)
    decreases Size(n), 1
  {
    var e := n.children[0];
    ChildSmaller(n, 0);
    var meta := Get(e, "ld:meta");
    var esub := Get(e, "ld:subtype");
    var et := Get(e, "type-name");
    if Is(esub, "bitfield") then
      var (a, st1) :- AnonBitfield(cfg, st, e, names.0);
      var loop :- ContainerLoop(n, names, ctx.deref, a, ConvertBitfield(if Truthy(et) then et.value else "T_" + names.0, names, true));
      Ok(Out(loop, st1))
    else if EnumLike(cfg.rules, esub, et) then
      if Truthy(et) then
        var loop :- ContainerLoop(n, names, ctx.deref, "", EnumElement(et.value, et.value, names));
        Ok(Out(loop, Import(st, et)))
      else
        var tname := "T_" + names.0;
        var o :- OuterProto(st);
        var (a, st1) :- AnonEnum(cfg, st, e, names.0);
        var loop :- ContainerLoop(n, names, ctx.deref, a, EnumElement(o + "_" + tname, tname, names));
        Ok(Out(loop, st1))
    else if IsPrimitive(esub) then
      var loop :- ContainerLoop(n, names, ctx.deref, "", ConvertSimple(names, false, true, ctx.deref));
      Ok(Out(loop, st))
    else if Is(meta, "pointer") then
      if Len(e) == 0 then
        var ind :- Ident(n, 0);
        Ok(Out(ind + "/* ignored empty container " + names.0 + " */\n", st))
      else
        ChildSmaller(e, 0);
        var (a, st1) :- AnonCompound(cfg, st, e.children[0], names.0);
        var loop :- ContainerLoop(n, names, ctx.deref, a, ConvertFieldCompound(Some("T_" + names.0), names, true, true));
        Ok(Out(loop, st1))
    else if Is(meta, "compound") then
      var (a, st1) :- AnonCompound(cfg, st, e, names.0);
      var loop :- ContainerLoop(n, names, ctx.deref, a, ConvertFieldCompound(Some("T_" + names.0), names, false, true));
      Ok(Out(loop, st1))
    else if Is(meta, "container") || Is(meta, "static-array") then
      Ok(Out("/* ignored container of " + meta.value + "s " + names.0 + " */\n", st))
    else if IsPrimitive(et) then Field(cfg, st, e, DefaultCtx)
    else
      var loop :- ContainerLoop(n, names, ctx.deref, "", ConvertFieldCompound(et, names, false, true));
      Ok(Out(loop, Import(st, et)))
  }

  /** `_convert_anon_compound(xml, name)`: a lambda whose body is every field, rendered by the nested copy. */
  function AnonCompound(cfg: Cfg, st: St, n: Node, name: string): (r: Result<(string, St)>)
    ensures r.Ok? ==> Grows(st, r.value.1)
    decreases Size(n), 1
  {
    var (tname, st1, rdr) := AnonScope(cfg, st, n, name);
    var ind :- Ident(n, 0);
    var op :- OuterProto(rdr);
    var od :- OuterDfhack(rdr);
    var body :- AnonFields(cfg, rdr, n, 0, LambdaHead(ind, tname, op, od));
    Ok((body.0 + ind + "};\n", Shared(st1, body.1)))
  }

  /** The field loop of `_convert_anon_compound`: each field with a fresh `Context`. */
  function AnonFields(cfg: Cfg, st: St, n: Node, i: nat, out: string): (r: Result<(string, St)>)
    requires i <= |Findall(n, "ld:field")|
    ensures r.Ok? ==> Grows(st, r.value.1)
    decreases Size(n), 0, |Findall(n, "ld:field")| - i
  {
    var items := Findall(n, "ld:field");
    if i == |items| then Ok((out, st))
    else
      FindallSmaller(n, "ld:field", i);
      var f :- Field(cfg, st, items[i], DefaultCtx);
      AnonFields(cfg, f.st, n, i + 1, out + f.text)
  }

  /** `render_field_compound`. */
  function Compound(cfg: Cfg, st: St, n: Node, ctx: Ctx): (r: Result<Out>)
    ensures r.Ok? ==> Grows(st, r.value.st)
    decreases Size(n), 2
  {
    var sub := Get(n, "ld:subtype");
    if Is(Get(n, "is-union"), "true") then Union(cfg, st, n)
    else
      var (c, st1) := EnsureNames(cfg, st, n, ctx);
      var names := c.names.value;
      var (tname, a) := GetTypedefName(cfg.rules, st1.anon, n, Some(names.0));
      var st2 := st1.(anon := a);
      if Is(sub, "enum") then
        var ind :- Ident(n, 0);
        var (e, st3) :- AnonEnum(cfg, Fresh(st2), n, names.0);
        var o :- OuterProto(st2);
        Ok(Out(e + ind + ConvertEnum(tname, o + "_" + tname, names), st2))
      else if Is(sub, "bitfield") then
        var ind :- Ident(n, 0);
        var (b, st3) :- AnonBitfield(cfg, Fresh(st2), n, names.0);
        Ok(Out(b + ind + ConvertBitfield(tname, names, false), st2))
      else
        var ind :- Ident(n, 0);
        var (body, st3) :- AnonCompound(cfg, Fresh(st2), n, names.0);
        Ok(Out(body + ind + ConvertFieldCompound(Some(tname), names, c.deref, false), Shared(st2, st3)))
  }

  /** One `case` of the union switch. */
  function Arm(t: string, udf: string, names: (string, string)): string
  {
    "    case ::df::enums::" + t + "::" + names.1 + ":\n" +
    "      proto->set_" + names.0 + "(dfhack->" + udf + "." + names.1 + ");\n" +
    "      break;\n"
  }

  /** The cases of the union switch, one per arm in order, and the cache after naming them. */
  function Cases(rules: Rules, anon: Anon, items: seq<Node>, i: nat, t: string, udf: string): (string, Anon)
    requires i <= |items|
    decreases |items| - i
  {
    if i == |items| then ("", anon)
    else
      var x := ResolveName(rules, anon, items[i]);
      var rest := Cases(rules, x.anon, items, i + 1, t, udf);
      (Arm(t, udf, (x.pb, x.df)) + rest.0, rest.1)
  }

  /** `switch (dfhack-><df>) {` on the discriminant. */
  function SwitchHead(edf: string): string
  {
    "  switch (dfhack->" + edf + ") {\n"
  }

  /** The `default` case, which clears the union, and the closing brace. */
  function SwitchEnd(pb: string): string
  {
    "    default:\n" + "      proto->clear_" + pb + "();\n" + "  }\n"
  }

  /**
   * `render_field_union(xml)`: without a recorded enum field, a comment;
   * otherwise a switch on that field with one case per arm and a default
   * that clears the union.
   */
  function Union(cfg: Cfg, st: St, n: Node): (r: Result<Out>)
    ensures r.Ok? ==> Grows(st, r.value.st)
  {
    var (names, st1) := GetNames(cfg, st, n);
    if st1.lastEnum.None? then
      var (td, a) := GetTypedefName(cfg.rules, st1.anon, n, Some(names.0));
      Ok(Out("/* failed to find a discriminator for union " + td + " */\n", st1.(anon := a)))
    else
      var e := st1.lastEnum.value;
      var (enames, st2) := GetNames(cfg, st1, e);
      var cases := Cases(cfg.rules, st2.anon, Findall(n, "ld:field"), 0, Show(Get(e, "type-name")), names.1);
      Ok(Out(SwitchHead(enames.1) + cases.0 + SwitchEnd(names.0),
             st2.(anon := cases.1)))
  }

  // ---- struct rendering ----

  /** Accumulated text, state and the ordinal of the struct loops. */
  datatype Acc = Acc(text: string, st: St, value: int)

  /** `field.lstrip().startswith(...)` with the comment opener: a rendered field that is only a comment. */
  predicate IsComment(text: string)
  {
    StartsWith(LStrip(text), "/*")
  }

  /** `_render_struct_field` in a loop: a comment-only field is dropped and takes an ordinal; any other keeps it. */
  function StructLoop(cfg: Cfg, st: St, items: seq<Node>, i: nat, value: int, out: string): Result<Acc>
    requires i <= |items|
    decreases |items| - i
  {
    if i == |items| then Ok(Acc(out, st, value))
    else
      var f :- Field(cfg, st, items[i], DefaultCtx);
      if IsComment(f.text) then StructLoop(cfg, f.st, items, i + 1, value + 1, out)
      else StructLoop(cfg, f.st, items, i + 1, value, out + f.text)
  }

  /** `_render_class_method` in a loop: only getters are rendered and numbered. */
  function MethodLoop(cfg: Cfg, st: St, ms: seq<Node>, i: nat, value: int, out: string): Result<Acc>
    requires i <= |ms|
    decreases |ms| - i
  {
    if i == |ms| then Ok(Acc(out, st, value))
    else
      var r := ResolveName(cfg.rules, st.anon, ms[i]);
      var st1 := st.(anon := r.anon);
      if !IsGetter(r.pb, ms[i]) then MethodLoop(cfg, st1, ms, i + 1, value, out)
      else
        var f :- Field(cfg, st1, ms[i], DefaultCtx);
        MethodLoop(cfg, f.st, ms, i + 1, value + 1, out + f.text)
  }

  /** `render_type_struct(xml)` with the C++ header, parent line and footer. */
  function TypeStruct(cfg: Cfg, st: St, n: Node): Result<(string, St)>
  {
    var hi :- Ident(n, 0);
    var parent := Get(n, "inherits-from");
    var ptext := if Truthy(parent) then hi + "  describe_" + parent.value + "(proto->mutable_parent(), dfhack);\n" else "";
    var st1 := if Truthy(parent) then st.(dfImports := st.dfImports + {parent}) else st;
    var f :- StructLoop(cfg, st1, Findall(n, "ld:field"), 0, if Truthy(parent) then 2 else 1, "");
    var m :- MethodLoop(cfg, f.st, VMethods(n), 0, f.value, "");
    Ok((hi + Describe(cfg, Show(Get(n, "type-name"))) + ptext + f.text + m.text + "}\n", m.st))
  }

  /** `render_type(xml)`: pushes the type name, then renders a bitfield, enum or struct. */
  function TypeDecl(cfg: Cfg, st: St, n: Node): Result<(string, St)>
  {
    var st1 := st.(outer := st.outer + [Get(n, "type-name")]);
    match TypeKindOf(n)
    case BitfieldType =>
      var t :- TypeBitfield(cfg, n);
      Ok((t, st1))
    case EnumType =>
      var t :- TypeEnum(cfg, n);
      Ok((t, st1))
    case StructType => TypeStruct(cfg, st1, n)
    case UnknownType => Err("not supported")
  }

  // ---- properties ----

  /**
   * With `comment_ignored` set an ignored field renders as a comment, which
   * the struct loop drops while taking an ordinal; without it the field
   * renders as nothing and the ordinal stays. Either way the text is unchanged.
   */
  lemma StructSkipsIgnored(cfg: Cfg, st: St, items: seq<Node>, i: nat, value: int, out: string)
    requires i < |items| && Decide(cfg.rules, items[i]) == Ignored && Level(items[i]).Ok?
    ensures StructLoop(cfg, st, items, i, value, out) ==
      StructLoop(cfg, st, items, i + 1, if cfg.rules.commentIgnored then value + 1 else value, out)
  {
    var t := IgnoredText(cfg.rules, items[i]).value;
    assert Field(cfg, st, items[i], DefaultCtx) == Ok(Out(t, st));
    IgnoredIsComment(cfg.rules, items[i]);
    assert out + "" == out;
  }

  /** The ignore comment is a comment for the struct loop; without it the text is empty. */
  lemma IgnoredIsComment(rules: Rules, n: Node)
    requires Level(n).Ok?
    ensures IgnoredText(rules, n).Ok?
    ensures rules.commentIgnored ==> IsComment(IgnoredText(rules, n).value)
    ensures !rules.commentIgnored ==> IgnoredText(rules, n).value == "" && !IsComment("")
  {
    if rules.commentIgnored {
      var tail := "/* ignored field " + Or(Get(n, "name"), "anon") + " */\n";
      LStripIndent(Level(n).value, tail);
      assert IgnoredText(rules, n).value == Indent(Level(n).value) + tail;
    }
  }

  /** A pointer to a primitive is one `set_` through the pointer, under a NULL test of it. */
  lemma PointerPrimitive(cfg: Cfg, st: St, n: Node, ctx: Ctx)
    requires IsPrimitive(Get(n, "type-name"))
    ensures var (c, st1) := EnsureNames(cfg, st, n, ctx);
      var (pb, df) := c.names.value;
      Pointer(cfg, st, n, ctx) == Ok(Out(Guard(df, "proto->set_" + pb + "(*dfhack->" + df + ");\n"), st1))
  {
    var (c, st1) := EnsureNames(cfg, st, n, ctx);
    PrimitiveText(c.names.value.0, c.names.value.1);
  }

  lemma PrimitiveText(pb: string, df: string)
    ensures ConvertSimple((pb, df), true, false, false) == Guard(df, "proto->set_" + pb + "(*dfhack->" + df + ");\n")
  {
    ConvertSimpleShape((pb, df), false, false);
    assert df + Idx(false) == df;
    assert Call("set", pb) + "*" + (SField(df, false) + Idx(false) + ");\n") == "proto->set_" + pb + "(*dfhack->" + df + ");\n";
  }

  /**
   * A pointer whose type has an index rule copies the rule's field of the
   * pointee into `<pb>_<field>`, and the type joins the protobuf imports.
   */
  lemma PointerIndexed(cfg: Cfg, st: St, n: Node, ctx: Ctx)
    requires !IsPrimitive(Get(n, "type-name")) && Get(n, "type-name").Some?
    requires IndexRule(cfg.rules.index, Get(n, "type-name").value).Some?
    ensures var (c, st1) := EnsureNames(cfg, st, n, ctx);
      var (pb, df) := c.names.value;
      var t := Get(n, "type-name");
      var v := IndexRule(cfg.rules.index, t.value).value;
      Pointer(cfg, st, n, ctx) ==
        Ok(Out("proto->set_" + pb + "_" + v + "(dfhack->" + df + "->" + v + ");\n", st1.(dfImports := st1.dfImports + {t})))
  {
    var (c, st1) := EnsureNames(cfg, st, n, ctx);
    var (pb, df) := c.names.value;
    IndexedText(pb, df, IndexRule(cfg.rules.index, Get(n, "type-name").value).value);
  }

  lemma IndexedText(pb: string, df: string, v: string)
    ensures ConvertSimple((pb + "_" + v, df + "->" + v), false, false, false) ==
      "proto->set_" + pb + "_" + v + "(dfhack->" + df + "->" + v + ");\n"
  {
    ConvertSimpleShape((pb + "_" + v, df + "->" + v), false, false);
    assert Call("set", pb + "_" + v) + (SField(df + "->" + v, false) + Idx(false) + ");\n") ==
      "proto->set_" + pb + "_" + v + "(dfhack->" + df + "->" + v + ");\n";
  }

  /** A pointer with neither a type nor a child is the ignored-pointer comment. */
  lemma PointerUnknown(cfg: Cfg, st: St, n: Node, ctx: Ctx)
    requires Get(n, "type-name").None? && Len(n) == 0 && Level(n).Ok?
    ensures var (c, st1) := EnsureNames(cfg, st, n, ctx);
      Pointer(cfg, st, n, ctx) == Ok(Out(Indent(Level(n).value) + "/* ignored pointer to unknown type */\n", st1))
  {
  }

  /**
   * The containers that are not copied become one comment naming the field:
   * one without a child, a flag array and a bit vector.
   */
  lemma ContainerComments(cfg: Cfg, st: St, n: Node, ctx: Ctx)
    requires Level(n).Ok?
    ensures var (names, st1) := if ctx.names.Some? then (ctx.names.value, st) else GetNames(cfg, st, n);
      var ind := Indent(Level(n).value);
      var sub := Get(n, "ld:subtype");
      (Len(n) == 0 ==>
        Container(cfg, st, n, ctx) == Ok(Out(ind + "/* ignored empty container " + names.0 + " */\n", st1))) &&
      (Len(n) > 0 && Is(sub, "df-flagarray") ==>
        Container(cfg, st, n, ctx) == Ok(Out(ind + "/* ignored flagarray container " + names.0 + " */\n", st1))) &&
      (Len(n) > 0 && Is(sub, "stl-bit-vector") ==>
        Container(cfg, st, n, ctx) == Ok(Out(ind + "/* ignored stl-bit-vector container " + names.0 + " */\n", st1)))
  {
  }

  /** A container of pointers to bytes is not copied either. */
  lemma BytesComment(cfg: Cfg, st: St, n: Node, ctx: Ctx)
    requires Level(n).Ok? && Len(n) > 0 && Get(n, "pointer-type") == Some("bytes")
    requires var sub := Get(n, "ld:subtype");
      !Is(sub, "df-flagarray") && !Is(sub, "stl-bit-vector") && !Is(sub, "df-linked-list")
    ensures var (names, st1) := if ctx.names.Some? then (ctx.names.value, st) else GetNames(cfg, st, n);
      Container(cfg, st, n, ctx) ==
        Ok(Out(Indent(Level(n).value) + "/* ignored container of pointers to bytes " + names.0 + " */\n", st1))
  {
  }

  /** An element that is itself a container or a static array is not copied: one comment, no loop. */
  lemma NestedContainerComment(cfg: Cfg, st: St, n: Node, ctx: Ctx, names: (string, string))
    requires Len(n) > 0
    requires var e := n.children[0];
      (Is(Get(e, "ld:meta"), "container") || Is(Get(e, "ld:meta"), "static-array")) &&
      !Is(Get(e, "ld:subtype"), "bitfield") && !EnumLike(cfg.rules, Get(e, "ld:subtype"), Get(e, "type-name")) &&
      !IsPrimitive(Get(e, "ld:subtype"))
    ensures Element(cfg, st, n, ctx, names) ==
      Ok(Out("/* ignored container of " + Get(n.children[0], "ld:meta").value + "s " + names.0 + " */\n", st))
  {
  }

  /**
   * The loop bound is the `count` attribute when set, else the container's
   * `size()`, reached through `->` when the container is behind a pointer.
   */
  lemma LoopBound(n: Node, names: (string, string), deref: bool)
    ensures Truthy(Get(n, "count")) ==> Bound(n, names, deref) == Get(n, "count").value
    ensures !Truthy(Get(n, "count")) ==>
      Bound(n, names, deref) == "dfhack->" + names.1 + (if deref then "->size()" else ".size()")
  {
    if !Truthy(Get(n, "count")) {
      Assoc("dfhack->" + names.1, if deref then "->" else ".", "size()");
    }
  }

  /**
   * A container of primitives reached through `pointer-type` is one loop
   * appending each element through its pointer, under a NULL test.
   */
  lemma ContainerOfPrimitivePointers(cfg: Cfg, st: St, n: Node, ctx: Ctx)
    requires Level(n).Ok? && Len(n) > 0
    requires var sub := Get(n, "ld:subtype");
      !Is(sub, "df-flagarray") && !Is(sub, "stl-bit-vector") && !Is(sub, "df-linked-list")
    requires var pt := Get(n, "pointer-type"); Truthy(pt) && pt.value != "bytes" && IsPrimitive(pt)
    ensures var (names, st1) := if ctx.names.Some? then (ctx.names.value, st) else GetNames(cfg, st, n);
      var ind := Indent(Level(n).value);
      Container(cfg, st, n, ctx) ==
        Ok(Out(ind + "for (size_t i=0; i<" + Bound(n, names, ctx.deref) + "; i++) {\n" +
               ind + "  " + ConvertSimple(names, true, true, ctx.deref) + ind + "}\n", st1))
  {
    var (names, st1) := if ctx.names.Some? then (ctx.names.value, st) else GetNames(cfg, st, n);
    assert "" + Indent(Level(n).value) == Indent(Level(n).value);
  }

  /**
   * An element whose type name ends in `_type`, or is listed as an enum
   * exception, is copied as an enum: a `dfproto::<T> value` converted by
   * `describe_<T>` and added, with the type imported on both sides.
   */
  lemma EnumElements(cfg: Cfg, st: St, n: Node, ctx: Ctx, names: (string, string))
    requires Len(n) > 0 && Level(n).Ok?
    requires var e := n.children[0]; var et := Get(e, "type-name");
      !Is(Get(e, "ld:subtype"), "bitfield") && Truthy(et) && (EndsWith(et.value, "_type") || et.value in cfg.rules.enums)
    ensures var et := Get(n.children[0], "type-name");
      Element(cfg, st, n, ctx, names) ==
        Ok(Out(ContainerLoop(n, names, ctx.deref, "", EnumElement(et.value, et.value, names)).value, Import(st, et)))
  {
  }

  /** Without a recorded enum field the union is a comment naming its typedef. */
  lemma UnionNoDiscriminator(cfg: Cfg, st: St, n: Node)
    requires st.lastEnum.None?
    ensures var (names, st1) := GetNames(cfg, st, n);
      var (td, a) := GetTypedefName(cfg.rules, st1.anon, n, Some(names.0));
      Union(cfg, st, n) == Ok(Out("/* failed to find a discriminator for union " + td + " */\n", st1.(anon := a)))
  {
  }

  /**
   * With a recorded enum field the union is a switch on that field's DFHack
   * name, ending with a `default` that clears the union.
   */
  lemma UnionSwitch(cfg: Cfg, st: St, n: Node)
    requires st.lastEnum.Some?
    ensures var (names, st1) := GetNames(cfg, st, n);
      var enames := GetNames(cfg, st1, st.lastEnum.value).0;
      var r := Union(cfg, st, n);
      r.Ok? && StartsWith(r.value.text, SwitchHead(enames.1)) && EndsWith(r.value.text, SwitchEnd(names.0))
  {
    var (names, st1) := GetNames(cfg, st, n);
    var e := st.lastEnum.value;
    var (enames, st2) := GetNames(cfg, st1, e);
    var cases := Cases(cfg.rules, st2.anon, Findall(n, "ld:field"), 0, Show(Get(e, "type-name")), names.1).0;
    HeadAndTail(SwitchHead(enames.1), cases, SwitchEnd(names.0));
  }

  lemma HeadAndTail(head: string, mid: string, tail: string)
    ensures StartsWith(head + mid + tail, head) && EndsWith(head + mid + tail, tail)
  {
    var t := head + mid + tail;
    assert t[..|head|] == head;
    assert t[|t| - |tail|..] == tail;
  }

  /**
   * An enum field is the discriminant of the next union rendered with the
   * same state: the switch tests the enum field's DFHack name.
   */
  lemma EnumIsDiscriminator(cfg: Cfg, st: St, e: Node, n: Node)
    requires FieldEnum(cfg, st, e).Ok?
    ensures var st1 := FieldEnum(cfg, st, e).value.st;
      var (names, st2) := GetNames(cfg, st1, n);
      Union(cfg, st1, n).Ok? &&
      StartsWith(Union(cfg, st1, n).value.text, SwitchHead(ResolveName(cfg.rules, st2.anon, e).df))
  {
    UnionSwitch(cfg, FieldEnum(cfg, st, e).value.st, n);
  }

  /** A type whose `ld:meta` is not bitfield-, enum-, class- or struct-type is refused. */
  lemma UnknownTypeRaises(cfg: Cfg, st: St, n: Node)
    requires TypeKindOf(n) == UnknownType
    ensures TypeDecl(cfg, st, n).Err?
  {
  }

  /** A field with an unknown `ld:meta` that passes the filter is refused. */
  lemma UnknownFieldRaises(cfg: Cfg, st: St, n: Node, ctx: Ctx)
    requires Decide(cfg.rules, n) == Kept && KindOf(n) == UnknownField
    ensures Field(cfg, st, n, ctx).Err?
  {
    KindOfMarked(n);
    DispatchUnknown(cfg, st, MarkExported(n), ctx);
  }

  lemma DispatchUnknown(cfg: Cfg, st: St, m: Node, ctx: Ctx)
    requires KindOf(m) == UnknownField
    ensures Dispatch(cfg, st, m, ctx) == Err("not supported")
  {
  }

  /** `copy()` clones the stack: pushing onto the copy's stack leaves the parent's as it was. */
  lemma NestedKeepsParent(cfg: Cfg, st: St, n: Node, name: string)
    ensures var (tname, st1, rdr) := AnonScope(cfg, st, n, name);
      st1.outer == st.outer && rdr.outer == st.outer + [Some(tname)] &&
      rdr.imports == st.imports && rdr.dfImports == st.dfImports && rdr.lastEnum.None?
  {
  }

  /** The first index rule for a type: the loop of `render_field_pointer`, which returns at the first match. */
  lemma IndexRuleFirst(index: seq<(string, string)>, t: string, i: nat)
    requires i < |index| && index[i].0 == t
    requires forall j :: 0 <= j < i ==> index[j].0 != t
    ensures IndexRule(index, t) == Some(index[i].1)
  {
  }

  /** The last index rule for a type: the loop of `render_field_container`, which keeps overwriting. */
  lemma LastIndexRulePrefix(index: seq<(string, string)>, t: string, i: nat)
    requires i < |index|
    ensures LastIndexRule(index[..i + 1], t) == if index[i].0 == t then Some(index[i].1) else LastIndexRule(index[..i], t)
  {
    assert index[..i + 1][..i] == index[..i];
  }

  /**
   * The renderer object. `base` holds the fields inherited from
   * `AbstractRenderer`; `Config()` and `State()` are what the functions above
   * take. Each method changes the fields as the function it is proved against
   * says; the loop methods follow the source's loops.
   */
  class CppRenderer {
    const base: AbstractRenderer
    const protoNs: string
    const cppNs: string
    var imports: set<Option<string>>
    var dfImports: set<Option<string>>
    var lastEnum: Option<Node>
    var outer: seq<Option<string>>

    function Config(): Cfg
      reads this, base
    {
      Cfg(base.Settings(), protoNs, cppNs)
    }

    function State(): St
      reads this, base
    {
      St(base.Cache(), imports, dfImports, lastEnum, outer)
    }

    constructor (xpath: map<string, seq<nat>>, protoNs: string, cppNs: string)
      ensures fresh(base)
      ensures Config() == Cfg(Rules([], [], [], [], true, false, xpath), protoNs, cppNs)
      ensures State() == St(NoAnon, {}, {}, None, [])
    {
      base := new AbstractRenderer(xpath);
      this.protoNs := protoNs;
      this.cppNs := cppNs;
      imports := {};
      dfImports := {};
      lastEnum := None;
      outer := [];
    }

    /** Writes a new state back into the fields. */
    method Store(st: St)
      modifies this, base
      ensures State() == st && Config() == old(Config())
    {
      imports := st.imports;
      dfImports := st.dfImports;
      lastEnum := st.lastEnum;
      outer := st.outer;
      base.anonXml := st.anon.last;
      base.anonId := st.anon.count;
    }

    /** `get_name`: both names, advancing the cache. */
    method GetName(n: Node) returns (pb: string, df: string)
      modifies base
      ensures Config() == old(Config())
      ensures ((pb, df), State()) == GetNames(old(Config()), old(State()), n)
    {
      pb, df := base.GetName(n);
    }

    /** `copy()`: the same settings and stack, a fresh cache and no recorded enum, the same import sets. */
    method Copy() returns (r: CppRenderer)
      ensures fresh(r) && fresh(r.base)
      ensures r.Config() == Config() && r.State() == Fresh(State())
    {
      r := new CppRenderer(base.xpath, protoNs, cppNs);
      r.base.exceptionsRename := base.exceptionsRename;
      r.base.exceptionsIgnore := base.exceptionsIgnore;
      r.base.exceptionsIndex := base.exceptionsIndex;
      r.base.exceptionsEnum := base.exceptionsEnum;
      r.base.ignoreNoExport := base.ignoreNoExport;
      r.base.commentIgnored := base.commentIgnored;
      r.imports := imports;
      r.dfImports := dfImports;
      r.outer := outer;
    }

    /** `render_field(xml, ctx)`: renders one field and stores the new state; a failure changes nothing. */
    method RenderField(n: Node, ctx: Ctx) returns (r: Result<string>)
      modifies this, base
      ensures Config() == old(Config()) && outer == old(outer)
      ensures var s := Field(old(Config()), old(State()), n, ctx);
        (r.Ok? <==> s.Ok?) && (r.Ok? ==> r.value == s.value.text && State() == s.value.st) && (r.Err? ==> r.msg == s.msg)
    {
      var s := Field(Config(), State(), n, ctx);
      if s.Err? {
        return Err(s.msg);
      }
      Store(s.value.st);
      return Ok(s.value.text);
    }

    /** The rule loop of `render_field_pointer`: it returns at the first rule for the type. */
    method PointerIndexRule(t: string) returns (v: Option<string>)
      ensures v == IndexRule(Config().rules.index, t)
    {
      var i := 0;
      while i < |base.exceptionsIndex|
        invariant 0 <= i <= |base.exceptionsIndex|
        invariant forall j :: 0 <= j < i ==> base.exceptionsIndex[j].0 != t
      {
        if base.exceptionsIndex[i].0 == t {
          IndexRuleFirst(base.exceptionsIndex, t, i);
          return Some(base.exceptionsIndex[i].1);
        }
        i := i + 1;
      }
      return None;
    }

    /** The rule loop of `render_field_container`: every matching rule overwrites the item, so the last one wins. */
    method ContainerIndexRule(t: string) returns (v: Option<string>)
      ensures v == LastIndexRule(Config().rules.index, t)
    {
      var index := base.exceptionsIndex;
      v := None;
      var i := 0;
      while i < |index|
        invariant 0 <= i <= |index|
        invariant v == LastIndexRule(index[..i], t)
      {
        LastIndexRulePrefix(index, t, i);
        if index[i].0 == t {
          v := Some(index[i].1);
        }
        i := i + 1;
      }
      assert index[..i] == index;
    }

    /** The head of `_convert_anon_*`: the name, the typedef name, and the copy with that name pushed. */
    method OpenScope(n: Node, name: string) returns (tname: string, rdr: CppRenderer)
      modifies base
      ensures fresh(rdr) && fresh(rdr.base)
      ensures Config() == old(Config()) && rdr.Config() == Config()
      ensures var scope := AnonScope(old(Config()), old(State()), n, name);
        tname == scope.0 && State() == scope.1 && rdr.State() == scope.2
    {
      var nm := name;
      if nm == "" {
        var df;
        nm, df := base.GetName(n);
      }
      var td := GetTypedefName(base.Settings(), base.Cache(), n, Some(nm));
      var a := td.1;
      tname := td.0;
      base.anonXml := a.last;
      base.anonId := a.count;
      rdr := Copy();
      rdr.outer := rdr.outer + [Some(tname)];
    }

    /**
     * `_convert_anon_compound(xml, name)`: the lambda head typed by the copy's
     * stack, then every field rendered by the copy; the copy's import sets are
     * the caller's.
     */
    method RenderAnonCompound(n: Node, name: string) returns (r: Result<string>)
      modifies this, base
      ensures Config() == old(Config())
      ensures var s := AnonCompound(old(Config()), old(State()), n, name);
        (r.Ok? <==> s.Ok?) && (r.Ok? ==> r.value == s.value.0 && State() == s.value.1)
    {
      ghost var cfg := Config();
      var tname, rdr := OpenScope(n, name);
      var ind := Ident(n, 0);
      if ind.Err? {
        return Err(ind.msg);
      }
      var op := OuterJoin(rdr.outer, "_");
      if op.Err? {
        return Err(op.msg);
      }
      var od := OuterJoin(rdr.outer, "::");
      if od.Err? {
        return Err(od.msg);
      }
      var body := rdr.RenderFields(n, LambdaHead(ind.value, tname, op.value, od.value));
      if body.Err? {
        return Err(body.msg);
      }
      imports := rdr.imports;
      dfImports := rdr.dfImports;
      return Ok(body.value + ind.value + "};\n");
    }

    /** `for item in xml.findall(field): out += self.render_field(item)`, on the nested copy. */
    method RenderFields(n: Node, out0: string) returns (r: Result<string>)
      modifies this, base
      ensures Config() == old(Config())
      ensures var s := AnonFields(old(Config()), old(State()), n, 0, out0);
        (r.Ok? <==> s.Ok?) && (r.Ok? ==> r.value == s.value.0 && State() == s.value.1)
    {
      ghost var cfg := Config();
      ghost var spec := AnonFields(cfg, State(), n, 0, out0);
      var items := Findall(n, "ld:field");
      var out := out0;
      var i := 0;
      while i < |items|
        invariant 0 <= i <= |items|
        invariant Config() == cfg
        invariant spec == AnonFields(cfg, State(), n, i, out)
      {
        var f := RenderField(items[i], DefaultCtx);
        if f.Err? {
          return Err(f.msg);
        }
        out := out + f.value;
        i := i + 1;
      }
      return Ok(out);
    }

    /**
     * `render_field_union(xml)`: the comment when no enum field was rendered,
     * else the switch with one case per arm, each arm named in order.
     */
    method RenderUnion(n: Node) returns (r: string)
      modifies base
      ensures Config() == old(Config())
      ensures Union(old(Config()), old(State()), n) == Ok(Out(r, State()))
    {
      var pb, df := GetName(n);
      if lastEnum.None? {
        var (td, a) := GetTypedefName(base.Settings(), base.Cache(), n, Some(pb));
        base.anonXml := a.last;
        base.anonId := a.count;
        return "/* failed to find a discriminator for union " + td + " */\n";
      }
      var e := lastEnum.value;
      var epb, edf := GetName(e);
      var t := Show(Get(e, "type-name"));
      var items := Findall(n, "ld:field");
      ghost var rules := Config().rules;
      ghost var cases := Cases(rules, base.Cache(), items, 0, t, df);
      var out := SwitchHead(edf);
      ghost var head := out;
      var i := 0;
      while i < |items|
        invariant 0 <= i <= |items|
        invariant Config() == old(Config()) && rules == Config().rules
        invariant out + Cases(rules, base.Cache(), items, i, t, df).0 == head + cases.0
        invariant Cases(rules, base.Cache(), items, i, t, df).1 == cases.1
      {
        out := RenderArm(rules, items, i, t, df, out);
        i := i + 1;
      }
      assert out + "" == out;
      r := out + SwitchEnd(pb);
    }

    /** One `case` of the union switch, naming the arm. */
    method RenderArm(ghost rules: Rules, items: seq<Node>, i: nat, t: string, df: string, out: string) returns (out': string)
      requires rules == Config().rules && i < |items|
      modifies base
      ensures Config() == old(Config())
      ensures out' + Cases(rules, base.Cache(), items, i + 1, t, df).0 == out + Cases(rules, old(base.Cache()), items, i, t, df).0
      ensures Cases(rules, base.Cache(), items, i + 1, t, df).1 == Cases(rules, old(base.Cache()), items, i, t, df).1
    {
      var ipb, idf := base.GetName(items[i]);
      Assoc(out, Arm(t, df, (ipb, idf)), Cases(rules, base.Cache(), items, i + 1, t, df).0);
      out' := out + Arm(t, df, (ipb, idf));
    }

    /** The field loop of `render_type_struct` with `_render_struct_field`: a comment-only field is dropped. */
    method RenderStructFields(items: seq<Node>, value0: int) returns (r: Result<Acc>)
      modifies this, base
      ensures Config() == old(Config()) && outer == old(outer)
      ensures var s := StructLoop(old(Config()), old(State()), items, 0, value0, "");
        r == s && (r.Ok? ==> State() == s.value.st)
      ensures r.Ok? ==> value0 <= r.value.value <= value0 + |items|
    {
      ghost var cfg := Config();
      ghost var spec := StructLoop(cfg, State(), items, 0, value0, "");
      var out := "";
      var value := value0;
      var i := 0;
      while i < |items|
        invariant 0 <= i <= |items|
        invariant Config() == cfg && outer == old(outer)
        invariant spec == StructLoop(cfg, State(), items, i, value, out)
        invariant value0 <= value <= value0 + i
      {
        var f := RenderStructField(cfg, items, i, value, out);
        if f.Err? {
          return Err(f.msg);
        }
        value, out := f.value.0, f.value.1;
        i := i + 1;
      }
      return Ok(Acc(out, State(), value));
    }

    /** `_render_struct_field`: one field; a comment-only one is dropped and takes an ordinal. */
    method RenderStructField(ghost cfg: Cfg, items: seq<Node>, i: nat, value: int, out: string) returns (r: Result<(int, string)>)
      requires cfg == Config() && i < |items|
      modifies this, base
      ensures Config() == cfg && outer == old(outer)
      ensures r.Ok? ==> value <= r.value.0 <= value + 1
      ensures r.Ok? ==> StructLoop(cfg, old(State()), items, i, value, out) == StructLoop(cfg, State(), items, i + 1, r.value.0, r.value.1)
      ensures r.Err? ==> StructLoop(cfg, old(State()), items, i, value, out) == Err(r.msg)
    {
      var f := RenderField(items[i], DefaultCtx);
      if f.Err? {
        return Err(f.msg);
      }
      if IsComment(f.value) {
        return Ok((value + 1, out));
      }
      return Ok((value, out + f.value));
    }

    /** The method loop of `render_type_struct` with `_render_class_method`: only getters are rendered and numbered. */
    method RenderMethods(ms: seq<Node>, value0: int) returns (r: Result<Acc>)
      modifies this, base
      ensures Config() == old(Config()) && outer == old(outer)
      ensures var s := MethodLoop(old(Config()), old(State()), ms, 0, value0, "");
        r == s && (r.Ok? ==> State() == s.value.st)
      ensures r.Ok? ==> value0 <= r.value.value <= value0 + |ms|
    {
      ghost var cfg := Config();
      ghost var spec := MethodLoop(cfg, State(), ms, 0, value0, "");
      var out := "";
      var value := value0;
      var k := 0;
      while k < |ms|
        invariant 0 <= k <= |ms|
        invariant Config() == cfg && outer == old(outer)
        invariant spec == MethodLoop(cfg, State(), ms, k, value, out)
        invariant value0 <= value <= value0 + k
      {
        var m := RenderClassMethod(cfg, ms, k, value, out);
        if m.Err? {
          return Err(m.msg);
        }
        value, out := m.value.0, m.value.1;
        k := k + 1;
      }
      return Ok(Acc(out, State(), value));
    }

    /** `_render_class_method`: a getter is rendered with the next ordinal; any other method adds nothing. */
    method RenderClassMethod(ghost cfg: Cfg, ms: seq<Node>, k: nat, value: int, out: string) returns (r: Result<(int, string)>)
      requires cfg == Config() && k < |ms|
      modifies this, base
      ensures Config() == cfg && outer == old(outer)
      ensures r.Ok? ==> value <= r.value.0 <= value + 1
      ensures r.Ok? ==> MethodLoop(cfg, old(State()), ms, k, value, out) == MethodLoop(cfg, State(), ms, k + 1, r.value.0, r.value.1)
      ensures r.Err? ==> MethodLoop(cfg, old(State()), ms, k, value, out) == Err(r.msg)
    {
      var pb, df := GetName(ms[k]);
      if !IsGetter(pb, ms[k]) {
        return Ok((value, out));
      }
      var f := RenderField(ms[k], DefaultCtx);
      if f.Err? {
        return Err(f.msg);
      }
      return Ok((value + 1, out + f.value));
    }

    /** `render_type_struct(xml)`: header, parent, fields, getters, footer. */
    method RenderTypeStruct(n: Node) returns (r: Result<string>)
      modifies this, base
      ensures Config() == old(Config()) && outer == old(outer)
      ensures var s := TypeStruct(old(Config()), old(State()), n);
        (r.Ok? <==> s.Ok?) && (r.Ok? ==> r.value == s.value.0 && State() == s.value.1)
    {
      var hi := Ident(n, 0);
      if hi.Err? {
        return Err(hi.msg);
      }
      var parent := Get(n, "inherits-from");
      var ptext := "";
      var value := 1;
      if Truthy(parent) {
        dfImports := dfImports + {parent};
        ptext := hi.value + "  describe_" + parent.value + "(proto->mutable_parent(), dfhack);\n";
        value := 2;
      }
      var f := RenderStructFields(Findall(n, "ld:field"), value);
      if f.Err? {
        return Err(f.msg);
      }
      var m := RenderMethods(VMethods(n), f.value.value);
      if m.Err? {
        return Err(m.msg);
      }
      return Ok(hi.value + Describe(Config(), Show(Get(n, "type-name"))) + ptext + f.value.text + m.value.text + "}\n");
    }

    /** `render_type(xml)`: the type name is pushed first, so it stays pushed whatever follows. */
    method RenderType(n: Node) returns (r: Result<string>)
      modifies this, base
      ensures Config() == old(Config())
      ensures outer == old(outer) + [Get(n, "type-name")]
      ensures var s := TypeDecl(old(Config()), old(State()), n);
        (r.Ok? <==> s.Ok?) && (r.Ok? ==> r.value == s.value.0 && State() == s.value.1)
    {
      outer := outer + [Get(n, "type-name")];
      match TypeKindOf(n)
      case BitfieldType =>
        r := TypeBitfield(Config(), n);
      case EnumType =>
        r := TypeEnum(Config(), n);
      case StructType =>
        r := RenderTypeStruct(n);
      case UnknownType =>
        r := Err("not supported");
    }
  }
}
