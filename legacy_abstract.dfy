/**
 * protogen.legacy/abstract_renderer.py: what the legacy protobuf and C++
 * renderers share. The name resolver with its anonymous-name cache and XPath
 * rename rules, the rule lists and switches, indentation and comments, the
 * export/ignore filter of `render_field_impl` and its meta-kind dispatch.
 *
 * Each XPath rule is known only through what it selects in the document:
 * `Rules.xpath[rule]` is the ordered sequence of element ids the rule matches.
 */
module LegacyAbstract {
  import opened Base
  import opened Xml

  /** The exception lists and switches of an `AbstractRenderer` (shared by `copy()`). */
  datatype Rules = Rules(
    rename: seq<(string, string)>,
    ignore: seq<string>,
    index: seq<(string, string)>,
    enums: seq<string>,
    ignoreNoExport: bool,
    commentIgnored: bool,
    xpath: map<string, seq<nat>>)

  /** `xml.getroottree().xpath(rule)`: the elements the rule selects, in document order. */
  function Found(rules: Rules, rule: string): seq<nat>
  {
    if rule in rules.xpath then rules.xpath[rule] else []
  }

  /** `found and found[0] is xml`. */
  predicate FirstMatch(rules: Rules, rule: string, n: Node)
  {
    Selects(rules.xpath, rule, n)
  }

  /** The anonymous-name cache: the last unnamed element named (`anon_xml`) and the counter (`anon_id`). */
  datatype Anon = Anon(last: Option<nat>, count: nat)

  const NoAnon: Anon := Anon(None, 0)

  /** The rename loop: every matching rule overwrites the protobuf name. */
  function RenameFrom(rules: Rules, n: Node, i: nat, pb: Option<string>): Option<string>
    requires i <= |rules.rename|
    decreases |rules.rename| - i
  {
    if i == |rules.rename| then pb
    else RenameFrom(rules, n, i + 1, if FirstMatch(rules, rules.rename[i].0, n) then Some(rules.rename[i].1) else pb)
  }

  /** `name`, else `ld:anon-name`, when either is set. */
  function NativeName(n: Node): Option<string>
  {
    if Truthy(Get(n, "name")) then Get(n, "name")
    else if Truthy(Get(n, "ld:anon-name")) then Get(n, "ld:anon-name")
    else None
  }

  /** The two names of an element and the cache after resolving it. */
  datatype Names = Names(pb: string, df: string, anon: Anon)

  /** `AbstractRenderer.get_name`: `(protobuf name, DFHack name)`. */
  function ResolveName(rules: Rules, anon: Anon, n: Node): (r: Names)
    ensures r.pb != "" && r.df != ""
  {
    var renamed := RenameFrom(rules, n, 0, None);
    var native := NativeName(n);
    var cache := if native.None? && anon.last != Some(n.id) then Anon(Some(n.id), anon.count + 1) else anon;
    var df := if native.Some? then native.value else "anon_" + IntToString(cache.count);
    var pb := if Truthy(renamed) then renamed.value else df;
    Names(if n.tag != "enum-item" then Lower(pb) else pb, df, cache)
  }

  lemma {:induction false} RenameNoMatch(rules: Rules, n: Node, i: nat, pb: Option<string>)
    requires i <= |rules.rename|
    requires forall k :: i <= k < |rules.rename| ==> !FirstMatch(rules, rules.rename[k].0, n)
    ensures RenameFrom(rules, n, i, pb) == pb
    decreases |rules.rename| - i
  {
    if i < |rules.rename| {
      RenameNoMatch(rules, n, i + 1, pb);
    }
  }

  lemma {:induction false} RenameLastMatch(rules: Rules, n: Node, i: nat, pb: Option<string>, j: nat)
    requires i <= j < |rules.rename| && FirstMatch(rules, rules.rename[j].0, n)
    requires forall k :: j < k < |rules.rename| ==> !FirstMatch(rules, rules.rename[k].0, n)
    ensures RenameFrom(rules, n, i, pb) == Some(rules.rename[j].1)
    decreases |rules.rename| - i
  {
    if i < j {
      RenameLastMatch(rules, n, i + 1, if FirstMatch(rules, rules.rename[i].0, n) then Some(rules.rename[i].1) else pb, j);
    } else {
      RenameNoMatch(rules, n, j + 1, Some(rules.rename[j].1));
    }
  }

  /**
   * All matching rename rules overwrite the protobuf name, so the last one
   * wins; a rule matches only when the element is its first XPath result.
   * Without a matching rule the protobuf name is the DFHack name.
   */
  lemma RenameLastWins(rules: Rules, anon: Anon, n: Node, j: nat)
    requires j < |rules.rename| && FirstMatch(rules, rules.rename[j].0, n) && rules.rename[j].1 != ""
    requires forall k :: j < k < |rules.rename| ==> !FirstMatch(rules, rules.rename[k].0, n)
    ensures var v := rules.rename[j].1;
      ResolveName(rules, anon, n).pb == if n.tag == "enum-item" then v else Lower(v)
  {
    RenameLastMatch(rules, n, 0, None, j);
  }

  lemma RenameNone(rules: Rules, anon: Anon, n: Node)
    requires forall k :: 0 <= k < |rules.rename| ==> !FirstMatch(rules, rules.rename[k].0, n)
    ensures var r := ResolveName(rules, anon, n);
      r.pb == if n.tag == "enum-item" then r.df else Lower(r.df)
  {
    RenameNoMatch(rules, n, 0, None);
  }

  /**
   * The DFHack name is `name`, else `ld:anon-name`, else `anon_<counter>`;
   * rename rules never change it nor the cache.
   */
  lemma DfName(rules: Rules, anon: Anon, n: Node, rename: seq<(string, string)>)
    ensures var r := ResolveName(rules, anon, n);
      r.df == (if Truthy(Get(n, "name")) then Get(n, "name").value
               else if Truthy(Get(n, "ld:anon-name")) then Get(n, "ld:anon-name").value
               else "anon_" + IntToString(r.anon.count))
    ensures ResolveName(rules.(rename := rename), anon, n).df == ResolveName(rules, anon, n).df
    ensures ResolveName(rules.(rename := rename), anon, n).anon == ResolveName(rules, anon, n).anon
  {
  }

  /** The counter moves by one exactly when an unnamed element differs from the cached one. */
  lemma AnonCounter(rules: Rules, anon: Anon, n: Node)
    ensures var r := ResolveName(rules, anon, n);
      r.anon.count == anon.count + (if NativeName(n).None? && anon.last != Some(n.id) then 1 else 0)
    ensures NativeName(n).Some? ==> ResolveName(rules, anon, n).anon == anon
    ensures NativeName(n).None? ==> ResolveName(rules, anon, n).anon.last == Some(n.id)
  {
  }

  /** Only one element is cached: resolving unnamed A, A, B, A gives anon_1, anon_1, anon_2, anon_3. */
  lemma OneElementCache(rules: Rules, a: Node, b: Node)
    requires NativeName(a).None? && NativeName(b).None? && a.id != b.id
    ensures var r1 := ResolveName(rules, NoAnon, a);
      var r2 := ResolveName(rules, r1.anon, a);
      var r3 := ResolveName(rules, r2.anon, b);
      var r4 := ResolveName(rules, r3.anon, a);
      r1.df == "anon_1" && r2.df == "anon_1" && r3.df == "anon_2" && r4.df == "anon_3"
  {
    var r1 := ResolveName(rules, NoAnon, a);
    assert r1.anon == Anon(Some(a.id), 1);
    var r3 := ResolveName(rules, r1.anon, b);
    assert r3.anon == Anon(Some(b.id), 2);
    assert ResolveName(rules, r3.anon, a).anon == Anon(Some(a.id), 3);
  }

  predicate HasUpper(s: string)
  {
    exists k :: 0 <= k < |s| && 'A' <= s[k] <= 'Z'
  }

  lemma {:induction false} LowerHasNoUpper(s: string)
    ensures !HasUpper(Lower(s))
  {
    if |s| > 0 {
      LowerHasNoUpper(s[1..]);
      assert forall k :: 1 <= k < |s| ==> Lower(s)[k] == Lower(s[1..])[k - 1];
    }
  }

  /** Protobuf names are lower case except for enum items; the DFHack name keeps its case. */
  lemma PbLowercase(rules: Rules, anon: Anon, n: Node)
    ensures n.tag != "enum-item" ==> !HasUpper(ResolveName(rules, anon, n).pb)
    ensures n.tag == "enum-item" && RenameFrom(rules, n, 0, None) == None ==>
      ResolveName(rules, anon, n).pb == ResolveName(rules, anon, n).df
  {
    var renamed := RenameFrom(rules, n, 0, None);
    var r := ResolveName(rules, anon, n);
    var pb := if Truthy(renamed) then renamed.value else r.df;
    LowerHasNoUpper(pb);
  }

  /** `get_type_name(xml, name)`: a name, and the cache after it (`get_name` runs only when needed). */
  function GetTypeName(rules: Rules, anon: Anon, n: Node, name: Option<string>): (string, Anon)
  {
    if Truthy(Get(n, "type-name")) then (Get(n, "type-name").value, anon)
    else if Truthy(name) then ("T_" + name.value, anon)
    else
      var r := ResolveName(rules, anon, n);
      ("T_" + r.pb, r.anon)
  }

  /** `get_typedef_name(xml, name)`. */
  function GetTypedefName(rules: Rules, anon: Anon, n: Node, name: Option<string>): (string, Anon)
  {
    if Truthy(Get(n, "ld:typedef-name")) then (Get(n, "ld:typedef-name").value, anon)
    else GetTypeName(rules, anon, n, name)
  }

  /** `ld:typedef-name`, else `type-name`, else `T_<name>`. */
  lemma TypedefNameChoice(rules: Rules, anon: Anon, n: Node, name: string)
    requires name != ""
    ensures GetTypedefName(rules, anon, n, Some(name)) ==
      (if Truthy(Get(n, "ld:typedef-name")) then Get(n, "ld:typedef-name").value
       else if Truthy(Get(n, "type-name")) then Get(n, "type-name").value
       else "T_" + name, anon)
  {
  }

  /** `ident(xml, extra_ident)`: two spaces per level plus `extra`. */
  function Ident(n: Node, extra: int): (r: Result<string>)
    ensures !Truthy(Get(n, "ld:level")) ==> r == Ok(Indent(1 + extra))
  {
    var l :- Level(n);
    Ok(Indent(l + extra))
  }

  /**
   * `append_comment(xml, line)`: the line, a space if it was not empty, the
   * comment as `/* ... */` when there is one, and a newline.
   */
  function AppendComment(n: Node, line: string): string
  {
    var l := if line != "" then line + " " else "";
    var c := Get(n, "comment");
    if Truthy(c) then l + "/* " + c.value + " */\n" else l + "\n"
  }

  /** The rendered line keeps the given text as its prefix and always ends the line. */
  lemma AppendCommentShape(n: Node, line: string)
    ensures var r := AppendComment(n, line);
      StartsWith(r, line) && EndsWith(r, "\n") &&
      (Truthy(Get(n, "comment")) <==> r != (if line == "" then "\n" else line + " \n"))
  {
    var l := if line != "" then line + " " else "";
    assert StartsWith(l, line);
    var c := Get(n, "comment");
    if Truthy(c) {
      var r := l + "/* " + c.value + " */\n";
      if line == "" {
        assert r[0] == '/';
      } else {
        assert |r| > |line + " \n"|;
      }
    }
  }

  /** `for k, v in exceptions_index: if k == tname: ...` with a return: the first index rule for a pointee type. */
  function IndexRule(index: seq<(string, string)>, t: string): (r: Option<string>)
    ensures r.Some? <==> exists k :: 0 <= k < |index| && index[k].0 == t
    ensures r.Some? ==> exists k :: (0 <= k < |index| && index[k] == (t, r.value) &&
      forall j :: 0 <= j < k ==> index[j].0 != t)
    decreases |index|
  {
    if |index| == 0 then None
    else if index[0].0 == t then Some(index[0].1)
    else
      var r := IndexRule(index[1..], t);
      if r.Some? then
        ghost var k :| 1 <= k + 1 < |index| && index[1..][k] == (t, r.value) && forall j :: 0 <= j < k ==> index[1..][j].0 != t;
        assert index[k + 1] == (t, r.value);
        r
      else
        assert forall k :: 1 <= k < |index| ==> index[k] == index[1..][k - 1];
        r
  }

  /** The outcome of the export filter of `render_field_impl`. */
  datatype Decision = Conversion | Ignored | Kept

  /** The ignore loop: the first rule whose matches contain the element stops the search. */
  function IgnoredByRule(rules: Rules, n: Node, i: nat): bool
    requires i <= |rules.ignore|
    decreases |rules.ignore| - i
  {
    if i == |rules.ignore| then false
    else if n.id in Found(rules, rules.ignore[i]) then true
    else IgnoredByRule(rules, n, i + 1)
  }

  function Decide(rules: Rules, n: Node): Decision
  {
    var name := Get(n, "name");
    var exp := Get(n, "export");
    if Truthy(Get(n, "export-as")) then Conversion
    else if exp == None && rules.ignoreNoExport then Ignored
    else if (Truthy(name) && StartsWith(name.value, "unk_")) || Is(exp, "false") then Ignored
    else if IgnoredByRule(rules, n, 0) then Ignored
    else Kept
  }

  lemma {:induction false} IgnoredByRuleExists(rules: Rules, n: Node, i: nat)
    requires i <= |rules.ignore|
    ensures IgnoredByRule(rules, n, i) <==> exists k :: i <= k < |rules.ignore| && n.id in Found(rules, rules.ignore[k])
    decreases |rules.ignore| - i
  {
    if i < |rules.ignore| {
      IgnoredByRuleExists(rules, n, i + 1);
    }
  }

  /**
   * The filter, in order: `export-as` bypasses every check; otherwise a field
   * is dropped when it has no `export` and `ignore_no_export` is set, when it
   * is named `unk_...` or says `export="false"`, or when some ignore rule
   * selects it; every other field is kept.
   */
  lemma DecisionOrder(rules: Rules, n: Node)
    ensures Decide(rules, n) == Conversion <==> Truthy(Get(n, "export-as"))
    ensures Decide(rules, n) == Ignored <==>
      !Truthy(Get(n, "export-as")) &&
      ((Get(n, "export") == None && rules.ignoreNoExport) ||
       (Truthy(Get(n, "name")) && StartsWith(Get(n, "name").value, "unk_")) ||
       Is(Get(n, "export"), "false") ||
       (exists k :: 0 <= k < |rules.ignore| && n.id in Found(rules, rules.ignore[k])))
  {
    IgnoredByRuleExists(rules, n, 0);
  }

  /** What an ignored field renders as: nothing, or one `/* ignored field ... */` line. */
  function IgnoredText(rules: Rules, n: Node): (r: Result<string>)
    ensures r.Ok? ==> r.value == "" || EndsWith(r.value, "/* ignored field " + Or(Get(n, "name"), "anon") + " */\n")
    ensures !rules.commentIgnored ==> r == Ok("")
  {
    if rules.commentIgnored then
      var ind :- Ident(n, 0);
      var tail := "/* ignored field " + Or(Get(n, "name"), "anon") + " */\n";
      assert (ind + tail)[|ind + tail| - |tail|..] == tail;
      Ok(ind + tail)
    else Ok("")
  }

  /** The meta-kind dispatch at the end of `render_field_impl`. */
  datatype FieldKind = MethodField | CompoundField | SimpleField | GlobalField | ContainerField | PointerField | UnknownField

  function KindOf(n: Node): FieldKind
  {
    MetaKind(Get(n, "ld:meta"), n.tag)
  }

  function MetaKind(meta: Option<string>, tag: string): FieldKind
  {
    if !Truthy(meta) && tag == "vmethod" then MethodField
    else if !Truthy(meta) || meta.value == "compound" then CompoundField
    else if meta.value == "primitive" || meta.value == "number" || meta.value == "bytes" then SimpleField
    else if meta.value == "global" then GlobalField
    else if meta.value == "container" || meta.value == "static-array" then ContainerField
    else if meta.value == "pointer" then PointerField
    else UnknownField
  }

  /** Marking an element exported does not change how it is dispatched. */
  lemma KindOfMarked(n: Node)
    ensures KindOf(MarkExported(n)) == KindOf(n)
  {
    assert "ld:meta"[0] != "export"[0];
    assert MarkExported(n).attrs == n.attrs["export" := "true"];
  }

  /** The dispatch of `render_type_impl`. */
  datatype TypeKind = BitfieldType | EnumType | StructType | UnknownType

  function TypeKindOf(n: Node): TypeKind
  {
    var meta := Get(n, "ld:meta");
    if Is(meta, "bitfield-type") then BitfieldType
    else if Is(meta, "enum-type") then EnumType
    else if Is(meta, "class-type") || Is(meta, "struct-type") then StructType
    else UnknownType
  }

  /**
   * The `vmethod` children of the first `virtual-methods` child only (a
   * second `virtual-methods` child is never looked at); none when there is
   * no such child.
   */
  function VMethods(n: Node): (r: seq<Node>)
    ensures forall i :: 0 <= i < |r| ==> r[i].tag == "vmethod"
    ensures Find(n, "virtual-methods").None? ==> r == []
  {
    match Find(n, "virtual-methods")
    case None => []
    case Some(m) => if Len(m) > 0 then Findall(m, "vmethod") else []
  }

  /** The methods are all the `vmethod` children of that first `virtual-methods` child, and only those, in document order. */
  lemma VMethodsOfFirstBlock(n: Node)
    requires Find(n, "virtual-methods").Some?
    ensures VMethods(n) == Findall(Find(n, "virtual-methods").value, "vmethod")
    ensures var m := Find(n, "virtual-methods").value;
      (forall i :: 0 <= i < |VMethods(n)| ==> VMethods(n)[i] in m.children) &&
      (forall k :: 0 <= k < |m.children| && m.children[k].tag == "vmethod" ==> m.children[k] in VMethods(n))
  {
    var m := Find(n, "virtual-methods").value;
    var idx := FindallInOrder(m, "vmethod");
  }

  /** Each method is a grandchild, so strictly smaller than the element. */
  lemma VMethodsSmaller(n: Node, i: nat)
    requires i < |VMethods(n)|
    ensures Size(VMethods(n)[i]) < Size(n)
  {
    var m := Find(n, "virtual-methods").value;
    MemberSmaller(n, m);
    MemberSmaller(m, VMethods(n)[i]);
  }

  /** `_render_class_method` renders (and numbers) a method only when it is a `get...` getter with a `ret-type`. */
  predicate IsGetter(pb: string, n: Node)
  {
    Truthy(Get(n, "ret-type")) && StartsWith(pb, "get")
  }

  /**
   * The state an `AbstractRenderer` carries: the anonymous-name cache, the
   * exception lists and the two switches. `xpath` is what the rules select in
   * the document being rendered.
   */
  class AbstractRenderer {
    var anonXml: Option<nat>
    var anonId: nat
    var exceptionsRename: seq<(string, string)>
    var exceptionsIgnore: seq<string>
    var exceptionsIndex: seq<(string, string)>
    var exceptionsEnum: seq<string>
    var ignoreNoExport: bool
    var commentIgnored: bool
    const xpath: map<string, seq<nat>>

    function Settings(): Rules
      reads this
    {
      Rules(exceptionsRename, exceptionsIgnore, exceptionsIndex, exceptionsEnum, ignoreNoExport, commentIgnored, xpath)
    }

    function Cache(): Anon
      reads this
    {
      Anon(anonXml, anonId)
    }

    constructor (xpath: map<string, seq<nat>>)
      ensures Settings() == Rules([], [], [], [], true, false, xpath)
      ensures Cache() == NoAnon
    {
      anonXml := None;
      anonId := 0;
      exceptionsRename := [];
      exceptionsIgnore := [];
      exceptionsIndex := [];
      exceptionsEnum := [];
      ignoreNoExport := true;
      commentIgnored := false;
      this.xpath := xpath;
    }

    method SetIgnoreNoExport(b: bool)
      modifies this
      ensures Settings() == old(Settings()).(ignoreNoExport := b) && Cache() == old(Cache())
    {
      ignoreNoExport := b;
    }

    method SetCommentIgnored(b: bool)
      modifies this
      ensures Settings() == old(Settings()).(commentIgnored := b) && Cache() == old(Cache())
    {
      commentIgnored := b;
    }

    method AddExceptionRename(rule: string, newName: string)
      modifies this
      ensures Settings() == old(Settings()).(rename := old(exceptionsRename) + [(rule, newName)])
      ensures Cache() == old(Cache())
    {
      exceptionsRename := exceptionsRename + [(rule, newName)];
    }

    method AddExceptionIgnore(rule: string)
      modifies this
      ensures Settings() == old(Settings()).(ignore := old(exceptionsIgnore) + [rule])
      ensures Cache() == old(Cache())
    {
      exceptionsIgnore := exceptionsIgnore + [rule];
    }

    method AddExceptionIndex(tname: string, field: string)
      modifies this
      ensures Settings() == old(Settings()).(index := old(exceptionsIndex) + [(tname, field)])
      ensures Cache() == old(Cache())
    {
      exceptionsIndex := exceptionsIndex + [(tname, field)];
    }

    method AddExceptionEnum(tname: string)
      modifies this
      ensures Settings() == old(Settings()).(enums := old(exceptionsEnum) + [tname])
      ensures Cache() == old(Cache())
    {
      exceptionsEnum := exceptionsEnum + [tname];
    }

    /** `get_name`: the rename loop, then the name fallbacks and the cache update. */
    method GetName(n: Node) returns (pb: string, df: string)
      modifies this
      ensures Settings() == old(Settings())
      ensures Names(pb, df, Cache()) == ResolveName(old(Settings()), old(Cache()), n)
    {
      var pbname: Option<string> := None;
      var i := 0;
      while i < |exceptionsRename|
        invariant 0 <= i <= |exceptionsRename|
        invariant RenameFrom(Settings(), n, 0, None) == RenameFrom(Settings(), n, i, pbname)
      {
        var (k, v) := exceptionsRename[i];
        var found := if k in xpath then xpath[k] else [];
        if |found| > 0 && found[0] == n.id {
          pbname := Some(v);
        }
        i := i + 1;
      }
      var name := NativeName(n);
      if name.None? {
        if anonXml != Some(n.id) {
          anonId := anonId + 1;
          anonXml := Some(n.id);
        }
        df := "anon_" + IntToString(anonId);
      } else {
        df := name.value;
      }
      pb := if Truthy(pbname) then pbname.value else df;
      if n.tag != "enum-item" {
        pb := Lower(pb);
      }
    }
  }
}
