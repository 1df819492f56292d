/**
 * abstract_renderer.py: the base of the current generation's renderers. It
 * holds the rename exceptions and the anonymous-name cache, and it provides
 * the helpers every renderer of this generation repeats: indentation,
 * typedef names and comments.
 *
 * An XPath rename rule is known only through what it selects in the document
 * (`xpath[rule]`, the element ids in document order), as in the legacy
 * generation.
 */
module RootAbstract {
  import opened Base
  import opened Xml

  /** The namespace key: `{<ns>}`, unless the namespace already starts with a brace. */
  function NsKey(xmlNs: string): (r: string)
    ensures StartsWith(r, "{")
    ensures StartsWith(xmlNs, "{") ==> r == xmlNs
    ensures !StartsWith(xmlNs, "{") ==> r == "{" + xmlNs + "}"
  {
    if StartsWith(xmlNs, "{") then xmlNs else "{" + xmlNs + "}"
  }

  /** The index of the first rename rule that selects `n`, looking from rule `i` on. */
  function FirstRename(xpath: map<string, seq<nat>>, ex: seq<(string, string)>, n: Node, i: nat): (r: Option<nat>)
    requires i <= |ex|
    ensures r.Some? ==> i <= r.value < |ex| && Selects(xpath, ex[r.value].0, n)
    decreases |ex| - i
  {
    if i == |ex| then None
    else if Selects(xpath, ex[i].0, n) then Some(i)
    else FirstRename(xpath, ex, n, i + 1)
  }

  /** The anonymous-name cache: the last unnamed element named (`anon_xml`) and the counter (`anon_id`). */
  datatype Cache = Cache(last: Option<nat>, id: nat)

  /** `name`, else `ld:anon-name`, when either is set and not empty. */
  function NativeName(n: Node): Option<string>
  {
    if Truthy(Get(n, "name")) then Get(n, "name")
    else if Truthy(Get(n, "ld:anon-name")) then Get(n, "ld:anon-name")
    else None
  }

  /** What `get_name` returns, and the cache it leaves. */
  datatype Names = Names(pb: string, df: Option<string>, cache: Cache)

  /**
   * `get_name`: the first rename rule that selects the element gives the
   * protobuf name, returned with the element's raw `name`; otherwise both
   * names are the native name, or `anon_<counter>` with the counter moved on
   * when the element differs from the cached one.
   */
  function ResolveName(xpath: map<string, seq<nat>>, ex: seq<(string, string)>, cache: Cache, n: Node): Names
  {
    match FirstRename(xpath, ex, n, 0)
    case Some(j) => Names(ex[j].1, Get(n, "name"), cache)
    case None =>
      var native := NativeName(n);
      var c := if native.None? && cache.last != Some(n.id) then Cache(Some(n.id), cache.id + 1) else cache;
      var name := if native.Some? then native.value else "anon_" + IntToString(c.id);
      Names(name, Some(name), c)
  }

  lemma {:induction false} FirstRenameIs(xpath: map<string, seq<nat>>, ex: seq<(string, string)>, n: Node, i: nat, j: nat)
    requires i <= j < |ex| && Selects(xpath, ex[j].0, n)
    requires forall k :: i <= k < j ==> !Selects(xpath, ex[k].0, n)
    ensures FirstRename(xpath, ex, n, i) == Some(j)
    decreases j - i
  {
    if i < j {
      FirstRenameIs(xpath, ex, n, i + 1, j);
    }
  }

  lemma {:induction false} FirstRenameNone(xpath: map<string, seq<nat>>, ex: seq<(string, string)>, n: Node, i: nat)
    requires i <= |ex|
    requires forall k :: i <= k < |ex| ==> !Selects(xpath, ex[k].0, n)
    ensures FirstRename(xpath, ex, n, i) == None
    decreases |ex| - i
  {
    if i < |ex| {
      FirstRenameNone(xpath, ex, n, i + 1);
    }
  }

  /**
   * The first rule that selects the element wins, whatever later rules say:
   * its new name is the protobuf name, the DFHack name is the raw `name`
   * attribute (possibly absent) and the cache is untouched.
   */
  lemma FirstRuleWins(xpath: map<string, seq<nat>>, ex: seq<(string, string)>, cache: Cache, n: Node, j: nat)
    requires j < |ex| && Selects(xpath, ex[j].0, n)
    requires forall k :: 0 <= k < j ==> !Selects(xpath, ex[k].0, n)
    ensures ResolveName(xpath, ex, cache, n) == Names(ex[j].1, Get(n, "name"), cache)
  {
    FirstRenameIs(xpath, ex, n, 0, j);
  }

  /**
   * Without a matching rule both names are the same: `name`, else
   * `ld:anon-name`, else `anon_<counter>`.
   */
  lemma NoRuleSameNames(xpath: map<string, seq<nat>>, ex: seq<(string, string)>, cache: Cache, n: Node)
    requires forall k :: 0 <= k < |ex| ==> !Selects(xpath, ex[k].0, n)
    ensures var r := ResolveName(xpath, ex, cache, n);
      r.df == Some(r.pb) &&
      r.pb == (if Truthy(Get(n, "name")) then Get(n, "name").value
               else if Truthy(Get(n, "ld:anon-name")) then Get(n, "ld:anon-name").value
               else "anon_" + IntToString(r.cache.id))
  {
    FirstRenameNone(xpath, ex, n, 0);
  }

  /**
   * The counter moves by one exactly when an unnamed, unrenamed element
   * differs from the cached one; asking again for the same element gives the
   * same names and leaves the cache as it is.
   */
  lemma AnonCounter(xpath: map<string, seq<nat>>, ex: seq<(string, string)>, cache: Cache, n: Node)
    ensures var r := ResolveName(xpath, ex, cache, n);
      r.cache.id == cache.id +
        (if FirstRename(xpath, ex, n, 0).None? && NativeName(n).None? && cache.last != Some(n.id) then 1 else 0)
    ensures var r := ResolveName(xpath, ex, cache, n);
      ResolveName(xpath, ex, r.cache, n) == r
  {
  }

  /** Different counter values print differently. */
  lemma AnonNamesDiffer(a: nat, b: nat)
    requires a != b
    ensures "anon_" + IntToString(a) != "anon_" + IntToString(b)
  {
    var sa, sb := IntToString(a), IntToString(b);
    assert ("anon_" + sa)[5..] == sa;
    assert ("anon_" + sb)[5..] == sb;
    if sa == sb {
      ShowInjective(a, b);
    }
  }

  /**
   * Two different unnamed elements asked for one after the other get
   * different names: the second one moves the counter past the first's.
   */
  lemma DistinctAnonNames(xpath: map<string, seq<nat>>, ex: seq<(string, string)>, cache: Cache, n: Node, m: Node)
    requires n.id != m.id
    requires FirstRename(xpath, ex, n, 0).None? && NativeName(n).None?
    requires FirstRename(xpath, ex, m, 0).None? && NativeName(m).None?
    ensures var r1 := ResolveName(xpath, ex, cache, n);
      var r2 := ResolveName(xpath, ex, r1.cache, m);
      r1.pb != r2.pb
  {
    var r1 := ResolveName(xpath, ex, cache, n);
    AnonNamesDiffer(r1.cache.id, r1.cache.id + 1);
  }

  /** `get_typedef_name(xml, name)`: `ld:typedef-name`, else `T_<name>`. */
  function TypedefName(n: Node, name: string): (r: string)
    ensures Truthy(Get(n, "ld:typedef-name")) ==> r == Get(n, "ld:typedef-name").value
    ensures !Truthy(Get(n, "ld:typedef-name")) ==> StartsWith(r, "T_") && r[2..] == name
  {
    if Truthy(Get(n, "ld:typedef-name")) then Get(n, "ld:typedef-name").value else "T_" + name
  }

  /** `append_comment(xml, line)`: ` /* <comment> */` after the line when the element has a comment. */
  function AppendComment(n: Node, line: string): (r: string)
    ensures StartsWith(r, line)
    ensures r == line <==> !Truthy(Get(n, "comment"))
    ensures Truthy(Get(n, "comment")) ==> EndsWith(r, " */") && r[|line|..] == " /* " + Get(n, "comment").value + " */"
  {
    var c := Get(n, "comment");
    if Truthy(c) then
      var r := line + " /* " + c.value + " */";
      assert r[..|line|] == line;
      assert r[|line|..] == " /* " + c.value + " */";
      r
    else line
  }

  /** `ident(xml)`: two spaces per level, one level when `ld:level` is unset. */
  function Ident(n: Node): (r: Result<string>)
    ensures r.Ok? <==> Level(n).Ok?
    ensures r.Ok? ==> r.value == Indent(Level(n).value)
    ensures !Truthy(Get(n, "ld:level")) ==> r == Ok("  ")
  {
    var l :- Level(n);
    assert Indent(0) == "" && Indent(1) == "  " + Indent(0);
    assert "  " + "" == "  ";
    Ok(Indent(l))
  }

  /**
   * The name fallback of the protobuf and C++ renderers' `get_name`: the name
   * so far, else `ld:anon-name`, else `anon_<value>`, a negative ordinal being
   * written `m<-value>`.
   */
  function OrdinalName(name: Option<string>, n: Node, value: int): (r: string)
    ensures r != ""
    ensures Truthy(name) ==> r == name.value
  {
    if Truthy(name) then name.value
    else if Truthy(Get(n, "ld:anon-name")) then Get(n, "ld:anon-name").value
    else "anon_" + Ordinal(value)
  }

  /** `str(value)`, or `'m' + str(-value)` for a negative ordinal. */
  function Ordinal(value: int): string
  {
    if value < 0 then "m" + IntToString(-value) else IntToString(value)
  }

  /** `Ordinal` is one-to-one: the text gives the ordinal back. */
  lemma OrdinalInjective(a: int, b: int)
    requires Ordinal(a) == Ordinal(b)
    ensures a == b
  {
    if a < 0 && b < 0 {
      NegativeInjective(a, b);
    } else if a >= 0 && b >= 0 {
      ShowInjective(a, b);
    } else if a < 0 {
      FirstChars(a, b);
    } else {
      FirstChars(b, a);
    }
  }

  /** Two negative ordinals with the same text are equal. */
  lemma NegativeInjective(a: int, b: int)
    requires a < 0 && b < 0 && Ordinal(a) == Ordinal(b)
    ensures a == b
  {
    NegativeDigits(a);
    NegativeDigits(b);
    ShowInjective(-a, -b);
  }

  /** After its `m`, a negative ordinal is the digits of its absolute value. */
  lemma NegativeDigits(a: int)
    requires a < 0
    ensures Ordinal(a)[1..] == IntToString(-a)
  {
  }

  /** A negative ordinal starts with `m`, a non-negative one with a digit. */
  lemma FirstChars(a: int, b: int)
    requires a < 0 <= b
    ensures Ordinal(a) != Ordinal(b)
  {
    DigitsAreDigits(b);
    assert Ordinal(a)[0] == 'm';
    assert IsDigit(Ordinal(b)[0]);
  }

  /** Different ordinals never give the same anonymous name. */
  lemma OrdinalsDiffer(a: int, b: int)
    requires a != b
    ensures "anon_" + Ordinal(a) != "anon_" + Ordinal(b)
  {
    var sa, sb := Ordinal(a), Ordinal(b);
    assert ("anon_" + sa)[5..] == sa;
    assert ("anon_" + sb)[5..] == sb;
    if sa == sb {
      OrdinalInjective(a, b);
    }
  }

  /** An element with neither name is `anon_<ordinal>`: one name per ordinal, `anon_m<-value>` below zero. */
  lemma AnonymousName(name: Option<string>, n: Node, a: int, b: int)
    requires !Truthy(name) && !Truthy(Get(n, "ld:anon-name"))
    ensures OrdinalName(name, n, a) == "anon_" + Ordinal(a)
    ensures a != b ==> OrdinalName(name, n, a) != OrdinalName(name, n, b)
    ensures a < 0 ==> OrdinalName(name, n, a) == "anon_m" + IntToString(-a)
  {
    assert OrdinalName(name, n, a) == "anon_" + Ordinal(a);
    assert OrdinalName(name, n, b) == "anon_" + Ordinal(b);
    if a != b {
      OrdinalsDiffer(a, b);
    }
    if a < 0 {
      assert Ordinal(a) == "m" + IntToString(-a);
      Assoc3("anon_", "m", IntToString(-a));
    }
  }

  /**
   * The renderer object: the rename exceptions, which `add_exception_rename`
   * extends, and the anonymous-name cache, which `get_name` advances.
   */
  class AbstractRenderer {
    const ns: string
    const xpath: map<string, seq<nat>>
    var anonXml: Option<nat>
    var anonId: nat
    var exceptions: seq<(string, string)>

    function Cached(): Cache
      reads this
    {
      Cache(anonXml, anonId)
    }

    constructor (xmlNs: string, xpath: map<string, seq<nat>>)
      ensures ns == NsKey(xmlNs) && this.xpath == xpath
      ensures Cached() == Cache(None, 0) && exceptions == []
    {
      ns := NsKey(xmlNs);
      this.xpath := xpath;
      anonXml := None;
      anonId := 0;
      exceptions := [];
    }

    /** `add_exception_rename(path, new_name)`: the rule goes after the existing ones. */
    method AddExceptionRename(path: string, newName: string)
      modifies this
      ensures exceptions == old(exceptions) + [(path, newName)]
      ensures Cached() == old(Cached())
    {
      exceptions := exceptions + [(path, newName)];
    }

    /** `get_name(xml)`: the rule loop returns at the first rule that selects the element. */
    method GetName(n: Node) returns (pb: string, df: Option<string>)
      modifies this
      ensures exceptions == old(exceptions)
      ensures Names(pb, df, Cached()) == ResolveName(xpath, exceptions, old(Cached()), n)
    {
      var i := 0;
      while i < |exceptions|
        invariant 0 <= i <= |exceptions|
        invariant Cached() == old(Cached()) && exceptions == old(exceptions)
        invariant FirstRename(xpath, exceptions, n, 0) == FirstRename(xpath, exceptions, n, i)
      {
        if Selects(xpath, exceptions[i].0, n) {
          return exceptions[i].1, Get(n, "name");
        }
        i := i + 1;
      }
      var name := NativeName(n);
      if name.None? {
        if anonXml != Some(n.id) {
          anonId := anonId + 1;
          anonXml := Some(n.id);
        }
        name := Some("anon_" + IntToString(anonId));
      }
      return name.value, name;
    }
  }
}
