/**
 * The element tree the generators walk: one node per XML element of the
 * type description, with its tag, its attributes and its element children in
 * document order. `id` stands for the element's identity, which the source
 * compares with `is` and with lxml's identity-based `==`.
 *
 * Namespaced tags and attributes are written with the `ld:` prefix as plain
 * keys: `ld:meta`, `ld:field`, `ld:anon-name`, and so on.
 */
module Xml {
  import opened Base

  datatype Node = Node(id: nat, tag: string, attrs: map<string, string>, children: seq<Node>)

  /** lxml `xml.get(key)`. */
  function Get(n: Node, key: string): Option<string>
  {
    if key in n.attrs then Some(n.attrs[key]) else None
  }

  /** `int(xml.get('ld:level') or 1)`: the nesting level, 1 when unset; a non-integer raises `ValueError`. */
  function Level(n: Node): Result<int>
  {
    var l := Get(n, "ld:level");
    if !Truthy(l) then Ok(1)
    else match ParseInt(l.value)
      case Some(v) => Ok(v)
      case None => Err("ValueError")
  }

  /**
   * `found = xml.getroottree().xpath(rule); found and found[0] is xml`: an
   * XPath query is known by the element ids it selects, in document order.
   */
  predicate Selects(xpath: map<string, seq<nat>>, rule: string, n: Node)
  {
    rule in xpath && |xpath[rule]| > 0 && xpath[rule][0] == n.id
  }

  /** `len(xml)`: the number of element children. */
  function Len(n: Node): nat
  {
    |n.children|
  }

  function Size(n: Node): (r: nat)
    ensures r >= 1
  {
    1 + SizeOf(n.children)
  }

  function SizeOf(s: seq<Node>): nat
  {
    if |s| == 0 then 0 else Size(s[0]) + SizeOf(s[1..])
  }

  lemma {:induction false} SizeOfElement(s: seq<Node>, i: nat)
    requires i < |s|
    ensures Size(s[i]) <= SizeOf(s)
  {
    if i > 0 {
      SizeOfElement(s[1..], i - 1);
    }
  }

  /** Every child is strictly smaller than its parent. */
  lemma ChildSmaller(n: Node, i: nat)
    requires i < |n.children|
    ensures Size(n.children[i]) < Size(n)
  {
    SizeOfElement(n.children, i);
  }

  /**
   * `xml.findall(tag)`: the element children with that tag, in document
   * order. Every result is such a child; `FindallInOrder` adds that every
   * such child is a result, and in which order.
   */
  function Findall(n: Node, tag: string): (r: seq<Node>)
    ensures forall i :: 0 <= i < |r| ==> r[i].tag == tag && r[i] in n.children
  {
    FindallFrom(n, tag, 0)
  }

  function FindallFrom(n: Node, tag: string, from: nat): (r: seq<Node>)
    requires from <= |n.children|
    ensures forall i :: 0 <= i < |r| ==> r[i].tag == tag && r[i] in n.children
    decreases |n.children| - from
  {
    if from == |n.children| then []
    else
      var rest := FindallFrom(n, tag, from + 1);
      if n.children[from].tag == tag then [n.children[from]] + rest else rest
  }

  /**
   * `findall` keeps document order: its results are the children at a
   * strictly increasing run of positions, and those positions are exactly
   * the children that carry the tag.
   */
  lemma FindallInOrder(n: Node, tag: string) returns (idx: seq<nat>)
    ensures |idx| == |Findall(n, tag)|
    ensures forall j :: 0 <= j < |idx| ==> idx[j] < |n.children| && n.children[idx[j]] == Findall(n, tag)[j]
    ensures forall j, j' :: 0 <= j < j' < |idx| ==> idx[j] < idx[j']
    ensures forall k :: 0 <= k < |n.children| ==> (k in idx <==> n.children[k].tag == tag)
  {
    idx := FindallFromInOrder(n, tag, 0);
    assert PicksFrom(n.children, tag, 0, Findall(n, tag), idx);
  }

  /** The positions `idx` of `s` from `from` on pick out `r`, increasing, and are exactly the elements tagged `tag`. */
  ghost predicate PicksFrom(s: seq<Node>, tag: string, from: nat, r: seq<Node>, idx: seq<nat>)
  {
    |idx| == |r| &&
    (forall j :: 0 <= j < |idx| ==> from <= idx[j] < |s| && s[idx[j]] == r[j]) &&
    (forall j, j' :: 0 <= j < j' < |idx| ==> idx[j] < idx[j']) &&
    (forall k :: from <= k < |s| ==> (k in idx <==> s[k].tag == tag))
  }

  lemma {:induction false} FindallFromInOrder(n: Node, tag: string, from: nat) returns (idx: seq<nat>)
    requires from <= |n.children|
    ensures PicksFrom(n.children, tag, from, FindallFrom(n, tag, from), idx)
    decreases |n.children| - from
  {
    if from == |n.children| {
      idx := [];
    } else {
      var rest := FindallFromInOrder(n, tag, from + 1);
      if n.children[from].tag == tag {
        assert FindallFrom(n, tag, from) == [n.children[from]] + FindallFrom(n, tag, from + 1);
        idx := PicksKeep(n.children, tag, from, FindallFrom(n, tag, from + 1), rest);
      } else {
        assert FindallFrom(n, tag, from) == FindallFrom(n, tag, from + 1);
        idx := rest;
        PicksDrop(n.children, tag, from, FindallFrom(n, tag, from + 1), rest);
      }
    }
  }

  lemma PicksKeep(s: seq<Node>, tag: string, from: nat, r: seq<Node>, rest: seq<nat>) returns (idx: seq<nat>)
    requires from < |s| && s[from].tag == tag
    requires PicksFrom(s, tag, from + 1, r, rest)
    ensures PicksFrom(s, tag, from, [s[from]] + r, idx)
  {
    idx := [from] + rest;
    forall j | 1 <= j < |idx|
      ensures idx[j] == rest[j - 1] && ([s[from]] + r)[j] == r[j - 1]
    {
    }
    forall k | from <= k < |s|
      ensures k in idx <==> k == from || k in rest
    {
    }
  }

  lemma PicksDrop(s: seq<Node>, tag: string, from: nat, r: seq<Node>, idx: seq<nat>)
    requires from < |s| && s[from].tag != tag
    requires PicksFrom(s, tag, from + 1, r, idx)
    ensures PicksFrom(s, tag, from, r, idx)
  {
  }

  /** A child is strictly smaller than its parent. */
  lemma MemberSmaller(n: Node, c: Node)
    requires c in n.children
    ensures Size(c) < Size(n)
  {
    var j :| 0 <= j < |n.children| && n.children[j] == c;
    ChildSmaller(n, j);
  }

  lemma FindallSmaller(n: Node, tag: string, i: nat)
    requires i < |Findall(n, tag)|
    ensures Size(Findall(n, tag)[i]) < Size(n)
  {
    MemberSmaller(n, Findall(n, tag)[i]);
  }

  /** `xml.find(tag)`: the first element child with that tag (`FindFirst`), `None` when there is none (`FindNone`). */
  function Find(n: Node, tag: string): (r: Option<Node>)
    ensures r.Some? ==> r.value.tag == tag && r.value in n.children
  {
    var all := Findall(n, tag);
    if |all| == 0 then None else Some(all[0])
  }

  /** `find` comes back empty exactly when no child carries the tag. */
  lemma FindNone(n: Node, tag: string)
    ensures Find(n, tag).None? <==> forall k :: 0 <= k < |n.children| ==> n.children[k].tag != tag
  {
    var idx := FindallInOrder(n, tag);
  }

  /** What `find` returns is the child at the first position that carries the tag. */
  lemma FindFirst(n: Node, tag: string) returns (k: nat)
    requires Find(n, tag).Some?
    ensures k < |n.children| && n.children[k] == Find(n, tag).value && n.children[k].tag == tag
    ensures forall j :: 0 <= j < k ==> n.children[j].tag != tag
  {
    var idx := FindallInOrder(n, tag);
    k := idx[0];
    assert forall m :: 0 <= m < |idx| ==> k <= idx[m];
  }

  /** The node and all its descendants in document order: lxml `xml.iter()`. */
  function Iter(n: Node): (r: seq<Node>)
    ensures |r| == Size(n) && r[0] == n
    decreases Size(n), 0
  {
    [n] + IterAll(n.children)
  }

  function IterAll(s: seq<Node>): (r: seq<Node>)
    ensures |r| == SizeOf(s)
    decreases SizeOf(s), 1
  {
    if |s| == 0 then [] else Iter(s[0]) + IterAll(s[1..])
  }

  /** In the concatenated walks of `s`, the walk of `s[i]` sits right after those of the elements before it. */
  lemma {:induction false} IterAllAt(s: seq<Node>, i: nat)
    requires i < |s|
    ensures SizeOf(s[..i]) + Size(s[i]) <= |IterAll(s)|
    ensures IterAll(s)[SizeOf(s[..i])..SizeOf(s[..i]) + Size(s[i])] == Iter(s[i])
  {
    if i > 0 {
      IterAllAt(s[1..], i - 1);
      assert s[..i][1..] == s[1..][..i - 1];
      assert s[..i][0] == s[0];
    }
  }

  /**
   * `iter()` is the pre-order walk: the element itself, then the walk of
   * each child in document order, each one contiguous and starting right
   * after the subtrees of the children before it.
   */
  lemma IterPreorder(n: Node, i: nat)
    requires i < |n.children|
    ensures var a := 1 + SizeOf(n.children[..i]);
      a + Size(n.children[i]) <= |Iter(n)| && Iter(n)[a..a + Size(n.children[i])] == Iter(n.children[i])
  {
    IterAllAt(n.children, i);
  }

  /** The descendants of `n`, not `n` itself: the ElementPath descendant axis. */
  function Descendants(n: Node): seq<Node>
  {
    IterAll(n.children)
  }

  /** The node with attribute `key` set to `value`. */
  function SetAttr(n: Node, key: string, value: string): (r: Node)
    ensures r.id == n.id && r.tag == n.tag && r.children == n.children
    ensures r.attrs == n.attrs[key := value]
  {
    n.(attrs := n.attrs[key := value])
  }

  /**
   * The tree after `for e in xml.iter(): e.set('export', 'true')`: every
   * element keeps its identity, tag, other attributes and children, and says
   * `export="true"`.
   */
  function MarkExported(n: Node): (r: Node)
    ensures r.id == n.id && r.tag == n.tag && |r.children| == |n.children|
    ensures r.attrs == n.attrs["export" := "true"]
    ensures r.children == MarkAll(n.children)
    decreases n, 0
  {
    Node(n.id, n.tag, n.attrs["export" := "true"], MarkAll(n.children))
  }

  function MarkAll(s: seq<Node>): (r: seq<Node>)
    ensures |r| == |s|
    decreases s, 1
  {
    if |s| == 0 then [] else [MarkExported(s[0])] + MarkAll(s[1..])
  }

  /** Marking keeps the size of the tree. */
  lemma {:induction false} MarkExportedSize(n: Node)
    ensures Size(MarkExported(n)) == Size(n)
    decreases n, 0
  {
    MarkAllSize(n.children);
  }

  lemma {:induction false} MarkAllSize(s: seq<Node>)
    ensures SizeOf(MarkAll(s)) == SizeOf(s)
    decreases s, 1
  {
    if |s| > 0 {
      MarkExportedSize(s[0]);
      MarkAllSize(s[1..]);
      assert MarkAll(s)[1..] == MarkAll(s[1..]);
    }
  }

  lemma {:induction false} MarkAllAt(s: seq<Node>, i: nat)
    requires i < |s|
    ensures MarkAll(s)[i] == MarkExported(s[i])
  {
    if i > 0 {
      MarkAllAt(s[1..], i - 1);
    }
  }

  /** Marking reaches every descendant: each element of the marked tree says `export="true"`. */
  lemma {:induction false} MarkedEverywhere(n: Node)
    ensures forall e :: e in Iter(MarkExported(n)) ==> Get(e, "export") == Some("true")
    decreases Size(n), 0
  {
    MarkedEverywhereAll(n.children);
    assert Iter(MarkExported(n)) == [MarkExported(n)] + IterAll(MarkAll(n.children));
  }

  lemma {:induction false} MarkedEverywhereAll(s: seq<Node>)
    ensures forall e :: e in IterAll(MarkAll(s)) ==> Get(e, "export") == Some("true")
    decreases SizeOf(s), 1
  {
    if |s| > 0 {
      MarkedEverywhere(s[0]);
      MarkedEverywhereAll(s[1..]);
      assert MarkAll(s) == [MarkExported(s[0])] + MarkAll(s[1..]);
      assert MarkAll(s)[1..] == MarkAll(s[1..]);
      assert IterAll(MarkAll(s)) == Iter(MarkExported(s[0])) + IterAll(MarkAll(s[1..]));
    }
  }
}
