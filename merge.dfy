/**
 * protogen/merge.py and protogen.legacy/merge.py: merging the attributes of
 * a second XML tree into a base tree, and (in protogen/merge.py only)
 * reading the line-oriented "export list" into such a second tree. The two
 * files' `cmp_nodes` and `parse_node` are the same text and are modelled
 * once.
 *
 * The base tree's shape (identities, tags, children) never changes during a
 * merge; only attributes are written, in place. So the shape is the value
 * `n1: Node` and the attributes live in a `Document`, a class whose `attrs`
 * field maps each element's identity to its current attributes, and which
 * `parse_node` updates as `sub1.attrib[attr] = ...` does. The second tree is
 * a value and is never modified.
 */
module Merge {
  import opened Base
  import opened Xml
  import opened Attributes


  /** Every element's current attributes, by identity. */
  type Store = map<nat, Attrs>

  /** The attributes of element `id`; an element not in the store has none. */
  function Lookup(s: Store, id: nat): Attrs
  {
    if id in s then s[id] else map[]
  }

  // ---- comparison ----

  /**
   * `cmp_nodes(node1, node2)`, node1 given by its tag and current
   * attributes: the tags are equal and no attribute of node2 conflicts with
   * a non-empty value of node1. An attribute node1 lacks or leaves empty
   * never conflicts, and attributes only node1 has are not looked at.
   */
  predicate Matches(tag1: string, a1: Attrs, n2: Node)
  {
    tag1 == n2.tag && forall k :: k in n2.attrs && k in a1 && a1[k] != "" ==> a1[k] == n2.attrs[k]
  }

  /** The attributes of `a` whose key is in `keys`. */
  function Restrict(a: Attrs, keys: set<string>): (r: Attrs)
    ensures r.Keys == a.Keys * keys
  {
    map k | k in a && k in keys :: a[k]
  }

  /** Only node1's attributes that node2 also has decide the comparison. */
  lemma OnlySharedKeysMatter(tag1: string, a1: Attrs, n2: Node)
    ensures Matches(tag1, a1, n2) == Matches(tag1, Restrict(a1, n2.attrs.Keys), n2)
  {
  }

  /**
   * Absent or empty attributes of node1 never block a match, although the
   * source's comment says all attributes of node2 must be present in node1.
   */
  lemma MissingAttributesMatch(tag1: string, a1: Attrs, n2: Node)
    requires tag1 == n2.tag
    requires forall k :: k in n2.attrs ==> k !in a1 || a1[k] == ""
    ensures Matches(tag1, a1, n2)
  {
  }

  /** After node2's attributes are copied into it, an element of the same tag matches node2 again. */
  lemma MergedMatches(a1: Attrs, n2: Node)
    ensures Matches(n2.tag, a1 + n2.attrs, n2)
  {
  }

  // ---- element identities ----

  /** The identities of an element and its descendants. */
  function Ids(n: Node): set<nat>
    decreases n, 0
  {
    {n.id} + IdsAll(n.children)
  }

  function IdsAll(s: seq<Node>): set<nat>
    decreases s, 1
  {
    if |s| == 0 then {} else Ids(s[0]) + IdsAll(s[1..])
  }

  /** No element occurs twice in the tree, as in any lxml tree. */
  predicate Unique(n: Node)
    decreases n, 0
  {
    n.id !in IdsAll(n.children) && UniqueAll(n.children)
  }

  predicate UniqueAll(s: seq<Node>)
    decreases s, 1
  {
    |s| > 0 ==> Unique(s[0]) && Ids(s[0]) !! IdsAll(s[1..]) && UniqueAll(s[1..])
  }

  lemma IdsAllSplit(s: seq<Node>, i: nat)
    requires i < |s|
    ensures IdsAll(s[i..]) == Ids(s[i]) + IdsAll(s[i + 1..])
  {
    assert s[i..][0] == s[i];
    assert s[i..][1..] == s[i + 1..];
  }

  lemma {:induction false} IdsAllHas(s: seq<Node>, i: nat)
    requires i < |s|
    ensures Ids(s[i]) <= IdsAll(s)
  {
    if i > 0 {
      IdsAllHas(s[1..], i - 1);
    }
  }

  lemma {:induction false} UniqueAt(s: seq<Node>, i: nat)
    requires UniqueAll(s) && i < |s|
    ensures Unique(s[i]) && Ids(s[i]) !! IdsAll(s[i + 1..])
  {
    if i > 0 {
      UniqueAt(s[1..], i - 1);
      assert s[1..][i - 1] == s[i];
      assert s[1..][i..] == s[i + 1..];
    }
  }

  // ---- the merge ----

  /** `parse_node(node1, node2)`: the store after merging node2's children into node1's. */
  function MergeNode(s: Store, n1: Node, n2: Node): Store
    decreases Size(n2), 2
  {
    MergeFrom(s, n1, n2, 0)
  }

  /** The outer loop from node2's child `j` on. */
  function MergeFrom(s: Store, n1: Node, n2: Node, j: nat): Store
    requires j <= |n2.children|
    decreases Size(n2), 1, |n2.children| - j
  {
    if j == |n2.children| then s
    else
      ChildSmaller(n2, j);
      MergeFrom(MergeArms(s, n1.children, n2.children[j], 0), n1, n2, j + 1)
  }

  /**
   * The inner loop from node1's child `i` on, for one child `sub2` of node2:
   * every child of node1 that matches it, not only the first, takes its
   * attributes and is merged with it in turn.
   */
  function MergeArms(s: Store, subs: seq<Node>, sub2: Node, i: nat): Store
    requires i <= |subs|
    decreases Size(sub2), 3, |subs| - i
  {
    if i == |subs| then s
    else
      var c := subs[i];
      var s1 := if Matches(c.tag, Lookup(s, c.id), sub2)
        then MergeNode(s[c.id := Lookup(s, c.id) + sub2.attrs], c, sub2)
        else s;
      MergeArms(s1, subs, sub2, i + 1)
  }

  /** `s'` differs from `s` only on the elements in `f`. */
  ghost predicate Agree(s: Store, s': Store, f: set<nat>)
  {
    forall id :: id !in f ==> Lookup(s', id) == Lookup(s, id)
  }

  /** A merge writes only the descendants of node1, never node1 itself or anything outside its tree. */
  lemma {:induction false} MergeNodeFrame(s: Store, n1: Node, n2: Node)
    ensures Agree(s, MergeNode(s, n1, n2), IdsAll(n1.children))
    decreases Size(n2), 2
  {
    MergeFromFrame(s, n1, n2, 0);
  }

  lemma {:induction false} MergeFromFrame(s: Store, n1: Node, n2: Node, j: nat)
    requires j <= |n2.children|
    ensures Agree(s, MergeFrom(s, n1, n2, j), IdsAll(n1.children))
    decreases Size(n2), 1, |n2.children| - j
  {
    if j < |n2.children| {
      ChildSmaller(n2, j);
      var s1 := MergeArms(s, n1.children, n2.children[j], 0);
      MergeArmsFrame(s, n1.children, n2.children[j], 0);
      assert n1.children[0..] == n1.children;
      MergeFromFrame(s1, n1, n2, j + 1);
    }
  }

  lemma {:induction false} MergeArmsFrame(s: Store, subs: seq<Node>, sub2: Node, i: nat)
    requires i <= |subs|
    ensures Agree(s, MergeArms(s, subs, sub2, i), IdsAll(subs[i..]))
    decreases Size(sub2), 3, |subs| - i
  {
    if i < |subs| {
      var c := subs[i];
      IdsAllSplit(subs, i);
      var s1 := if Matches(c.tag, Lookup(s, c.id), sub2)
        then MergeNode(s[c.id := Lookup(s, c.id) + sub2.attrs], c, sub2)
        else s;
      if Matches(c.tag, Lookup(s, c.id), sub2) {
        MergeNodeFrame(s[c.id := Lookup(s, c.id) + sub2.attrs], c, sub2);
      }
      assert Agree(s, s1, Ids(c));
      MergeArmsFrame(s1, subs, sub2, i + 1);
    }
  }

  /**
   * When the inner loop reaches child `i` of node1, that child ends up with
   * its attributes of that moment overwritten by all of sub2's when it
   * matches sub2 then, and unchanged when it does not: attributes sub2 lacks
   * survive, and neither its own merge nor its later siblings' touch it.
   */
  lemma ArmMerged(s: Store, subs: seq<Node>, sub2: Node, i: nat)
    requires UniqueAll(subs) && i < |subs|
    ensures var c := subs[i];
      Matches(c.tag, Lookup(s, c.id), sub2) ==>
        Lookup(MergeArms(s, subs, sub2, i), c.id) == Lookup(s, c.id) + sub2.attrs
    ensures var c := subs[i];
      !Matches(c.tag, Lookup(s, c.id), sub2) ==> Lookup(MergeArms(s, subs, sub2, i), c.id) == Lookup(s, c.id)
  {
    var c := subs[i];
    UniqueAt(subs, i);
    var s1 := if Matches(c.tag, Lookup(s, c.id), sub2)
      then MergeNode(s[c.id := Lookup(s, c.id) + sub2.attrs], c, sub2)
      else s;
    if Matches(c.tag, Lookup(s, c.id), sub2) {
      MergeNodeFrame(s[c.id := Lookup(s, c.id) + sub2.attrs], c, sub2);
    }
    MergeArmsFrame(s1, subs, sub2, i + 1);
  }

  /** The attribute keys of an element and its descendants. */
  function Keys(n: Node): set<string>
    decreases n, 0
  {
    n.attrs.Keys + KeysAll(n.children)
  }

  function KeysAll(s: seq<Node>): set<string>
    decreases s, 1
  {
    if |s| == 0 then {} else Keys(s[0]) + KeysAll(s[1..])
  }

  lemma {:induction false} KeysAllHas(s: seq<Node>, i: nat)
    requires i < |s|
    ensures Keys(s[i]) <= KeysAll(s)
  {
    if i > 0 {
      KeysAllHas(s[1..], i - 1);
    }
  }

  /** `s'` keeps every attribute of `s`, changing values only under the keys in `keys`. */
  ghost predicate Keeps(s: Store, s': Store, keys: set<string>)
  {
    forall id, k {:trigger k in Lookup(s, id)} :: k in Lookup(s, id) ==> k in Lookup(s', id) && (k !in keys ==> Lookup(s', id)[k] == Lookup(s, id)[k])
  }

  lemma KeepsTrans(s1: Store, s2: Store, s3: Store, k1: set<string>, k2: set<string>, keys: set<string>)
    requires Keeps(s1, s2, k1) && Keeps(s2, s3, k2) && k1 <= keys && k2 <= keys
    ensures Keeps(s1, s3, keys)
  {
    forall id, k | k in Lookup(s1, id)
      ensures k in Lookup(s3, id) && (k !in keys ==> Lookup(s3, id)[k] == Lookup(s1, id)[k])
    {
      assert k in Lookup(s2, id) && (k !in k1 ==> Lookup(s2, id)[k] == Lookup(s1, id)[k]);
      assert k in Lookup(s3, id) && (k !in k2 ==> Lookup(s3, id)[k] == Lookup(s2, id)[k]);
    }
  }

  /**
   * A merge removes no attribute, and an attribute whose key no element
   * below node2 carries keeps its value everywhere.
   */
  lemma {:induction false} MergeNodeKeeps(s: Store, n1: Node, n2: Node)
    ensures Keeps(s, MergeNode(s, n1, n2), KeysAll(n2.children))
    decreases Size(n2), 2
  {
    MergeFromKeeps(s, n1, n2, 0);
  }

  lemma {:induction false} MergeFromKeeps(s: Store, n1: Node, n2: Node, j: nat)
    requires j <= |n2.children|
    ensures Keeps(s, MergeFrom(s, n1, n2, j), KeysAll(n2.children))
    decreases Size(n2), 1, |n2.children| - j
  {
    if j < |n2.children| {
      ChildSmaller(n2, j);
      KeysAllHas(n2.children, j);
      var s1 := MergeArms(s, n1.children, n2.children[j], 0);
      MergeArmsKeeps(s, n1.children, n2.children[j], 0);
      MergeFromKeeps(s1, n1, n2, j + 1);
      KeepsTrans(s, s1, MergeFrom(s1, n1, n2, j + 1), Keys(n2.children[j]), KeysAll(n2.children), KeysAll(n2.children));
    }
  }

  lemma {:induction false} MergeArmsKeeps(s: Store, subs: seq<Node>, sub2: Node, i: nat)
    requires i <= |subs|
    ensures Keeps(s, MergeArms(s, subs, sub2, i), Keys(sub2))
    decreases Size(sub2), 3, |subs| - i
  {
    if i < |subs| {
      var c := subs[i];
      var s1 := if Matches(c.tag, Lookup(s, c.id), sub2)
        then MergeNode(s[c.id := Lookup(s, c.id) + sub2.attrs], c, sub2)
        else s;
      if Matches(c.tag, Lookup(s, c.id), sub2) {
        var s0 := s[c.id := Lookup(s, c.id) + sub2.attrs];
        assert Keeps(s, s0, Keys(sub2));
        MergeNodeKeeps(s0, c, sub2);
        KeepsTrans(s, s0, s1, Keys(sub2), KeysAll(sub2.children), Keys(sub2));
      }
      assert Keeps(s, s1, Keys(sub2));
      MergeArmsKeeps(s1, subs, sub2, i + 1);
      KeepsTrans(s, s1, MergeArms(s1, subs, sub2, i + 1), Keys(sub2), Keys(sub2), Keys(sub2));
    }
  }

  // ---- the document ----

  /** Every element's attributes, by identity, as parsed. */
  function AttrMap(n: Node): Store
    decreases n, 0
  {
    AttrMapAll(n.children)[n.id := n.attrs]
  }

  function AttrMapAll(s: seq<Node>): Store
    decreases s, 1
  {
    if |s| == 0 then map[] else AttrMapAll(s[1..]) + AttrMap(s[0])
  }

  lemma {:induction false} AttrMapKeys(n: Node)
    ensures AttrMap(n).Keys == Ids(n)
    decreases n, 0
  {
    AttrMapAllKeys(n.children);
  }

  lemma {:induction false} AttrMapAllKeys(s: seq<Node>)
    ensures AttrMapAll(s).Keys == IdsAll(s)
    decreases s, 1
  {
    if |s| > 0 {
      AttrMapKeys(s[0]);
      AttrMapAllKeys(s[1..]);
    }
  }

  /**
   * The base tree's attributes, which `parse_node` writes in place. The
   * tree's shape is the `Node` value passed alongside.
   */
  class Document {
    var attrs: Store

    /** The parsed base tree: each element has the attributes it was read with. */
    constructor (root: Node)
      ensures attrs == AttrMap(root) && attrs.Keys == Ids(root)
    {
      attrs := AttrMap(root);
      AttrMapKeys(root);
    }

    /** The attribute copy of `parse_node`, written into the element; `num` counts the values that changed. */
    method CopyAttributes(id: nat, a2: Attrs) returns (num: nat)
      requires id in attrs
      modifies this
      ensures attrs == old(attrs)[id := old(attrs[id]) + a2]
      ensures num == Count(old(attrs[id]), a2, a2.Keys)
    {
      var attrib;
      attrib, num := CopyInto(attrs[id], a2);
      attrs := attrs[id := attrib];
    }

    /** `parse_node(node1, node2)`: proved against `MergeNode`. */
    method ParseNode(n1: Node, n2: Node)
      requires IdsAll(n1.children) <= attrs.Keys
      modifies this
      ensures attrs == MergeNode(old(attrs), n1, n2)
      ensures attrs.Keys == old(attrs).Keys
      decreases Size(n2)
    {
      var j := 0;
      while j < |n2.children|
        invariant j <= |n2.children|
        invariant attrs.Keys == old(attrs).Keys
        invariant MergeNode(old(attrs), n1, n2) == MergeFrom(attrs, n1, n2, j)
      {
        var sub2 := n2.children[j];
        ChildSmaller(n2, j);
        var i := 0;
        while i < |n1.children|
          invariant i <= |n1.children|
          invariant attrs.Keys == old(attrs).Keys
          invariant MergeNode(old(attrs), n1, n2) == MergeFrom(MergeArms(attrs, n1.children, sub2, i), n1, n2, j + 1)
        {
          var sub1 := n1.children[i];
          IdsAllHas(n1.children, i);
          if Matches(sub1.tag, attrs[sub1.id], sub2) {
            var num := CopyAttributes(sub1.id, sub2.attrs);
            ParseNode(sub1, sub2);
          }
          i := i + 1;
        }
        j := j + 1;
      }
    }
  }

  // ---- the export list (protogen/merge.py only) ----

  /** The lines `readline()` yields: none is empty, since each holds at least its newline or is the last. */
  predicate LinesOk(lines: seq<string>)
  {
    forall i :: 0 <= i < |lines| ==> lines[i] != ""
  }

  /** An open text file, read a line at a time. */
  class LineReader {
    const lines: seq<string>
    var pos: nat

    predicate Valid()
      reads this
    {
      LinesOk(lines) && pos <= |lines|
    }

    constructor (lines: seq<string>)
      requires LinesOk(lines)
      ensures this.lines == lines && pos == 0 && Valid()
    {
      this.lines := lines;
      pos := 0;
    }

    /** `fd.readline()`: the next line, or the empty string at the end of the file. */
    method ReadLine() returns (line: string)
      requires Valid()
      modifies this
      ensures Valid()
      ensures old(pos) < |lines| ==> line == lines[old(pos)] && pos == old(pos) + 1
      ensures old(pos) == |lines| ==> line == "" && pos == old(pos)
    {
      if pos < |lines| {
        line := lines[pos];
        pos := pos + 1;
      } else {
        line := "";
      }
    }
  }

  /** The elements below `n` (not `n` itself) whose `key` is `value`, in document order: the descendant search with an `[@key="value"]` test. */
  function FindWith(n: Node, key: string, value: string): (r: seq<Node>)
    ensures forall i :: 0 <= i < |r| ==> Get(r[i], key) == Some(value) && r[i] in Descendants(n)
  {
    Filter(Descendants(n), key, value)
  }

  /** The elements of `s` whose `key` is `value`; `FilterInOrder` adds that all of them are kept, in order. */
  function Filter(s: seq<Node>, key: string, value: string): (r: seq<Node>)
    ensures forall i :: 0 <= i < |r| ==> Get(r[i], key) == Some(value) && r[i] in s
  {
    if |s| == 0 then []
    else if Get(s[0], key) == Some(value) then [s[0]] + Filter(s[1..], key, value)
    else Filter(s[1..], key, value)
  }

  /**
   * The attribute test keeps document order: the results are the elements
   * at a strictly increasing run of positions of `s`, and those positions
   * are exactly the elements that pass the test.
   */
  lemma FilterInOrder(s: seq<Node>, key: string, value: string) returns (idx: seq<nat>)
    ensures |idx| == |Filter(s, key, value)|
    ensures forall j :: 0 <= j < |idx| ==> idx[j] < |s| && s[idx[j]] == Filter(s, key, value)[j]
    ensures forall j, j' :: 0 <= j < j' < |idx| ==> idx[j] < idx[j']
    ensures forall k :: 0 <= k < |s| ==> (k in idx <==> Get(s[k], key) == Some(value))
  {
    assert s[0..] == s;
    idx := FilterFromInOrder(s, key, value, 0);
    assert SelectsFrom(s, key, value, 0, Filter(s, key, value), idx);
  }

  /** The positions `idx` of `s` from `from` on pick out `r`, increasing, and are exactly those that pass the test. */
  ghost predicate SelectsFrom(s: seq<Node>, key: string, value: string, from: nat, r: seq<Node>, idx: seq<nat>)
  {
    |idx| == |r| &&
    (forall j :: 0 <= j < |idx| ==> from <= idx[j] < |s| && s[idx[j]] == r[j]) &&
    (forall j, j' :: 0 <= j < j' < |idx| ==> idx[j] < idx[j']) &&
    (forall k :: from <= k < |s| ==> (k in idx <==> Get(s[k], key) == Some(value)))
  }

  lemma {:induction false} FilterFromInOrder(s: seq<Node>, key: string, value: string, from: nat) returns (idx: seq<nat>)
    requires from <= |s|
    ensures SelectsFrom(s, key, value, from, Filter(s[from..], key, value), idx)
    decreases |s| - from
  {
    if from == |s| {
      idx := [];
    } else {
      var rest := FilterFromInOrder(s, key, value, from + 1);
      assert s[from..][0] == s[from] && s[from..][1..] == s[from + 1..];
      if Get(s[from], key) == Some(value) {
        assert Filter(s[from..], key, value) == [s[from]] + Filter(s[from + 1..], key, value);
        idx := SelectsKeep(s, key, value, from, Filter(s[from + 1..], key, value), rest);
      } else {
        assert Filter(s[from..], key, value) == Filter(s[from + 1..], key, value);
        idx := rest;
        SelectsDrop(s, key, value, from, Filter(s[from + 1..], key, value), rest);
      }
    }
  }

  lemma SelectsKeep(s: seq<Node>, key: string, value: string, from: nat, r: seq<Node>, rest: seq<nat>) returns (idx: seq<nat>)
    requires from < |s| && Get(s[from], key) == Some(value)
    requires SelectsFrom(s, key, value, from + 1, r, rest)
    ensures SelectsFrom(s, key, value, from, [s[from]] + r, idx)
  {
    idx := [from] + rest;
    forall j | 1 <= j < |idx|
      ensures idx[j] == rest[j - 1] && ([s[from]] + r)[j] == r[j - 1]
    {
    }
    forall k | from <= k < |s|
      ensures k in idx <==> k == from || k in rest
    {
    }
  }

  lemma SelectsDrop(s: seq<Node>, key: string, value: string, from: nat, r: seq<Node>, idx: seq<nat>)
    requires from < |s| && Get(s[from], key) != Some(value)
    requires SelectsFrom(s, key, value, from + 1, r, idx)
    ensures SelectsFrom(s, key, value, from, r, idx)
  {
  }

  /** `FindWith` in document order: its results are the passing descendants at increasing positions of the walk. */
  lemma FindWithInOrder(n: Node, key: string, value: string) returns (idx: seq<nat>)
    ensures |idx| == |FindWith(n, key, value)|
    ensures forall j :: 0 <= j < |idx| ==> idx[j] < |Descendants(n)| && Descendants(n)[idx[j]] == FindWith(n, key, value)[j]
    ensures forall j, j' :: 0 <= j < j' < |idx| ==> idx[j] < idx[j']
    ensures forall k :: 0 <= k < |Descendants(n)| ==> (k in idx <==> Get(Descendants(n)[k], key) == Some(value))
  {
    idx := FilterInOrder(Descendants(n), key, value);
  }

  /** `./virtual-methods/vmethod[@name="m"]`: the named vmethods of the element's `virtual-methods` children. */
  function VMethods(n: Node, m: string): seq<Node>
  {
    VMethodsIn(Findall(n, "virtual-methods"), m)
  }

  function VMethodsIn(vms: seq<Node>, m: string): seq<Node>
  {
    if |vms| == 0 then [] else Filter(Findall(vms[0], "vmethod"), "name", m) + VMethodsIn(vms[1..], m)
  }

  /** `'get' + fname[0].upper() + fname[1:]`. */
  function Getter(f: string): (r: string)
    requires f != ""
    ensures StartsWith(r, "get") && |r| == |f| + 3
    ensures r[3] == UpperChar(f[0]) && r[4..] == f[1..]
  {
    var r := "get" + [UpperChar(f[0])] + f[1..];
    assert r[..3] == "get";
    r
  }

  /**
   * The attribute a field line sets on the element it names: `export` for
   * the line `f`, `export_as` for `f as T`, nothing for any other shape.
   */
  function Marking(tokens: seq<string>): Option<(string, string)>
  {
    if |tokens| == 1 then Some(("export", "true"))
    else if |tokens| == 3 && tokens[1] == "as" then Some(("export_as", tokens[2]))
    else None
  }

  function Mark(a: Attrs, m: Option<(string, string)>): Attrs
  {
    if m.Some? then a[m.value.0 := m.value.1] else a
  }

  /**
   * The element a field line adds to the type's element: the first element
   * named `f` below the type, as `<tag name=f/>`; failing that, the getter
   * vmethod `getF`, as a fresh `virtual-methods` element holding `<vmethod
   * name=getF/>`; nothing when neither exists. New elements are numbered 0:
   * the output tree's identities are never compared.
   */
  function Entry(n: Node, f: string, m: Option<(string, string)>): Option<Node>
    requires f != ""
  {
    var fields := FindWith(n, "name", f);
    if |fields| > 0 then Some(Node(0, fields[0].tag, Mark(map["name" := f], m), []))
    else if |VMethods(n, Getter(f))| > 0 then
      Some(Node(0, "virtual-methods", map[], [Node(0, "vmethod", Mark(map["name" := Getter(f)], m), [])]))
    else None
  }

  /** The type element a field line's element is appended to. */
  function Append(out: Node, e: Node): Node
  {
    out.(children := out.children + [e])
  }

  /**
   * One field line of `read_type`: a blank line and a name found nowhere
   * change nothing; otherwise the element is appended, and counted only
   * when the line is `f` or `f as T`.
   */
  function FieldStep(n: Node, line: string, out: Node, count: nat): (r: (Node, nat))
    ensures r.1 == count || r.1 == count + 1
    ensures r.1 == count + 1 <==> |Split(line)| > 0 && Marking(Split(line)).Some? && r.0 != out
  {
    var tokens := Split(line);
    if |tokens| == 0 then (out, count)
    else
      SplitTokens(line);
      var e := Entry(n, tokens[0], Marking(tokens));
      if e.None? then (out, count)
      else
        assert |Append(out, e.value).children| != |out.children|;
        (Append(out, e.value), if Marking(tokens).Some? then count + 1 else count)
  }

  /** The element `read_type` starts from: the type's tag, its name (`None` when it has none) and `export='true'`. */
  function Header(n: Node): Node
  {
    Node(0, n.tag, map["type-name" := Show(Get(n, "type-name")), "export" := "true"], [])
  }

  /**
   * The loop of `read_type`, line `p` just read: field lines start with a
   * tab; the first line without one ends the loop and is consumed. The
   * result is the type element, the count and the reader's position.
   */
  function ReadLoop(n: Node, lines: seq<string>, p: nat, out: Node, count: nat): (r: (Node, nat, nat))
    requires LinesOk(lines) && p <= |lines|
    ensures p <= r.2 <= |lines| && r.1 >= count
    ensures r.2 == |lines| || (p < r.2 && lines[r.2 - 1][0] != '\t')
    ensures forall k :: p <= k < r.2 - 1 ==> lines[k][0] == '\t'
    decreases |lines| - p
  {
    if p == |lines| then (out, count, p)
    else if lines[p][0] != '\t' then (out, count, p + 1)
    else
      var s := FieldStep(n, lines[p], out, count);
      ReadLoop(n, lines, p + 1, s.0, s.1)
  }

  /** `read_type(xml, fd)` from reader position `pos`. */
  function ReadType(n: Node, lines: seq<string>, pos: nat): (Node, nat, nat)
    requires LinesOk(lines) && pos <= |lines|
  {
    ReadLoop(n, lines, pos, Header(n), 0)
  }

  /** The root `t2x` builds. */
  const Root: Node := Node(0, "data-definition", map[], [])

  /**
   * The loop of `t2x`, line `p` just read: a line without a leading tab
   * whose first token is the `type-name` of an element below `xml` starts
   * that type, read by `read_type`; any other line is skipped.
   */
  function T2XLoop(xml: Node, lines: seq<string>, p: nat, out: Node): Node
    requires LinesOk(lines) && p <= |lines|
    decreases |lines| - p
  {
    if p == |lines| then out
    else
      var tokens := Split(lines[p]);
      if |tokens| > 0 && lines[p][0] != '\t' && |FindWith(xml, "type-name", tokens[0])| > 0 then
        var r := ReadType(FindWith(xml, "type-name", tokens[0])[0], lines, p + 1);
        T2XLoop(xml, lines, r.2, Append(out, r.0))
      else T2XLoop(xml, lines, p + 1, out)
  }

  /** `read_type(xml, fd)`: reads the type's field lines and the line that ends them. */
  method ReadTypeFrom(xml: Node, fd: LineReader) returns (out: Node, count: nat)
    requires fd.Valid()
    modifies fd
    ensures fd.Valid()
    ensures (out, count, fd.pos) == ReadType(xml, fd.lines, old(fd.pos))
  {
    ghost var lines := fd.lines;
    ghost var p := fd.pos;
    out := Header(xml);
    count := 0;
    var line := fd.ReadLine();
    while line != ""
      invariant fd.Valid() && p <= |lines|
      invariant p < |lines| ==> line == lines[p] && fd.pos == p + 1
      invariant p == |lines| ==> line == "" && fd.pos == p
      invariant ReadType(xml, lines, old(fd.pos)) == ReadLoop(xml, lines, p, out, count)
      decreases |lines| - p
    {
      if line[0] != '\t' {
        break;
      }
      ghost var step := FieldStep(xml, line, out, count);
      var tokens := Split(line);
      if |tokens| > 0 {
        SplitTokens(line);
        var elt := Entry(xml, tokens[0], Marking(tokens));
        if elt.Some? {
          out := Append(out, elt.value);
          if Marking(tokens).Some? {
            count := count + 1;
          }
        }
      }
      assert (out, count) == step;
      p := p + 1;
      line := fd.ReadLine();
    }
  }

  /** `t2x(fd, xml)`: the `data-definition` tree of the exported types. */
  method TextToXml(fd: LineReader, xml: Node) returns (out: Node)
    requires fd.Valid()
    modifies fd
    ensures fd.Valid()
    ensures out == T2XLoop(xml, fd.lines, old(fd.pos), Root)
  {
    ghost var lines := fd.lines;
    ghost var p := fd.pos;
    out := Root;
    var line := fd.ReadLine();
    while line != ""
      invariant fd.Valid() && fd.lines == lines && p <= |lines|
      invariant p < |lines| ==> line == lines[p] && fd.pos == p + 1
      invariant p == |lines| ==> line == "" && fd.pos == p
      invariant T2XLoop(xml, lines, old(fd.pos), Root) == T2XLoop(xml, lines, p, out)
      decreases |lines| - p
    {
      var tokens := Split(line);
      if |tokens| > 0 && line[0] != '\t' {
        var elts := FindWith(xml, "type-name", tokens[0]);
        if |elts| > 0 {
          var t, count := ReadTypeFrom(elts[0], fd);
          out := Append(out, t);
          p := fd.pos;
        } else {
          p := p + 1;
        }
      } else {
        p := p + 1;
      }
      line := fd.ReadLine();
    }
  }

  // ---- properties of the export list ----

  /** The line `f` naming a field marks that field exported; `f as T` gives it `export_as='T'`. */
  lemma ExportMarks(n: Node, line: string, out: Node, count: nat)
    requires |Split(line)| > 0 && |FindWith(n, "name", Split(line)[0])| > 0
    ensures var tokens := Split(line);
      var e := FieldStep(n, line, out, count).0.children[|out.children|];
      e.tag == FindWith(n, "name", tokens[0])[0].tag && e.attrs["name"] == tokens[0] &&
      (|tokens| == 1 ==> e.attrs == map["name" := tokens[0], "export" := "true"]) &&
      (|tokens| == 3 && tokens[1] == "as" ==> e.attrs == map["name" := tokens[0], "export_as" := tokens[2]])
  {
    SplitTokens(line);
  }

  /** A name with no field falls back to the getter vmethod, wrapped in a new `virtual-methods` element. */
  lemma GetterFallback(n: Node, line: string, out: Node, count: nat)
    requires |Split(line)| > 0 && |FindWith(n, "name", Split(line)[0])| == 0
    ensures Split(line)[0] != ""
    ensures var f := Split(line)[0];
      var r := FieldStep(n, line, out, count).0;
      (|VMethods(n, Getter(f))| > 0 ==>
        r.children == out.children + [Node(0, "virtual-methods", map[], [Node(0, "vmethod", Mark(map["name" := Getter(f)], Marking(Split(line))), [])])]) &&
      (|VMethods(n, Getter(f))| == 0 ==> r == out)
  {
    SplitTokens(line);
  }

  /**
   * `read_type` consumes the line that ends its block, so when the next
   * type's header directly follows the fields `t2x` never looks at it: the
   * loop goes on from the line after it.
   */
  lemma HeaderAfterBlockIsSkipped(xml: Node, lines: seq<string>, p: nat, out: Node)
    requires LinesOk(lines) && p < |lines|
    requires |Split(lines[p])| > 0 && lines[p][0] != '\t'
    requires |FindWith(xml, "type-name", Split(lines[p])[0])| > 0
    ensures var r := ReadType(FindWith(xml, "type-name", Split(lines[p])[0])[0], lines, p + 1);
      T2XLoop(xml, lines, p, out) == T2XLoop(xml, lines, r.2, Append(out, r.0)) &&
      (r.2 < |lines| ==> lines[r.2 - 1][0] != '\t')
  {
    var n := FindWith(xml, "type-name", Split(lines[p])[0])[0];
    var r := ReadLoop(n, lines, p + 1, Header(n), 0);
    assert ReadType(n, lines, p + 1) == r;
    assert T2XLoop(xml, lines, p, out) == T2XLoop(xml, lines, r.2, Append(out, r.0));
  }

  // ---- the malformed field line ----

  /**
   * One iteration of `read_type`'s loop as written, at line `p`: for a
   * field line naming an element but shaped neither `f` nor `f as T`, the
   * source reaches `continue` before reading another line, so the next
   * iteration is at the same line. The result is the type element, the
   * count and the line of the next iteration.
   */
  function StepAsWritten(n: Node, lines: seq<string>, p: nat, out: Node, count: nat): (r: (Node, nat, nat))
    requires LinesOk(lines) && p < |lines| && lines[p][0] == '\t'
  {
    var s := FieldStep(n, lines[p], out, count);
    var tokens := Split(lines[p]);
    if |tokens| > 0 && s.0 != out && Marking(tokens).None? then (s.0, s.1, p) else (s.0, s.1, p + 1)
  }

  /** `k` iterations of the loop as written. */
  function IterateAsWritten(n: Node, lines: seq<string>, p: nat, out: Node, count: nat, k: nat): (r: (Node, nat, nat))
    requires LinesOk(lines) && p < |lines| && lines[p][0] == '\t'
    decreases k
  {
    if k == 0 then (out, count, p)
    else
      var s := StepAsWritten(n, lines, p, out, count);
      if s.2 == p then IterateAsWritten(n, lines, p, s.0, s.1, k - 1) else s
  }

  /**
   * A tab line such as `\tf x`, where `f` names an element of the type, is
   * read again and again: after any number of iterations the loop is still
   * at that line, and every iteration appends another element to the type,
   * so `read_type` never returns.
   */
  lemma {:induction false} MalformedLineSpins(n: Node, lines: seq<string>, p: nat, out: Node, count: nat, k: nat)
    requires LinesOk(lines) && p < |lines| && lines[p][0] == '\t'
    requires |Split(lines[p])| > 0 && Marking(Split(lines[p])).None?
    requires |FindWith(n, "name", Split(lines[p])[0])| > 0
    ensures IterateAsWritten(n, lines, p, out, count, k).2 == p
    ensures |IterateAsWritten(n, lines, p, out, count, k).0.children| == |out.children| + k
    ensures IterateAsWritten(n, lines, p, out, count, k).1 == count
    decreases k
  {
    if k > 0 {
      SplitTokens(lines[p]);
      var s := FieldStep(n, lines[p], out, count);
      assert |s.0.children| == |out.children| + 1;
      MalformedLineSpins(n, lines, p, s.0, s.1, k - 1);
    }
  }

  /**
   * With the line read before the `continue`, as evidently intended, a
   * malformed line appends its element unmarked, is not counted, and the
   * loop goes on with the next line; this is what `ReadLoop` does.
   */
  lemma MalformedLineSkipped(n: Node, lines: seq<string>, p: nat, out: Node, count: nat)
    requires LinesOk(lines) && p < |lines| && lines[p][0] == '\t'
    requires |Split(lines[p])| > 0 && Marking(Split(lines[p])).None?
    requires |FindWith(n, "name", Split(lines[p])[0])| > 0
    ensures var f := Split(lines[p])[0];
      ReadLoop(n, lines, p, out, count) ==
        ReadLoop(n, lines, p + 1, Append(out, Node(0, FindWith(n, "name", f)[0].tag, map["name" := f], [])), count)
  {
    SplitTokens(lines[p]);
  }
}
