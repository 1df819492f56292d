/**
 * The attribute copy at the heart of `parse_node` in both generations of
 * merge.py: every attribute of the overlay element whose value differs from
 * the base element's is written into the base element, and the writes are
 * counted.
 */
module Attributes {
  /** An element's attribute dictionary. */
  type Attrs = map<string, string>

  /** Attribute `k` of `a2` is missing from `a` or has another value there. */
  predicate Differs(a: Attrs, a2: Attrs, k: string)
    requires k in a2
  {
    k !in a || a[k] != a2[k]
  }

  /** The keys whose value in `a2` differs from (or is missing in) `a`. */
  function Changed(a: Attrs, a2: Attrs): set<string>
  {
    set k | k in a2 && Differs(a, a2, k)
  }

  /**
   * How many of the keys in `done` differ, counted one key at a time as the
   * loop below does; `CountIsChanged` shows it is `|Changed(a, a2)|` once
   * every key is counted.
   */
  ghost function Count(a: Attrs, a2: Attrs, done: set<string>): nat
    requires done <= a2.Keys
    decreases done
  {
    if done == {} then 0
    else
      var k :| k in done;
      Count(a, a2, done - {k}) + (if Differs(a, a2, k) then 1 else 0)
  }

  /** The count does not depend on the order the keys are taken in. */
  lemma {:induction false} CountRemove(a: Attrs, a2: Attrs, done: set<string>, x: string)
    requires done <= a2.Keys && x in done
    ensures Count(a, a2, done) == Count(a, a2, done - {x}) + (if Differs(a, a2, x) then 1 else 0)
    decreases done
  {
    var k :| k in done && Count(a, a2, done) == Count(a, a2, done - {k}) + (if Differs(a, a2, k) then 1 else 0);
    if k != x {
      CountRemove(a, a2, done - {k}, x);
      CountRemove(a, a2, done - {x}, k);
      assert done - {k} - {x} == done - {x} - {k};
    }
  }

  /** Counting all of `done` counts exactly the keys of `done` that differ. */
  lemma {:induction false} CountIsChanged(a: Attrs, a2: Attrs, done: set<string>)
    requires done <= a2.Keys
    ensures Count(a, a2, done) == |set k | k in done && Differs(a, a2, k)|
    decreases done
  {
    if done != {} {
      var x :| x in done;
      CountRemove(a, a2, done, x);
      CountIsChanged(a, a2, done - {x});
      var rest := set k | k in done - {x} && Differs(a, a2, k);
      if Differs(a, a2, x) {
        assert (set k | k in done && Differs(a, a2, k)) == rest + {x};
      } else {
        assert (set k | k in done && Differs(a, a2, k)) == rest;
      }
    }
  }

  /**
   * The attribute loop of `parse_node` on one element's attribute
   * dictionary: every attribute of sub2 whose value differs is written, so
   * the element ends with `a + a2`; `num` counts those writes.
   */
  method CopyInto(a: Attrs, a2: Attrs) returns (attrib: Attrs, num: nat)
    ensures attrib == a + a2
    ensures num == Count(a, a2, a2.Keys)
  {
    attrib := a;
    var keys := a2.Keys;
    ghost var done: set<string> := {};
    num := 0;
    while keys != {}
      invariant done <= a2.Keys && keys == a2.Keys - done
      invariant attrib.Keys == a.Keys + done
      invariant forall x :: x in attrib ==> attrib[x] == if x in done then a2[x] else a[x]
      invariant num == Count(a, a2, done)
      decreases keys
    {
      var k :| k in keys;
      CountRemove(a, a2, done + {k}, k);
      assert done + {k} - {k} == done;
      if k !in attrib || attrib[k] != a2[k] {
        attrib := attrib[k := a2[k]];
        num := num + 1;
      }
      keys := keys - {k};
      done := done + {k};
    }
    assert done == a2.Keys;
    UnionByKeys(a, a2, attrib);
  }

  /** The number `CopyInto` reports is the number of attributes that change. */
  lemma CopyCountsChanges(a: Attrs, a2: Attrs)
    ensures Count(a, a2, a2.Keys) == |Changed(a, a2)|
  {
    CountIsChanged(a, a2, a2.Keys);
    assert (set k | k in a2.Keys && Differs(a, a2, k)) == Changed(a, a2);
  }

  lemma UnionByKeys(a: Attrs, a2: Attrs, m: Attrs)
    requires m.Keys == a.Keys + a2.Keys
    requires forall x :: x in m ==> m[x] == if x in a2 then a2[x] else a[x]
    ensures m == a + a2
  {
  }
}
