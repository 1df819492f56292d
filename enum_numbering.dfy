/**
 * How the protobuf renderers number the items of an enum. Both the legacy
 * renderer (protogen.legacy/proto_renderer.py) and the current one
 * (proto_renderer.py) run the same loop: a counter starting at 0; an item
 * with a negative explicit value is written after all the others; an item
 * whose explicit value is above the counter moves the counter up (writing a
 * `<prefix>ZERO = 0` line first when the counter was still 0); every other
 * item takes the counter, which then goes up by one.
 *
 * `vals[i]` is item i's explicit value: `None` when the `value` attribute is
 * absent or empty (`itemv` falsy), `Some(int(itemv))` otherwise.
 */
module EnumNumbering {
  import opened Base
  import opened Xml

  /** One emitted line: the synthetic `ZERO = 0` line, or item `index` with `value`. */
  datatype Slot = ZeroSlot | ItemSlot(index: nat, value: int)

  predicate IsNegative(v: Option<int>)
  {
    v.Some? && v.value < 0
  }

  predicate Jumps(v: Option<int>, counter: int)
  {
    v.Some? && v.value > counter
  }

  /**
   * The loop of `render_type_enum` / `render_enum_type`, with `main` the lines
   * written so far and `post` the deferred negative items.
   */
  function Scan(vals: seq<Option<int>>, i: nat, counter: int, main: seq<Slot>, post: seq<Slot>): seq<Slot>
    requires i <= |vals|
    decreases |vals| - i
  {
    if i == |vals| then main + post
    else if IsNegative(vals[i]) then
      Scan(vals, i + 1, counter, main, post + [ItemSlot(i, vals[i].value)])
    else
      var zero := if Jumps(vals[i], counter) && counter == 0 then [ZeroSlot] else [];
      var v := if Jumps(vals[i], counter) then vals[i].value else counter;
      Scan(vals, i + 1, v + 1, main + zero + [ItemSlot(i, v)], post)
  }

  /** The lines of an enum body, in output order. */
  function Layout(vals: seq<Option<int>>): seq<Slot>
  {
    Scan(vals, 0, 0, [], [])
  }

  /** Reference definition: the non-negative items from `i` on, numbered from `counter`. */
  function Primary(vals: seq<Option<int>>, i: nat, counter: int): seq<Slot>
    requires i <= |vals|
    decreases |vals| - i
  {
    if i == |vals| then []
    else if IsNegative(vals[i]) then Primary(vals, i + 1, counter)
    else if Jumps(vals[i], counter) then
      (if counter == 0 then [ZeroSlot] else []) + [ItemSlot(i, vals[i].value)] + Primary(vals, i + 1, vals[i].value + 1)
    else [ItemSlot(i, counter)] + Primary(vals, i + 1, counter + 1)
  }

  /** Reference definition: the negative items from `i` on, with their own values, in document order. */
  function Negatives(vals: seq<Option<int>>, i: nat): seq<Slot>
    requires i <= |vals|
    decreases |vals| - i
  {
    if i == |vals| then []
    else if IsNegative(vals[i]) then [ItemSlot(i, vals[i].value)] + Negatives(vals, i + 1)
    else Negatives(vals, i + 1)
  }

  lemma ScanNegStep(vals: seq<Option<int>>, i: nat, counter: int, main: seq<Slot>, post: seq<Slot>)
    requires i < |vals| && IsNegative(vals[i])
    ensures Scan(vals, i, counter, main, post) == Scan(vals, i + 1, counter, main, post + [ItemSlot(i, vals[i].value)])
  {
  }

  lemma ScanMainStep(vals: seq<Option<int>>, i: nat, counter: int, main: seq<Slot>, post: seq<Slot>, value1: int, zero: seq<Slot>)
    requires i < |vals| && !IsNegative(vals[i])
    requires value1 == if Jumps(vals[i], counter) then vals[i].value else counter
    requires zero == if Jumps(vals[i], counter) && counter == 0 then [ZeroSlot] else []
    ensures Scan(vals, i, counter, main, post) == Scan(vals, i + 1, value1 + 1, main + zero + [ItemSlot(i, value1)], post)
  {
  }

  lemma {:induction false} ScanSplits(vals: seq<Option<int>>, i: nat, counter: int, main: seq<Slot>, post: seq<Slot>)
    requires i <= |vals|
    ensures Scan(vals, i, counter, main, post) == main + Primary(vals, i, counter) + post + Negatives(vals, i)
    decreases |vals| - i, 1
  {
    if i == |vals| {
      assert main + [] + post + [] == main + post;
    } else if IsNegative(vals[i]) {
      ScanSplitsNeg(vals, i, counter, main, post);
    } else {
      ScanSplitsMain(vals, i, counter, main, post);
    }
  }

  lemma {:induction false} ScanSplitsNeg(vals: seq<Option<int>>, i: nat, counter: int, main: seq<Slot>, post: seq<Slot>)
    requires i < |vals| && IsNegative(vals[i])
    ensures Scan(vals, i, counter, main, post) == main + Primary(vals, i, counter) + post + Negatives(vals, i)
    decreases |vals| - i, 0
  {
    var x := ItemSlot(i, vals[i].value);
    ScanNegStep(vals, i, counter, main, post);
    ScanSplits(vals, i + 1, counter, main, post + [x]);
    var p, n := Primary(vals, i + 1, counter), Negatives(vals, i + 1);
    assert Primary(vals, i, counter) == p;
    assert Negatives(vals, i) == [x] + n;
    assert main + p + (post + [x]) + n == main + p + post + ([x] + n);
  }

  lemma {:induction false} ScanSplitsMain(vals: seq<Option<int>>, i: nat, counter: int, main: seq<Slot>, post: seq<Slot>)
    requires i < |vals| && !IsNegative(vals[i])
    ensures Scan(vals, i, counter, main, post) == main + Primary(vals, i, counter) + post + Negatives(vals, i)
    decreases |vals| - i, 0
  {
    var zero: seq<Slot> := if Jumps(vals[i], counter) && counter == 0 then [ZeroSlot] else [];
    var v := if Jumps(vals[i], counter) then vals[i].value else counter;
    var x := ItemSlot(i, v);
    ScanMainStep(vals, i, counter, main, post, v, zero);
    ScanSplits(vals, i + 1, v + 1, main + zero + [x], post);
    var p, n := Primary(vals, i + 1, v + 1), Negatives(vals, i + 1);
    assert Primary(vals, i, counter) == zero + [x] + p;
    assert Negatives(vals, i) == n;
    Assoc(main, zero + [x], p);
    Assoc(main, zero, [x]);
  }

  lemma Assoc(a: seq<Slot>, b: seq<Slot>, c: seq<Slot>)
    ensures a + (b + c) == a + b + c
  {
  }

  /** The non-negative items come first, then every negative item in document order. */
  lemma NegativesLast(vals: seq<Option<int>>)
    ensures Layout(vals) == Primary(vals, 0, 0) + Negatives(vals, 0)
  {
    ScanSplits(vals, 0, 0, [], []);
  }

  /** Items `from` up to `to`, numbered consecutively from `counter`. */
  function Counted(from: nat, to: nat, counter: int): (r: seq<Slot>)
    requires from <= to
    ensures |r| == to - from
    decreases (to as int) - (from as int)
  {
    if from == to then [] else [ItemSlot(from, counter)] + Counted(from + 1, to, counter + 1)
  }

  lemma {:induction false} CountedAt(from: nat, to: nat, counter: int)
    requires from <= to
    ensures forall k :: 0 <= k < to - from ==> Counted(from, to, counter)[k] == ItemSlot(from + k, counter + k)
    decreases (to as int) - (from as int)
  {
    if from < to {
      CountedAt(from + 1, to, counter + 1);
      assert forall k :: 1 <= k < to - from ==> Counted(from, to, counter)[k] == Counted(from + 1, to, counter + 1)[k - 1];
    }
  }

  lemma {:induction false} NoValuesCountUp(vals: seq<Option<int>>, i: nat, counter: int)
    requires i <= |vals|
    requires forall k :: i <= k < |vals| ==> vals[k] == None
    ensures Primary(vals, i, counter) == Counted(i, |vals|, counter)
    ensures Negatives(vals, i) == []
    decreases |vals| - i
  {
    if i < |vals| {
      NoValuesCountUp(vals, i + 1, counter + 1);
    }
  }

  /** With no explicit values, item k is numbered k and no ZERO line appears. */
  lemma NoExplicitValues(vals: seq<Option<int>>)
    requires forall k :: 0 <= k < |vals| ==> vals[k] == None
    ensures Layout(vals) == Counted(0, |vals|, 0)
    ensures forall k :: 0 <= k < |vals| ==> Layout(vals)[k] == ItemSlot(k, k)
  {
    NegativesLast(vals);
    NoValuesCountUp(vals, 0, 0);
    CountedAt(0, |vals|, 0);
  }

  /** No item from `i` on is non-negative. */
  predicate AllNegativeFrom(vals: seq<Option<int>>, i: nat)
    requires i <= |vals|
  {
    forall k :: i <= k < |vals| ==> IsNegative(vals[k])
  }

  /** The first non-negative item at or after `i`, when there is one. */
  function FirstPrimary(vals: seq<Option<int>>, i: nat): (r: nat)
    requires i <= |vals|
    ensures i <= r <= |vals|
    ensures forall k :: i <= k < r ==> IsNegative(vals[k])
    ensures r < |vals| ==> !IsNegative(vals[r])
    decreases |vals| - i
  {
    if i == |vals| || !IsNegative(vals[i]) then i else FirstPrimary(vals, i + 1)
  }

  lemma {:induction false} PrimaryFromPositive(vals: seq<Option<int>>, i: nat, counter: int)
    requires i <= |vals| && counter > 0
    ensures ZeroSlot !in Primary(vals, i, counter)
    decreases |vals| - i
  {
    if i < |vals| {
      if IsNegative(vals[i]) {
        PrimaryFromPositive(vals, i + 1, counter);
      } else if Jumps(vals[i], counter) {
        PrimaryFromPositive(vals, i + 1, vals[i].value + 1);
      } else {
        PrimaryFromPositive(vals, i + 1, counter + 1);
      }
    }
  }

  lemma {:induction false} PrimaryZero(vals: seq<Option<int>>, i: nat)
    requires i <= |vals|
    ensures ZeroSlot in Primary(vals, i, 0) <==>
      (FirstPrimary(vals, i) < |vals| && Jumps(vals[FirstPrimary(vals, i)], 0))
    ensures ZeroSlot in Primary(vals, i, 0) ==> Primary(vals, i, 0)[0] == ZeroSlot
    decreases |vals| - i
  {
    if i < |vals| {
      if IsNegative(vals[i]) {
        PrimaryZero(vals, i + 1);
      } else if Jumps(vals[i], 0) {
        PrimaryFromPositive(vals, i + 1, vals[i].value + 1);
      } else {
        PrimaryFromPositive(vals, i + 1, 1);
      }
    }
  }

  lemma {:induction false} NegativesHaveNoZero(vals: seq<Option<int>>, i: nat)
    requires i <= |vals|
    ensures ZeroSlot !in Negatives(vals, i)
    decreases |vals| - i
  {
    if i < |vals| {
      NegativesHaveNoZero(vals, i + 1);
    }
  }

  /**
   * The `ZERO = 0` line appears exactly when the first non-negative item has
   * an explicit value above 0, and then it is the first line of the body.
   */
  lemma ZeroLine(vals: seq<Option<int>>)
    ensures ZeroSlot in Layout(vals) <==>
      (FirstPrimary(vals, 0) < |vals| && Jumps(vals[FirstPrimary(vals, 0)], 0))
    ensures ZeroSlot in Layout(vals) ==> Layout(vals)[0] == ZeroSlot
  {
    NegativesLast(vals);
    PrimaryZero(vals, 0);
    NegativesHaveNoZero(vals, 0);
  }

  /** The values of the non-negative items from `i` are all at least `counter`, and strictly increase. */
  predicate Increasing(p: seq<Slot>, counter: int)
  {
    (forall a :: 0 <= a < |p| && p[a].ItemSlot? ==> p[a].value >= counter) &&
    (forall a, b :: 0 <= a < b < |p| && p[a].ItemSlot? && p[b].ItemSlot? ==> p[a].value < p[b].value)
  }

  lemma {:induction false} PrimaryIncreasing(vals: seq<Option<int>>, i: nat, counter: int)
    requires i <= |vals|
    ensures Increasing(Primary(vals, i, counter), counter)
    decreases |vals| - i
  {
    if i < |vals| {
      if IsNegative(vals[i]) {
        PrimaryIncreasing(vals, i + 1, counter);
      } else if Jumps(vals[i], counter) {
        PrimaryIncreasing(vals, i + 1, vals[i].value + 1);
      } else {
        PrimaryIncreasing(vals, i + 1, counter + 1);
      }
    }
  }

  lemma {:induction false} PrimaryRespectsExplicit(vals: seq<Option<int>>, i: nat, counter: int)
    requires i <= |vals|
    ensures forall a :: 0 <= a < |Primary(vals, i, counter)| && Primary(vals, i, counter)[a].ItemSlot? ==>
      var s := Primary(vals, i, counter)[a];
      i <= s.index < |vals| && !IsNegative(vals[s.index]) &&
      (vals[s.index].Some? ==> s.value >= vals[s.index].value)
    decreases |vals| - i
  {
    if i < |vals| {
      if IsNegative(vals[i]) {
        PrimaryRespectsExplicit(vals, i + 1, counter);
      } else if Jumps(vals[i], counter) {
        PrimaryRespectsExplicit(vals, i + 1, vals[i].value + 1);
      } else {
        PrimaryRespectsExplicit(vals, i + 1, counter + 1);
      }
    }
  }

  /**
   * The non-negative items get non-negative, strictly increasing numbers; an
   * item's number is never below its explicit value, so an explicit value at
   * or below the counter is overridden by the counter.
   */
  lemma NumbersIncrease(vals: seq<Option<int>>)
    ensures Increasing(Primary(vals, 0, 0), 0)
    ensures forall a :: 0 <= a < |Primary(vals, 0, 0)| && Primary(vals, 0, 0)[a].ItemSlot? ==>
      var s := Primary(vals, 0, 0)[a];
      s.index < |vals| && !IsNegative(vals[s.index]) &&
      (vals[s.index].Some? ==> s.value >= vals[s.index].value)
  {
    PrimaryIncreasing(vals, 0, 0);
    PrimaryRespectsExplicit(vals, 0, 0);
  }

  // ---- explicit values ----

  /** `int(itemv)` when `itemv` is set and not empty. */
  function ItemValue(item: Node): Result<Option<int>>
  {
    var v := Get(item, "value");
    if !Truthy(v) then Ok(None)
    else match ParseInt(v.value)
      case Some(x) => Ok(Some(x))
      case None => Err("ValueError")
  }

  function EnumValues(items: seq<Node>): (r: Result<seq<Option<int>>>)
    ensures r.Ok? ==> |r.value| == |items|
    ensures r.Err? ==> r.msg == "ValueError"
    ensures r.Ok? ==> forall k :: 0 <= k < |items| ==> ItemValue(items[k]) == Ok(r.value[k])
    decreases |items|
  {
    if |items| == 0 then Ok([])
    else
      var init :- EnumValues(items[..|items| - 1]);
      var last :- ItemValue(items[|items| - 1]);
      Ok(init + [last])
  }

  lemma {:induction false} EnumValuesFail(items: seq<Node>, k: nat)
    requires k < |items| && ItemValue(items[k]).Err?
    ensures EnumValues(items).Err?
    decreases |items|
  {
    if k < |items| - 1 {
      EnumValuesFail(items[..|items| - 1], k);
    }
  }

  lemma {:induction false} EnumValuesNone(items: seq<Node>)
    requires forall k :: 0 <= k < |items| ==> !Truthy(Get(items[k], "value"))
    ensures EnumValues(items).Ok? && |EnumValues(items).value| == |items|
    ensures forall k :: 0 <= k < |items| ==> EnumValues(items).value[k] == None
    decreases |items|
  {
    if |items| > 0 {
      var init := items[..|items| - 1];
      assert forall k :: 0 <= k < |init| ==> init[k] == items[k];
      EnumValuesNone(init);
      assert ItemValue(items[|items| - 1]) == Ok(None);
    }
  }

  /** When every item's value parses, `EnumValues` is those values. */
  lemma {:induction false} EnumValuesOk(items: seq<Node>)
    requires forall k :: 0 <= k < |items| ==> ItemValue(items[k]).Ok?
    ensures EnumValues(items).Ok?
    decreases |items|
  {
    if |items| > 0 {
      var init := items[..|items| - 1];
      assert forall k :: 0 <= k < |init| ==> init[k] == items[k];
      EnumValuesOk(init);
    }
  }

  /** Every item's value, with `None` for the ones that do not parse. */
  function Lenient(items: seq<Node>): (r: seq<Option<int>>)
    ensures |r| == |items|
    decreases |items|
  {
    if |items| == 0 then []
    else Lenient(items[..|items| - 1]) + [if ItemValue(items[|items| - 1]).Ok? then ItemValue(items[|items| - 1]).value else None]
  }

  lemma {:induction false} LenientAt(items: seq<Node>, i: nat)
    requires i < |items| && ItemValue(items[i]).Ok?
    ensures Lenient(items)[i] == ItemValue(items[i]).value
    decreases |items|
  {
    if i < |items| - 1 {
      LenientAt(items[..|items| - 1], i);
    }
  }

  lemma {:induction false} LenientIsValues(items: seq<Node>)
    requires forall k :: 0 <= k < |items| ==> ItemValue(items[k]).Ok?
    ensures EnumValues(items) == Ok(Lenient(items))
    decreases |items|
  {
    if |items| > 0 {
      var init := items[..|items| - 1];
      assert forall k :: 0 <= k < |init| ==> init[k] == items[k];
      LenientIsValues(init);
    }
  }

  // ---- deferred lines ----

  /** The deferred lines of the negative items, each after `lead`, in the order they were deferred. */
  function Joined(lead: string, lines: seq<string>): string
    decreases |lines|
  {
    if |lines| == 0 then "" else Joined(lead, lines[..|lines| - 1]) + (lead + lines[|lines| - 1])
  }

  /** `for line in postdecl: out += lead + line`. */
  method AppendLines(out0: string, lead: string, lines: seq<string>) returns (out: string)
    ensures out == out0 + Joined(lead, lines)
  {
    out := out0;
    var j := 0;
    while j < |lines|
      invariant 0 <= j <= |lines|
      invariant out == out0 + Joined(lead, lines[..j])
    {
      JoinedSnoc(lead, lines[..j], lines[j]);
      assert lines[..j + 1] == lines[..j] + [lines[j]];
      Assoc3(out0, Joined(lead, lines[..j]), lead + lines[j]);
      out := out + (lead + lines[j]);
      j := j + 1;
    }
    assert lines[..j] == lines;
  }

  lemma JoinedSnoc(lead: string, lines: seq<string>, line: string)
    ensures Joined(lead, lines + [line]) == Joined(lead, lines) + (lead + line)
  {
    assert (lines + [line])[..|lines|] == lines;
  }
}
