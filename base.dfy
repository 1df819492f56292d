/**
 * Values shared by every generation of the generator: Python's `None`,
 * exceptions as an error result, and the few string operations the renderers
 * use (`str(int)`, `'%x'`, `.lower()`, `.split()`, `.rstrip()`, `int(...)`).
 */
module Base {

  datatype Option<T> = None | Some(value: T)

  /** A raised Python exception becomes `Err`, carrying the exception's kind. */
  datatype Result<T> = Ok(value: T) | Err(msg: string)
  {
    predicate IsFailure() { Err? }

    function PropagateFailure<U>(): Result<U>
      requires Err?
    {
      Err(msg)
    }

    function Extract(): T
      requires Ok?
    {
      value
    }
  }

  /** Python truthiness of an optional string: present and not empty. */
  predicate Truthy(o: Option<string>)
  {
    o.Some? && o.value != ""
  }

  /** Python `a or b` for an optional string and a fallback. */
  function Or(o: Option<string>, fallback: string): string
  {
    if Truthy(o) then o.value else fallback
  }

  /** `'%s' % x` of an optional string: `None` prints as `None`. */
  function Show(o: Option<string>): string
  {
    if o.Some? then o.value else "None"
  }

  /** Equality of an optional string with a literal, as Python's `==`. */
  predicate Is(o: Option<string>, s: string)
  {
    o == Some(s)
  }

  function DigitChar(d: nat): char
    requires d < 16
  {
    "0123456789abcdef"[d]
  }

  /** Digits of `n` in base `b` (decimal `str(n)`, or `'%x' % n`). */
  function NatDigits(n: nat, b: nat): (r: string)
    requires 2 <= b <= 16
    ensures |r| > 0
    decreases n
  {
    if n < b then [DigitChar(n)] else NatDigits(n / b, b) + [DigitChar(n % b)]
  }

  /** Python `str(i)` for an integer. */
  function IntToString(i: int): string
  {
    if i < 0 then "-" + NatDigits(-i, 10) else NatDigits(i, 10)
  }

  /** Python `'%x' % n`. */
  function Hex(n: nat): string
  {
    NatDigits(n, 16)
  }

  predicate IsDigit(c: char)
  {
    '0' <= c <= '9'
  }

  /** The value of a run of decimal digits; an underscore between digits is skipped. */
  function DigitsValue(s: string): int
  {
    if |s| == 0 then 0
    else if s[|s| - 1] == '_' then DigitsValue(s[..|s| - 1])
    else 10 * DigitsValue(s[..|s| - 1]) + (s[|s| - 1] as int - '0' as int)
  }

  /**
   * The digits of a decimal literal as Python reads them: at least one
   * digit, starting with a digit, and every underscore followed by a digit
   * (`1_000`, not `_1`, `1_` or `1__0`).
   */
  predicate Grouped(s: string)
  {
    |s| > 0 && IsDigit(s[0]) && GroupedTail(s[1..])
  }

  /** What may follow the first digit: digits, each underscore followed by a digit. */
  predicate GroupedTail(s: string)
    decreases |s|
  {
    |s| == 0 ||
    (IsDigit(s[0]) && GroupedTail(s[1..])) ||
    (|s| >= 2 && s[0] == '_' && IsDigit(s[1]) && GroupedTail(s[2..]))
  }

  /** A non-empty run of plain digits is a grouped literal. */
  lemma DigitsGrouped(d: string)
    requires |d| > 0 && forall k :: 0 <= k < |d| ==> IsDigit(d[k])
    ensures Grouped(d)
  {
    DigitsGroupedTail(d[1..]);
  }

  lemma {:induction false} DigitsGroupedTail(d: string)
    requires forall k :: 0 <= k < |d| ==> IsDigit(d[k])
    ensures GroupedTail(d)
    decreases |d|
  {
    if |d| > 0 {
      DigitsGroupedTail(d[1..]);
    }
  }

  /** Python `s.strip()`: no leading or trailing whitespace. */
  function Strip(s: string): string
  {
    RStrip(LStrip(s))
  }

  /**
   * Python `int(s)` on a string: surrounding whitespace is ignored, then an
   * optional sign and ASCII decimal digits, single underscores allowed
   * between them. Anything else raises `ValueError`, here `None`; the
   * non-ASCII decimal digits Python also accepts are refused here.
   */
  function ParseInt(s: string): (r: Option<int>)
  {
    var t := Strip(s);
    if |t| > 0 && (t[0] == '-' || t[0] == '+') then
      var body := t[1..];
      if Grouped(body) then Some(if t[0] == '-' then -DigitsValue(body) else DigitsValue(body)) else None
    else if Grouped(t) then Some(DigitsValue(t))
    else None
  }

  /** `int()` ignores surrounding whitespace, as Python's does. */
  lemma ParseIntStrips()
    ensures ParseInt(" 3") == Some(3) && ParseInt("-7\n") == Some(-7)
  {
    assert LStrip(" 3") == LStrip("3") == "3";
    assert RStrip("3") == "3";
    assert LStrip("-7\n") == "-7\n";
    assert RStrip("-7\n") == RStrip("-7") == "-7";
    assert "-7"[1..] == "7";
    assert Grouped("7") && Grouped("3");
  }

  /** `int()` skips an underscore between digits, as Python's does. */
  lemma ParseIntSeparators()
    ensures ParseInt("1_0") == Some(10)
  {
    var s := "1_0";
    assert LStrip(s) == s && RStrip(s) == s;
    assert Grouped(s);
    assert s[..2] == "1_" && "1_"[..1] == "1";
    assert DigitsValue("1") == 1;
    assert DigitsValue("1_") == 1;
  }

  /** An empty string, a leading or doubled underscore and a sign apart from its digits raise `ValueError`. */
  lemma ParseIntRefuses()
    ensures ParseInt("") == None && ParseInt("_1") == None && ParseInt("1__0") == None && ParseInt("- 3") == None
  {
    assert LStrip("_1") == "_1" && RStrip("_1") == "_1";
    assert LStrip("1__0") == "1__0" && RStrip("1__0") == "1__0";
    assert !Grouped("1__0") by { assert "1__0"[1] == '_' && "1__0"[2] == '_'; }
    assert LStrip("- 3") == "- 3" && RStrip("- 3") == "- 3";
    assert "- 3"[1..] == " 3";
  }

  lemma {:induction false} DigitsAreDigits(n: nat)
    ensures forall k :: 0 <= k < |NatDigits(n, 10)| ==> IsDigit(NatDigits(n, 10)[k])
    ensures DigitsValue(NatDigits(n, 10)) == n
    decreases n
  {
    if n >= 10 {
      DigitsAreDigits(n / 10);
      var s := NatDigits(n, 10);
      assert s[..|s| - 1] == NatDigits(n / 10, 10);
    }
  }

  /** `int(str(i)) == i`: printing an enum or field number and reading it back agree. */
  lemma ParseShowRoundTrip(i: int)
    ensures ParseInt(IntToString(i)) == Some(i)
  {
    var s := IntToString(i);
    var d := NatDigits(if i < 0 then -i else i, 10);
    DigitsAreDigits(if i < 0 then -i else i);
    DigitsGrouped(d);
    assert s[|s| - 1] == d[|d| - 1];
    StripNoSpace(s);
    if i < 0 {
      assert s[1..] == d;
      ParseSigned(s);
    } else {
      ParseUnsigned(s);
    }
  }

  /** A stripped run of grouped digits reads as its value. */
  lemma ParseUnsigned(t: string)
    requires Grouped(t) && Strip(t) == t
    ensures ParseInt(t) == Some(DigitsValue(t))
  {
  }

  /** A stripped minus sign and a run of grouped digits read as the negated value. */
  lemma ParseSigned(t: string)
    requires |t| > 0 && t[0] == '-' && Grouped(t[1..]) && Strip(t) == t
    ensures ParseInt(t) == Some(-DigitsValue(t[1..]))
  {
  }

  /** Different integers print differently. */
  lemma ShowInjective(i: int, j: int)
    requires IntToString(i) == IntToString(j)
    ensures i == j
  {
    ParseShowRoundTrip(i);
    ParseShowRoundTrip(j);
  }

  /** A string that neither starts nor ends with whitespace is its own `strip()`. */
  lemma StripNoSpace(s: string)
    requires |s| > 0 && !IsSpace(s[0]) && !IsSpace(s[|s| - 1])
    ensures Strip(s) == s
  {
    assert LStrip(s) == s;
  }

  /** ASCII `str.lower()`. */
  function Lower(s: string): (r: string)
    ensures |r| == |s|
  {
    if |s| == 0 then ""
    else [if 'A' <= s[0] <= 'Z' then (s[0] as int + 32) as char else s[0]] + Lower(s[1..])
  }

  /** ASCII `str.upper()` of one character. */
  function UpperChar(c: char): char
  {
    if 'a' <= c <= 'z' then (c as int - 32) as char else c
  }

  predicate StartsWith(s: string, p: string)
  {
    |p| <= |s| && s[..|p|] == p
  }

  predicate EndsWith(s: string, p: string)
  {
    |p| <= |s| && s[|s| - |p|..] == p
  }

  /**
   * Python's `str.isspace` on one character: the ASCII controls tab to
   * carriage return and the four separators `\x1c`..`\x1f`, space, and the
   * Unicode separators `\x85`, no-break space, the ogham, en-quad to
   * hair spaces, line and paragraph separators, narrow no-break, medium
   * mathematical and ideographic spaces.
   */
  predicate IsSpace(c: char)
  {
    if c <= ' ' then '\t' <= c <= '\r' || '\U{1c}' <= c else WideSpace(c)
  }

  /** The whitespace characters above the ASCII space. */
  predicate WideSpace(c: char)
  {
    c in {'\U{85}', '\U{a0}', '\U{1680}', '\U{2000}', '\U{2001}', '\U{2002}', '\U{2003}', '\U{2004}', '\U{2005}',
      '\U{2006}', '\U{2007}', '\U{2008}', '\U{2009}', '\U{200a}', '\U{2028}', '\U{2029}', '\U{202f}', '\U{205f}', '\U{3000}'}
  }

  function RStrip(s: string): (r: string)
    ensures |r| <= |s|
  {
    if |s| > 0 && IsSpace(s[|s| - 1]) then RStrip(s[..|s| - 1]) else s
  }

  function LStrip(s: string): (r: string)
    ensures |r| <= |s|
  {
    if |s| > 0 && IsSpace(s[0]) then LStrip(s[1..]) else s
  }

  /** The leading run of non-space characters of `s`. */
  function Word(s: string): (r: string)
    ensures |r| <= |s| && r == s[..|r|]
  {
    if |s| == 0 || IsSpace(s[0]) then "" else [s[0]] + Word(s[1..])
  }

  /** Python `str.split()` with no argument: the maximal runs of non-space characters. */
  function Split(s: string): (r: seq<string>)
    decreases |s|
  {
    var t := LStrip(s);
    if |t| == 0 then []
    else
      var w := Word(t);
      LStripStartsWithNonSpace(s);
      [w] + Split(t[|w|..])
  }

  lemma {:induction false} WordHasNoSpace(s: string)
    ensures forall k :: 0 <= k < |Word(s)| ==> !IsSpace(Word(s)[k])
  {
    if |s| > 0 && !IsSpace(s[0]) {
      WordHasNoSpace(s[1..]);
      assert forall k :: 1 <= k < |Word(s)| ==> Word(s)[k] == Word(s[1..])[k - 1];
    }
  }

  lemma {:induction false} LStripStartsWithNonSpace(s: string)
    ensures |LStrip(s)| > 0 ==> !IsSpace(LStrip(s)[0])
  {
    if |s| > 0 && IsSpace(s[0]) {
      LStripStartsWithNonSpace(s[1..]);
    }
  }

  /** Every token of `split()` is non-empty and holds no whitespace. */
  lemma {:induction false} SplitTokens(s: string)
    ensures forall i :: 0 <= i < |Split(s)| ==> Split(s)[i] != ""
    ensures forall i, k :: 0 <= i < |Split(s)| && 0 <= k < |Split(s)[i]| ==> !IsSpace(Split(s)[i][k])
    decreases |s|
  {
    var t := LStrip(s);
    if |t| > 0 {
      LStripStartsWithNonSpace(s);
      var w := Word(t);
      WordHasNoSpace(t);
      SplitTokens(t[|w|..]);
      assert Split(s) == [w] + Split(t[|w|..]);
    }
  }

  /** `s` without its whitespace characters. */
  function Squeeze(s: string): string
  {
    if |s| == 0 then "" else (if IsSpace(s[0]) then "" else [s[0]]) + Squeeze(s[1..])
  }

  lemma {:induction false} SqueezeLStrip(s: string)
    ensures Squeeze(LStrip(s)) == Squeeze(s)
  {
    if |s| > 0 && IsSpace(s[0]) {
      SqueezeLStrip(s[1..]);
    }
  }

  lemma {:induction false} SqueezeWord(t: string)
    ensures Squeeze(t) == Word(t) + Squeeze(t[|Word(t)|..])
  {
    if |t| > 0 && !IsSpace(t[0]) {
      SqueezeWord(t[1..]);
      assert t[1..][|Word(t[1..])|..] == t[|Word(t)|..];
      Assoc3([t[0]], Word(t[1..]), Squeeze(t[|Word(t)|..]));
    }
  }

  /** `split()` loses only whitespace: its tokens put back together are the string without its whitespace. */
  lemma {:induction false} SplitKeepsText(s: string)
    ensures Concat(Split(s)) == Squeeze(s)
    decreases |s|
  {
    var t := LStrip(s);
    SqueezeLStrip(s);
    if |t| > 0 {
      LStripStartsWithNonSpace(s);
      var w := Word(t);
      SplitKeepsText(t[|w|..]);
      SqueezeWord(t);
      assert Split(s) == [w] + Split(t[|w|..]);
    }
  }

  /** Python `'  ' * k`: two spaces per level, nothing for `k <= 0`. */
  function Indent(k: int): (r: string)
    ensures |r| == if k <= 0 then 0 else 2 * k
    decreases k
  {
    if k <= 0 then "" else "  " + Indent(k - 1)
  }

  /** Indentation is blanks only: stripping it gives back the text after it. */
  lemma {:induction false} LStripIndent(k: int, s: string)
    requires |s| > 0 && !IsSpace(s[0])
    ensures LStrip(Indent(k) + s) == s
    decreases k
  {
    if k > 0 {
      var x := Indent(k - 1) + s;
      LStripIndent(k - 1, s);
      assert Indent(k) + s == "  " + x;
      assert LStrip("  " + x) == LStrip(" " + x) by { assert ("  " + x)[1..] == " " + x; }
      assert LStrip(" " + x) == LStrip(x) by { assert (" " + x)[1..] == x; }
    } else {
      assert Indent(k) + s == s;
    }
  }

  /** Python `sep.join(parts)`. */
  function Join(parts: seq<string>, sep: string): string
  {
    if |parts| == 0 then ""
    else if |parts| == 1 then parts[0]
    else parts[0] + sep + Join(parts[1..], sep)
  }

  /** Python `''.join(parts)`. */
  function Concat(parts: seq<string>): string
  {
    if |parts| == 0 then "" else parts[0] + Concat(parts[1..])
  }

  /** Joining one more part appends it. */
  lemma {:induction false} ConcatSnoc(parts: seq<string>, x: string)
    ensures Concat(parts + [x]) == Concat(parts) + x
  {
    if |parts| == 0 {
      assert parts + [x] == [x];
      assert Concat([x]) == x + Concat([]);
    } else {
      assert (parts + [x])[1..] == parts[1..] + [x];
      ConcatSnoc(parts[1..], x);
    }
  }

  /** String concatenation is associative. */
  lemma Assoc3(a: string, b: string, c: string)
    ensures (a + b) + c == a + (b + c)
  {
  }
}
