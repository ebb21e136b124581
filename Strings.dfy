/**
 * The JavaScript string operations the components rely on, on `seq<char>`:
 * `indexOf`/`includes`, `split` and `join` with a non-empty separator,
 * `startsWith`, `trim`, `padStart`, `String(n)` for integers and `parseInt`
 * with radix 10.
 */
module Strings {
  import opened Wrappers

  /** True when `sep` occurs in `s` starting at position `i`. */
  predicate OccursAt(s: string, sep: string, i: nat)
  {
    i + |sep| <= |s| && s[i..i + |sep|] == sep
  }

  /** `s.indexOf(sep)`: the first position where `sep` occurs, if any. */
  function IndexOf(s: string, sep: string): (r: Option<nat>)
    requires sep != []
    ensures r.Some? ==> OccursAt(s, sep, r.value)
    ensures r.Some? ==> forall j: nat :: j < r.value ==> !OccursAt(s, sep, j)
    ensures r.None? ==> forall j: nat :: !OccursAt(s, sep, j)
    decreases |s|
  {
    if |s| < |sep| then None
    else if s[..|sep|] == sep then Some(0)
    else
      var rest := IndexOf(s[1..], sep);
      ShiftOccurrence(s, sep);
      assert !OccursAt(s, sep, 0);
      match rest
      case None =>
        assert forall j: nat :: !OccursAt(s, sep, j) by {
          forall j: nat ensures !OccursAt(s, sep, j) {
            if j > 0 { assert !OccursAt(s[1..], sep, j - 1); }
          }
        }
        None
      case Some(k) =>
        assert forall j: nat :: j < k + 1 ==> !OccursAt(s, sep, j) by {
          forall j: nat | j < k + 1 ensures !OccursAt(s, sep, j) {
            if j > 0 { assert !OccursAt(s[1..], sep, j - 1); }
          }
        }
        Some(k + 1)
  }

  /** An occurrence in `s[1..]` at `j` is an occurrence in `s` at `j + 1`, and conversely. */
  lemma ShiftOccurrence(s: string, sep: string)
    requires |s| > 0
    ensures forall j: nat :: OccursAt(s[1..], sep, j) <==> OccursAt(s, sep, j + 1)
  {
    forall j: nat ensures OccursAt(s[1..], sep, j) <==> OccursAt(s, sep, j + 1) {
      if j + 1 + |sep| <= |s| {
        assert s[1..][j..j + |sep|] == s[j + 1..j + 1 + |sep|];
      }
    }
  }

  /** `s.includes(sep)`. */
  predicate Contains(s: string, sep: string)
    requires sep != []
  {
    IndexOf(s, sep).Some?
  }

  /** A string without `x` has no slice containing `x`. */
  lemma NotContainsSlice(s: string, x: string, i: nat, j: nat)
    requires x != [] && i <= j <= |s|
    requires !Contains(s, x)
    ensures !Contains(s[i..j], x)
  {
    var t := s[i..j];
    forall k: nat ensures !OccursAt(t, x, k) {
      if k + |x| <= |t| {
        var a := t[k..k + |x|];
        var b := s[i + k..i + k + |x|];
        forall m | 0 <= m < |a| ensures a[m] == b[m] { }
        assert a == b;
        assert !OccursAt(s, x, i + k);
      }
    }
  }

  /** `s.startsWith(p)`. */
  predicate StartsWith(s: string, p: string)
  {
    |p| <= |s| && s[..|p|] == p
  }

  /** `s.split(sep)` for a non-empty separator: the pieces between the occurrences of `sep`, scanned left to right. */
  function Split(s: string, sep: string): (parts: seq<string>)
    requires sep != []
    ensures |parts| >= 1
    decreases |s|
  {
    match IndexOf(s, sep)
    case None => [s]
    case Some(i) => [s[..i]] + Split(s[i + |sep|..], sep)
  }

  /** No piece of a split contains the separator. */
  lemma {:induction false} SplitPartsFree(s: string, sep: string)
    requires sep != []
    ensures forall k :: 0 <= k < |Split(s, sep)| ==> !Contains(Split(s, sep)[k], sep)
    decreases |s|
  {
    match IndexOf(s, sep)
    case None =>
      assert Split(s, sep) == [s];
    case Some(i) =>
      var rest := s[i + |sep|..];
      NoOccurrenceBefore(s, sep, i);
      SplitPartsFree(rest, sep);
      assert Split(s, sep) == [s[..i]] + Split(rest, sep);
  }

  /** A prefix that ends before the first occurrence of `sep` does not contain `sep`. */
  lemma NoOccurrenceBefore(s: string, sep: string, i: nat)
    requires sep != [] && i <= |s|
    requires forall j: nat :: j < i ==> !OccursAt(s, sep, j)
    ensures !Contains(s[..i], sep)
  {
    var p := s[..i];
    if IndexOf(p, sep).Some? {
      var j := IndexOf(p, sep).value;
      assert p[j..j + |sep|] == s[j..j + |sep|];
      assert OccursAt(s, sep, j);
    }
  }

  /** Splitting on a character at its first occurrence. */
  lemma SplitAtChar(a: string, c: char, b: string)
    requires c !in a
    ensures Split(a + [c] + b, [c]) == [a] + Split(b, [c])
  {
    var s := a + [c] + b;
    assert OccursAt(s, [c], |a|) by { assert s[|a|..|a| + 1] == [c]; }
    forall j: nat | j < |a| ensures !OccursAt(s, [c], j) {
      assert s[j..j + 1] == [a[j]];
    }
    var r := IndexOf(s, [c]);
    assert r == Some(|a|);
    assert s[..|a|] == a && s[|a| + 1..] == b;
  }

  /** Splitting a string with two separator characters gives its three pieces. */
  lemma SplitThree(a: string, b: string, d: string, c: char)
    requires c !in a && c !in b && c !in d
    ensures Split(a + [c] + b + [c] + d, [c]) == [a, b, d]
  {
    SplitNoChar(d, c);
    SplitAtChar(b, c, d);
    assert a + [c] + b + [c] + d == a + [c] + (b + [c] + d);
    SplitAtChar(a, c, b + [c] + d);
  }

  /** A string without the separator character splits into itself. */
  lemma SplitNoChar(a: string, c: char)
    requires c !in a
    ensures Split(a, [c]) == [a]
  {
    forall j: nat | j + 1 <= |a| ensures !OccursAt(a, [c], j) {
      assert a[j..j + 1] == [a[j]];
    }
  }

  /** When `s` does not contain `x`, no piece of a split of `s` does. */
  lemma {:induction false} SplitPartsAvoid(s: string, sep: string, x: string)
    requires sep != [] && x != []
    requires !Contains(s, x)
    ensures forall k :: 0 <= k < |Split(s, sep)| ==> !Contains(Split(s, sep)[k], x)
    decreases |s|
  {
    match IndexOf(s, sep)
    case None =>
      assert Split(s, sep) == [s];
    case Some(i) =>
      var rest := s[i + |sep|..];
      NotContainsSlice(s, x, 0, i);
      NotContainsSlice(s, x, i + |sep|, |s|);
      assert s[0..i] == s[..i] && s[i + |sep|..|s|] == rest;
      SplitPartsAvoid(rest, sep, x);
      assert Split(s, sep) == [s[..i]] + Split(rest, sep);
  }

  /** `parts.join(sep)`. */
  function Join(parts: seq<string>, sep: string): string
  {
    if |parts| == 0 then ""
    else if |parts| == 1 then parts[0]
    else parts[0] + sep + Join(parts[1..], sep)
  }

  /** Joining the pieces of a split with the same separator gives back the original string. */
  lemma {:induction false} JoinSplit(s: string, sep: string)
    requires sep != []
    ensures Join(Split(s, sep), sep) == s
    decreases |s|
  {
    match IndexOf(s, sep)
    case None =>
    case Some(i) =>
      var rest := s[i + |sep|..];
      var tail := Split(rest, sep);
      JoinSplit(rest, sep);
      var parts := [s[..i]] + tail;
      assert Split(s, sep) == parts;
      assert parts[1..] == tail;
      assert Join(parts, sep) == s[..i] + sep + Join(tail, sep);
      assert s == s[..i] + sep + rest by {
        assert s[i..i + |sep|] == sep;
      }
  }

  /** The characters JavaScript's `trim` removes (WhiteSpace and LineTerminator). */
  predicate IsWhiteSpace(c: char)
  {
    var n := c as int;
    n == 0x20 || (0x09 <= n <= 0x0D) || n == 0xA0 || n == 0x1680 ||
    (0x2000 <= n <= 0x200A) || n == 0x2028 || n == 0x2029 || n == 0x202F ||
    n == 0x205F || n == 0x3000 || n == 0xFEFF
  }

  /** `s.trimStart()`. */
  function TrimStart(s: string): (r: string)
    ensures |r| <= |s| && r == s[|s| - |r|..]
    ensures r == [] || !IsWhiteSpace(r[0])
    ensures forall k :: 0 <= k < |s| - |r| ==> IsWhiteSpace(s[k])
  {
    if |s| > 0 && IsWhiteSpace(s[0]) then TrimStart(s[1..]) else s
  }

  /** `s.trimEnd()`. */
  function TrimEnd(s: string): (r: string)
    ensures |r| <= |s| && r == s[..|r|]
    ensures r == [] || !IsWhiteSpace(r[|r| - 1])
    ensures forall k :: |r| <= k < |s| ==> IsWhiteSpace(s[k])
  {
    if |s| > 0 && IsWhiteSpace(s[|s| - 1]) then TrimEnd(s[..|s| - 1]) else s
  }

  /** `s.trim()`: neither end of the result is white space. */
  function Trim(s: string): (r: string)
    ensures |r| <= |s|
    ensures r == [] || (!IsWhiteSpace(r[0]) && !IsWhiteSpace(r[|r| - 1]))
  {
    var t := TrimStart(s);
    var r := TrimEnd(t);
    assert r == [] || r[0] == t[0];
    r
  }

  /** Trimming a string of white space only gives the empty string, and only such strings trim to empty. */
  lemma TrimEmpty(s: string)
    ensures Trim(s) == [] <==> forall k :: 0 <= k < |s| ==> IsWhiteSpace(s[k])
  {
    var t := TrimStart(s);
    if Trim(s) != [] {
      assert !IsWhiteSpace(t[0]);
      assert s[|s| - |t|] == t[0];
    }
  }

  /** Removing leading white space from white space followed by a non-blank string leaves that string. */
  lemma TrimStartPadding(pad: string, s: string)
    requires forall k :: 0 <= k < |pad| ==> IsWhiteSpace(pad[k])
    requires s == [] || !IsWhiteSpace(s[0])
    ensures TrimStart(pad + s) == s
    decreases |pad|
  {
    if |pad| > 0 {
      assert (pad + s)[1..] == pad[1..] + s;
      TrimStartPadding(pad[1..], s);
    } else {
      assert pad + s == s;
    }
  }

  /** `a.padStart(width, [c])` with a one-character fill. */
  function PadStart(s: string, width: nat, c: char): (r: string)
    ensures |r| == if |s| >= width then |s| else width
    ensures r[|r| - |s|..] == s
    ensures forall k :: 0 <= k < |r| - |s| ==> r[k] == c
  {
    if |s| >= width then s else Repeat(c, width - |s|) + s
  }

  function Repeat(c: char, n: nat): (r: string)
    ensures |r| == n && forall k :: 0 <= k < n ==> r[k] == c
  {
    if n == 0 then [] else [c] + Repeat(c, n - 1)
  }

  predicate IsDigit(c: char)
  {
    '0' <= c <= '9'
  }

  function DigitChar(d: nat): (c: char)
    requires d < 10
    ensures IsDigit(c) && c as int - '0' as int == d
  {
    ('0' as int + d) as char
  }

  predicate AllDigits(s: string)
  {
    forall k :: 0 <= k < |s| ==> IsDigit(s[k])
  }

  /** `String(n)` for a non-negative integer: its decimal digits without leading zeros. */
  function Decimal(n: nat): (r: string)
    ensures |r| >= 1 && AllDigits(r)
    ensures r[0] != '0' || n == 0
  {
    if n < 10 then [DigitChar(n)] else Decimal(n / 10) + [DigitChar(n % 10)]
  }

  /** `String(i)` for any integer. */
  function IntString(i: int): (r: string)
    ensures |r| >= 1 && r[0] != ' '
  {
    if i < 0 then "-" + Decimal(-i) else Decimal(i)
  }

  /** The value of a string of decimal digits, most significant first. */
  function DigitsValue(s: string): nat
    requires AllDigits(s)
  {
    if s == [] then 0
    else DigitsValue(s[..|s| - 1]) * 10 + (s[|s| - 1] as int - '0' as int)
  }

  /** Reading back the digits of `Decimal(n)` gives `n`. */
  lemma {:induction false} DecimalValue(n: nat)
    ensures DigitsValue(Decimal(n)) == n
  {
    if n >= 10 {
      var d := Decimal(n);
      assert d[..|d| - 1] == Decimal(n / 10);
      DecimalValue(n / 10);
    }
  }

  /** The length of the longest prefix of `s` made of decimal digits. */
  function DigitPrefixLength(s: string): (k: nat)
    ensures k <= |s| && AllDigits(s[..k])
    ensures k < |s| ==> !IsDigit(s[k])
  {
    if |s| > 0 && IsDigit(s[0]) then
      var k := 1 + DigitPrefixLength(s[1..]);
      assert s[..k] == [s[0]] + s[1..][..k - 1];
      k
    else 0
  }

  /** The digits of a number followed by a suffix that does not start with a digit are read up to the suffix. */
  lemma {:induction false} DigitPrefixOfDigits(d: string, suffix: string)
    requires AllDigits(d)
    requires suffix == [] || !IsDigit(suffix[0])
    ensures DigitPrefixLength(d + suffix) == |d|
    decreases |d|
  {
    if |d| > 0 {
      assert (d + suffix)[1..] == d[1..] + suffix;
      DigitPrefixOfDigits(d[1..], suffix);
    } else {
      assert d + suffix == suffix;
    }
  }

  /**
   * `parseInt(s)` with radix 10: skip leading white space, read an optional
   * sign, then the longest run of decimal digits; no digits gives `NaN` (None).
   */
  function ParseInt(s: string): Option<int>
  {
    ParseTrimmed(TrimStart(s))
  }

  /** `parseInt` once the leading white space is gone. */
  function ParseTrimmed(t: string): Option<int>
  {
    var negative := |t| > 0 && t[0] == '-';
    var body := if |t| > 0 && (t[0] == '-' || t[0] == '+') then t[1..] else t;
    var k := DigitPrefixLength(body);
    var value: int := if k == 0 then 0 else DigitsValue(body[..k]);
    if k == 0 then None
    else if negative then Some(-value)
    else Some(value)
  }

  /** `parseInt` reads back the digits of `n`, whatever non-digit suffix follows them. */
  lemma ParseIntDecimal(n: nat, suffix: string)
    requires suffix == [] || !IsDigit(suffix[0])
    ensures ParseInt(Decimal(n) + suffix) == Some(n)
  {
    var d := Decimal(n);
    var s := d + suffix;
    DecimalValue(n);
    DigitPrefixOfDigits(d, suffix);
    assert s[..|d|] == d;
    assert !IsWhiteSpace(s[0]) && s[0] != '-' && s[0] != '+';
    assert TrimStart(s) == s;
    assert ParseTrimmed(s) == Some(DigitsValue(d));
  }

  /** `parseInt` reads back `"-"` followed by the digits of `n`, whatever non-digit suffix follows them. */
  lemma ParseIntNegated(n: nat, suffix: string)
    requires suffix == [] || !IsDigit(suffix[0])
    ensures ParseInt("-" + Decimal(n) + suffix) == Some(-(n as int))
  {
    var d := Decimal(n);
    var s := "-" + d + suffix;
    var body := d + suffix;
    DecimalValue(n);
    DigitPrefixOfDigits(d, suffix);
    assert s[0] == '-' && !IsWhiteSpace(s[0]);
    assert TrimStart(s) == s;
    assert s[1..] == body;
    assert body[..|d|] == d;
    assert ParseTrimmed(s) == Some(-(n as int));
  }

  /** `parseInt` reads back `String(i)` for every integer, whatever non-digit suffix follows it. */
  lemma ParseIntString(i: int, suffix: string)
    requires suffix == [] || !IsDigit(suffix[0])
    ensures ParseInt(IntString(i) + suffix) == Some(i)
  {
    if i < 0 {
      var n: nat := -i;
      ParseIntNegated(n, suffix);
      assert IntString(i) + suffix == "-" + Decimal(n) + suffix;
    } else {
      ParseIntDecimal(i, suffix);
      assert IntString(i) == Decimal(i);
    }
  }
}
