/**
  The few pieces of the Java platform that the travel-agency code relies on:
  nullable references, 32-bit `int` arithmetic, `Integer.toString`,
  `Integer.parseInt`, and the `String` methods `trim`, `toLowerCase`,
  `contains` and `indexOf`.
 */
module JavaLang {

  /** A nullable Java reference: `None` is `null`. */
  datatype Option<+T> = None | Some(value: T)

  const MinInt: int := -0x8000_0000
  const MaxInt: int := 0x7fff_ffff

  /** Java's `int`. */
  type int32 = x: int | MinInt <= x <= MaxInt

  /** `java.sql.Date`, `java.sql.Time` and `java.sql.Timestamp` are compared by their milliseconds. */
  type Date = int
  type Time = int
  type Timestamp = int

  /** Java's `int` subtraction, which wraps around modulo 2^32. */
  function Sub32(a: int32, b: int32): (r: int32)
    ensures MinInt <= a - b <= MaxInt ==> r == a - b
    ensures a - b > MaxInt ==> r == a - b - 0x1_0000_0000
    ensures a - b < MinInt ==> r == a - b + 0x1_0000_0000
  {
    var d := a - b;
    if d > MaxInt then d - 0x1_0000_0000
    else if d < MinInt then d + 0x1_0000_0000
    else d
  }

  // ---------------------------------------------------------------------------
  // Decimal digits

  predicate IsDigit(c: char) {
    '0' <= c <= '9'
  }

  predicate AllDigits(s: string) {
    forall k :: 0 <= k < |s| ==> IsDigit(s[k])
  }

  function DigitChar(d: nat): (c: char)
    requires d < 10
    ensures IsDigit(c) && c as int - '0' as int == d
  {
    ('0' as int + d) as char
  }

  /** The value of a string of decimal digits, read most significant first. */
  function DigitsValue(s: string): nat
    requires AllDigits(s)
  {
    if s == [] then 0
    else DigitsValue(s[..|s| - 1]) * 10 + (s[|s| - 1] as int - '0' as int)
  }

  /** The decimal digits of `n`, without leading zeros. */
  function NatToString(n: nat): (r: string)
    ensures |r| > 0 && AllDigits(r)
    ensures r[0] == '0' ==> n == 0
  {
    if n < 10 then [DigitChar(n)] else NatToString(n / 10) + [DigitChar(n % 10)]
  }

  /** `Integer.toString(n)` (also what `"" + n` appends). */
  function IntToString(n: int): (r: string)
    ensures |r| > 0
    ensures forall k :: 0 <= k < |r| ==> IsDigit(r[k]) || (k == 0 && r[k] == '-')
  {
    if n < 0 then "-" + NatToString(-n) else NatToString(n)
  }

  lemma {:induction false} DigitsValueOfNatToString(n: nat)
    ensures DigitsValue(NatToString(n)) == n
  {
    if n >= 10 {
      var s := NatToString(n);
      assert s[..|s| - 1] == NatToString(n / 10);
      DigitsValueOfNatToString(n / 10);
    }
  }

  /**
    `Integer.parseInt(s)`: an optional `-` or `+`, then one or more decimal
    digits, whose value must fit in an `int`; anything else is a
    `NumberFormatException`, modelled as `None`.
   */
  function ParseInt(s: string): (r: Option<int32>)
    ensures r.Some? ==> |s| > 0 && forall k :: 0 < k < |s| ==> IsDigit(s[k])
    ensures r.Some? ==> IsDigit(s[0]) || (|s| > 1 && (s[0] == '-' || s[0] == '+'))
    ensures |s| > 0 && AllDigits(s) && DigitsValue(s) <= MaxInt ==> r == Some(DigitsValue(s))
  {
    if |s| == 0 then None
    else if s[0] == '-' || s[0] == '+' then
      if |s| == 1 || !AllDigits(s[1..]) then None
      else
        var d: int := DigitsValue(s[1..]);
        var v := if s[0] == '-' then -d else d;
        if MinInt <= v <= MaxInt then Some(v) else None
    else if !AllDigits(s) then None
    else
      var v := DigitsValue(s);
      if v <= MaxInt then Some(v) else None
  }

  /** Printing an `int` and parsing it back gives the same `int`. */
  lemma ParseIntOfIntToString(n: int32)
    ensures ParseInt(IntToString(n)) == Some(n)
  {
    if n < 0 {
      var s := IntToString(n);
      assert s[1..] == NatToString(-(n as int));
      DigitsValueOfNatToString(-(n as int));
    } else {
      DigitsValueOfNatToString(n);
    }
  }

  /** Different numbers print differently. */
  lemma IntToStringInjective(a: int, b: int)
    requires IntToString(a) == IntToString(b)
    ensures a == b
  {
    var s := IntToString(a);
    assert IsDigit(NatToString(if a < 0 then -a else a)[0]);
    assert IsDigit(NatToString(if b < 0 then -b else b)[0]);
    if a < 0 {
      assert s[1..] == NatToString(-a) == NatToString(-b);
      DigitsValueOfNatToString(-a);
      DigitsValueOfNatToString(-b);
    } else {
      DigitsValueOfNatToString(a);
      DigitsValueOfNatToString(b);
    }
  }

  // ---------------------------------------------------------------------------
  // Strings

  /** `c <= ' '`, the characters that `String.trim` removes. */
  predicate IsTrimmed(c: char) {
    c <= ' '
  }

  function TrimStart(s: string): (r: string)
    ensures |r| <= |s| && r == s[|s| - |r|..]
    ensures r == [] || !IsTrimmed(r[0])
    ensures forall k :: 0 <= k < |s| - |r| ==> IsTrimmed(s[k])
  {
    if s != [] && IsTrimmed(s[0]) then TrimStart(s[1..]) else s
  }

  function TrimEnd(s: string): (r: string)
    ensures |r| <= |s| && r == s[..|r|]
    ensures r == [] || !IsTrimmed(r[|r| - 1])
    ensures forall k :: |r| <= k < |s| ==> IsTrimmed(s[k])
  {
    if s != [] && IsTrimmed(s[|s| - 1]) then TrimEnd(s[..|s| - 1]) else s
  }

  /** `String.trim`: drop every character `<= ' '` at both ends. */
  function Trim(s: string): (r: string)
    ensures r == [] || (!IsTrimmed(r[0]) && !IsTrimmed(r[|r| - 1]))
    ensures r == [] <==> forall k :: 0 <= k < |s| ==> IsTrimmed(s[k])
  {
    TrimEnd(TrimStart(s))
  }

  /** What `trim` returns has nothing left to trim. */
  lemma TrimIdempotent(s: string)
    ensures Trim(Trim(s)) == Trim(s)
  {
    var t := Trim(s);
    if t != [] {
      assert TrimStart(t) == t;
    }
  }

  /** A printed number has nothing to trim. */
  lemma TrimOfIntToString(n: int)
    ensures Trim(IntToString(n)) == IntToString(n)
  {
    var s := IntToString(n);
    assert !IsTrimmed(s[0]) && !IsTrimmed(s[|s| - 1]);
    assert TrimStart(s) == s;
  }

  function LowerChar(c: char): (d: char)
    ensures !('A' <= d <= 'Z')
  {
    if 'A' <= c <= 'Z' then (c as int + 32) as char else c
  }

  /** `String.toLowerCase`, for the ASCII letters. */
  function ToLower(s: string): (r: string)
    ensures |r| == |s|
    ensures forall k :: 0 <= k < |s| ==> r[k] == LowerChar(s[k])
  {
    if s == [] then [] else [LowerChar(s[0])] + ToLower(s[1..])
  }

  /** Lowering the case of a concatenation lowers each part. */
  lemma ToLowerConcat(a: string, b: string)
    ensures ToLower(a + b) == ToLower(a) + ToLower(b)
  {
    var l, r := ToLower(a + b), ToLower(a) + ToLower(b);
    forall k | 0 <= k < |l|
      ensures l[k] == r[k]
    {
      if k < |a| {
        assert (a + b)[k] == a[k];
      } else {
        assert (a + b)[k] == b[k - |a|];
      }
    }
  }

  /** `String.contains`: `p` occurs in `s`, tried at each offset in turn. */
  function Contains(s: string, p: string): bool
  {
    p <= s || (s != [] && Contains(s[1..], p))
  }

  /** `p` occurs in `s` at some offset. */
  ghost predicate OccursIn(p: string, s: string) {
    exists i :: 0 <= i <= |s| && p <= s[i..]
  }

  lemma {:induction false} ContainsIsOccurrence(s: string, p: string)
    ensures Contains(s, p) <==> OccursIn(p, s)
  {
    if p <= s {
      assert s[0..] == s;
    } else if s == [] {
      forall i | 0 <= i <= |s| ensures !(p <= s[i..]) {
        assert s[i..] == s;
      }
    } else {
      ContainsIsOccurrence(s[1..], p);
      if OccursIn(p, s) {
        var i :| 0 <= i <= |s| && p <= s[i..];
        if i > 0 {
          assert s[1..][i - 1..] == s[i..];
        }
      }
      if OccursIn(p, s[1..]) {
        var i :| 0 <= i <= |s[1..]| && p <= s[1..][i..];
        assert s[1..][i..] == s[i + 1..];
      }
    }
  }

  /** An occurrence in the middle part is an occurrence in the whole. */
  lemma OccursInMiddle(p: string, x: string, y: string, z: string)
    requires OccursIn(p, y)
    ensures OccursIn(p, x + y + z)
  {
    var i :| 0 <= i <= |y| && p <= y[i..];
    var s := x + y + z;
    var j := |x| + i;
    assert s[j..][..|p|] == y[i..][..|p|];
    assert p <= s[j..];
  }

  /** `String.valueOf` of a nullable string, which is how `+` appends it: `null` prints as "null". */
  function StringOrNull(s: Option<string>): (r: string)
    ensures s.Some? ==> r == s.value
  {
    if s.None? then "null" else s.value
  }

  /** `s.indexOf(c)`: the first index of `c` in `s`, or -1. */
  function IndexOf(s: string, c: char): (r: int)
    ensures -1 <= r < |s|
    ensures r == -1 <==> c !in s
    ensures r >= 0 ==> s[r] == c && c !in s[..r]
  {
    if s == [] then -1
    else if s[0] == c then 0
    else
      var i := IndexOf(s[1..], c);
      assert s[1..][..if i < 0 then 0 else i] == s[1..if i < 0 then 1 else i + 1];
      if i < 0 then -1 else i + 1
  }

  /**
    `Integer.parseInt(s.substring(0, s.indexOf(c)))`: the number before the
    first `c`; `None` when `c` does not occur (a `substring` exception) or the
    prefix is not a number.
   */
  function ReadIntBefore(s: string, c: char): (r: Option<int32>)
    ensures c !in s ==> r == None
  {
    var i := IndexOf(s, c);
    if i < 0 then None else ParseInt(s[..i])
  }

  /** A number printed in front of a separator that no number contains is read back. */
  lemma ReadIntBeforePrinted(n: int32, c: char, rest: string)
    requires c != '-' && !IsDigit(c)
    requires |rest| > 0 && rest[0] == c
    ensures ReadIntBefore(IntToString(n) + rest, c) == Some(n)
  {
    var a := IntToString(n);
    var s := a + rest;
    assert c !in a;
    assert s[..|a|] == a;
    IndexOfAfterPrefix(a, c, rest);
    ParseIntOfIntToString(n);
  }

  lemma IndexOfAfterPrefix(a: string, c: char, rest: string)
    requires c !in a
    requires |rest| > 0 && rest[0] == c
    ensures IndexOf(a + rest, c) == |a|
  {
    var s := a + rest;
    assert s[|a|] == c;
    assert s[..|a|] == a;
  }

  predicate EndsWith(s: string, suffix: string) {
    |suffix| <= |s| && s[|s| - |suffix|..] == suffix
  }

  lemma EndsWithItself(s: string)
    ensures EndsWith(s, s)
  {
  }

  lemma EndsWithPrepend(x: string, y: string, suffix: string)
    requires EndsWith(y, suffix)
    ensures EndsWith(x + y, suffix)
  {
    assert (x + y)[|x + y| - |suffix|..] == y[|y| - |suffix|..];
  }

  lemma DropPrefix(x: string, y: string)
    ensures (x + y)[..|x|] == x && (x + y)[|x|..] == y
  {
  }
}
