/**
 * The two pieces of java.lang the SSL dialog relies on: String.trim() and
 * Integer.parseInt(String) in base 10.
 */
module JavaText {
  import opened Wrappers

  /** String.trim() removes every leading and trailing character at or below U+0020. */
  predicate IsTrimmable(c: char)
  {
    c <= ' '
  }

  function TrimStart(s: string): (r: string)
    ensures |r| <= |s|
    ensures r == [] || !IsTrimmable(r[0])
    ensures forall k :: 0 <= k < |s| - |r| ==> IsTrimmable(s[k])
    decreases |s|
  {
    if s != [] && IsTrimmable(s[0]) then TrimStart(s[1..]) else s
  }

  function TrimEnd(s: string): (r: string)
    ensures |r| <= |s|
    ensures r == [] || !IsTrimmable(r[|r| - 1])
    ensures forall k :: |r| <= k < |s| ==> IsTrimmable(s[k])
    decreases |s|
  {
    if s != [] && IsTrimmable(s[|s| - 1]) then TrimEnd(s[..|s| - 1]) else s
  }

  /** TrimStart leaves a suffix of its argument. */
  lemma {:induction false} TrimStartIsSuffix(s: string)
    ensures TrimStart(s) == s[|s| - |TrimStart(s)|..]
    decreases |s|
  {
    if s != [] && IsTrimmable(s[0]) {
      TrimStartIsSuffix(s[1..]);
      assert s[1..][|s| - 1 - |TrimStart(s[1..])|..] == s[|s| - |TrimStart(s)|..];
    }
  }

  /** TrimEnd leaves a prefix of its argument. */
  lemma {:induction false} TrimEndIsPrefix(s: string)
    ensures TrimEnd(s) == s[..|TrimEnd(s)|]
    decreases |s|
  {
    if s != [] && IsTrimmable(s[|s| - 1]) {
      TrimEndIsPrefix(s[..|s| - 1]);
      assert s[..|s| - 1][..|TrimEnd(s[..|s| - 1])|] == s[..|TrimEnd(s)|];
    }
  }

  /**
   * String.trim(): the longest infix of s that neither starts nor ends with
   * a trimmable character; empty exactly when every character is trimmable.
   */
  function Trim(s: string): (r: string)
    ensures r == [] <==> forall k :: 0 <= k < |s| ==> IsTrimmable(s[k])
    ensures r != [] ==> !IsTrimmable(r[0]) && !IsTrimmable(r[|r| - 1])
    ensures |r| <= |s|
  {
    var t := TrimStart(s);
    var r := TrimEnd(t);
    TrimStartIsSuffix(s);
    TrimEndIsPrefix(t);
    assert t != [] ==> t[0] == s[|s| - |t|];
    assert r != [] ==> r[0] == t[0];
    assert r == [] ==> t == [];
    r
  }

  /** Trimming removes trimmable padding before and after a word that has no trimmable ends. */
  lemma TrimPadded(before: string, d: string, after: string)
    requires forall k :: 0 <= k < |before| ==> IsTrimmable(before[k])
    requires forall k :: 0 <= k < |after| ==> IsTrimmable(after[k])
    requires d != [] && !IsTrimmable(d[0]) && !IsTrimmable(d[|d| - 1])
    ensures Trim(before + d + after) == d
  {
    TrimStartPadded(before, d + after);
    assert before + d + after == before + (d + after);
    TrimEndPadded(d, after);
  }

  lemma {:induction false} TrimStartPadded(pad: string, s: string)
    requires forall k :: 0 <= k < |pad| ==> IsTrimmable(pad[k])
    requires s != [] && !IsTrimmable(s[0])
    ensures TrimStart(pad + s) == s
    decreases |pad|
  {
    if pad != [] {
      assert (pad + s)[0] == pad[0];
      assert (pad + s)[1..] == pad[1..] + s;
      TrimStartPadded(pad[1..], s);
    } else {
      assert pad + s == s;
    }
  }

  lemma {:induction false} TrimEndPadded(s: string, pad: string)
    requires forall k :: 0 <= k < |pad| ==> IsTrimmable(pad[k])
    requires s != [] && !IsTrimmable(s[|s| - 1])
    ensures TrimEnd(s + pad) == s
    decreases |pad|
  {
    if pad != [] {
      assert (s + pad)[|s + pad| - 1] == pad[|pad| - 1];
      assert (s + pad)[..|s + pad| - 1] == s + pad[..|pad| - 1];
      TrimEndPadded(s, pad[..|pad| - 1]);
    } else {
      assert s + pad == s;
    }
  }

  const INT_MIN: int := -0x8000_0000
  const INT_MAX: int := 0x7fff_ffff

  predicate IsDigit(c: char)
  {
    '0' <= c <= '9'
  }

  predicate AllDigits(d: string)
  {
    forall k :: 0 <= k < |d| ==> IsDigit(d[k])
  }

  function DigitValue(c: char): nat
    requires IsDigit(c)
  {
    c as int - '0' as int
  }

  /** The number a string of decimal digits denotes. */
  function DigitsValue(d: string): nat
    requires AllDigits(d)
    decreases |d|
  {
    if d == [] then 0 else DigitsValue(d[..|d| - 1]) * 10 + DigitValue(d[|d| - 1])
  }

  /** The digits after an optional leading '+' or '-'. */
  function Magnitude(s: string): string
  {
    if s != [] && (s[0] == '+' || s[0] == '-') then s[1..] else s
  }

  /** A sign (possibly absent) and digits, the shape parseInt accepts. */
  predicate IsSignedDecimal(s: string)
  {
    Magnitude(s) != [] && AllDigits(Magnitude(s))
  }

  /** The value of a signed decimal string, before the range check. */
  function SignedValue(s: string): int
    requires IsSignedDecimal(s)
  {
    var m: int := DigitsValue(Magnitude(s));
    if s[0] == '-' then 0 - m else m
  }

  /**
   * Integer.parseInt(s): an optional sign followed by at least one decimal
   * digit, denoting a value in the 32-bit range; None is NumberFormatException.
   */
  function ParseInt(s: string): Option<int>
  {
    if IsSignedDecimal(s) && INT_MIN <= SignedValue(s) <= INT_MAX then Some(SignedValue(s)) else None
  }

  /** The decimal digits of n, without leading zeros (Integer.toString for n >= 0). */
  function DecimalString(n: nat): (d: string)
    ensures d != [] && AllDigits(d)
    decreases n
  {
    var last := ['0' + ((n % 10) as char)];
    if n < 10 then last else DecimalString(n / 10) + last
  }

  lemma {:induction false} DecimalStringValue(n: nat)
    ensures DigitsValue(DecimalString(n)) == n
    decreases n
  {
    var d := DecimalString(n);
    if n >= 10 {
      DecimalStringValue(n / 10);
      assert d[..|d| - 1] == DecimalString(n / 10);
    }
  }

  /** parseInt reads back every value in the 32-bit range from its decimal form. */
  lemma ParseIntRoundTrip(v: int)
    requires INT_MIN <= v <= INT_MAX
    ensures ParseInt(if v < 0 then "-" + DecimalString(-v) else DecimalString(v)) == Some(v)
  {
    if v < 0 {
      var d := DecimalString(-v);
      var s := "-" + d;
      assert s[0] == '-' && s[1..] == d;
      DecimalStringValue(-v);
      assert SignedValue(s) == v;
    } else {
      var s := DecimalString(v);
      assert s[0] != '-' && s[0] != '+' by { assert IsDigit(s[0]); }
      DecimalStringValue(v);
      assert SignedValue(s) == v;
    }
  }

  /** A string parseInt accepts has no character that trim would remove. */
  lemma ParsedHasNoTrimmable(s: string)
    requires ParseInt(s).Some?
    ensures forall k :: 0 <= k < |s| ==> !IsTrimmable(s[k])
  {
  }
}
