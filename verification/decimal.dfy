/** Decimal text for integers: Python's `str(n)` and `int(s)` on a string. */
module Decimal {
  import opened Wrappers

  predicate IsDigit(c: char)
  {
    '0' <= c <= '9'
  }

  predicate AllDigits(s: string)
  {
    forall i :: 0 <= i < |s| ==> IsDigit(s[i])
  }

  /** The whitespace `int()` strips around its argument (ASCII part). */
  predicate IsSpace(c: char)
  {
    c == ' ' || c == '\t' || c == '\n' || c == '\r' || c == '\U{B}' || c == '\U{C}'
  }

  function DigitValue(c: char): (d: nat)
    requires IsDigit(c)
    ensures d <= 9
  {
    c as int - '0' as int
  }

  function DigitChar(d: nat): (c: char)
    requires d <= 9
    ensures IsDigit(c) && DigitValue(c) == d
  {
    ('0' as int + d) as char
  }

  /** `str(n)` for a non-negative `n`: digits, most significant first, without leading zeros. */
  function ShowNat(n: nat): (s: string)
    ensures |s| > 0 && AllDigits(s)
    ensures s[0] == '0' ==> n == 0
  {
    if n < 10 then [DigitChar(n)] else ShowNat(n / 10) + [DigitChar(n % 10)]
  }

  /** `str(n)` for any integer. */
  function Show(n: int): string
  {
    if n < 0 then "-" + ShowNat(-n) else ShowNat(n)
  }

  /** The number a string of digits denotes (leading zeros allowed, as `int()` allows them). */
  function DigitsValue(s: string): nat
    requires AllDigits(s)
  {
    if |s| == 0 then 0 else DigitsValue(s[..|s| - 1]) * 10 + DigitValue(s[|s| - 1])
  }

  function StripLeft(s: string): (t: string)
    ensures |s| > 0 && !IsSpace(s[0]) ==> t == s
    ensures |t| > 0 ==> !IsSpace(t[0])
  {
    if |s| > 0 && IsSpace(s[0]) then StripLeft(s[1..]) else s
  }

  function StripRight(s: string): (t: string)
    ensures |s| > 0 && !IsSpace(s[|s| - 1]) ==> t == s
    ensures |t| > 0 ==> !IsSpace(t[|t| - 1])
  {
    if |s| > 0 && IsSpace(s[|s| - 1]) then StripRight(s[..|s| - 1]) else s
  }

  /** Python's `int(s)`: surrounding whitespace, then an optional sign, then at least one digit.
      Anything else raises `ValueError`, which is `None` here. */
  function ParseInt(s: string): (r: Option<int>)
    ensures |s| > 0 && AllDigits(s) ==> r == Some(DigitsValue(s))
    ensures |s| > 0 && (s[0] == '-' || s[0] == '+') && AllDigits(s[1..]) && |s| > 1 ==>
      r == Some(if s[0] == '-' then -(DigitsValue(s[1..]) as int) else DigitsValue(s[1..]))
  {
    ParseSigned(StripRight(StripLeft(s)))
  }

  /** `int()` on text with the whitespace already stripped. */
  function ParseSigned(t: string): Option<int>
  {
    if |t| == 0 then None
    else
      var digits := if t[0] == '-' || t[0] == '+' then t[1..] else t;
      if |digits| == 0 || !AllDigits(digits) then None
      else Some(if t[0] == '-' then -(DigitsValue(digits) as int) else DigitsValue(digits))
  }

  lemma {:induction false} DigitsValueShowNat(n: nat)
    ensures DigitsValue(ShowNat(n)) == n
  {
    if n >= 10 {
      var s := ShowNat(n);
      assert s[..|s| - 1] == ShowNat(n / 10);
      DigitsValueShowNat(n / 10);
    }
  }

  /** `int(str(n)) == n` for every integer. */
  lemma ShowRoundTrip(n: int)
    ensures ParseInt(Show(n)) == Some(n)
  {
    var s := Show(n);
    if n < 0 {
      assert s[1..] == ShowNat(-n);
      DigitsValueShowNat(-n);
    } else {
      DigitsValueShowNat(n);
    }
  }

  predicate AllSpace(s: string)
  {
    forall i :: 0 <= i < |s| ==> IsSpace(s[i])
  }

  /** `s` is an integer literal as `int()` reads it: `a + sign + d + b` with `a` and `b`
      whitespace, `sign` empty, `+` or `-`, and `d` one or more digits. */
  ghost predicate LiteralSplit(s: string, a: string, sign: string, d: string, b: string)
  {
    && s == a + sign + d + b
    && AllSpace(a) && AllSpace(b)
    && (sign == "" || sign == "+" || sign == "-")
    && |d| > 0 && AllDigits(d)
  }

  /** The value of a signed digit string. */
  function Signed(sign: string, d: string): int
    requires AllDigits(d)
  {
    if sign == "-" then -(DigitsValue(d) as int) else DigitsValue(d)
  }

  lemma {:induction false} StripLeftPadded(a: string, x: string)
    requires AllSpace(a)
    requires |x| > 0 && !IsSpace(x[0])
    ensures StripLeft(a + x) == x
  {
    if |a| > 0 {
      assert (a + x)[1..] == a[1..] + x;
      StripLeftPadded(a[1..], x);
    } else {
      assert a + x == x;
    }
  }

  lemma {:induction false} StripRightPadded(x: string, b: string)
    requires AllSpace(b)
    requires |x| > 0 && !IsSpace(x[|x| - 1])
    ensures StripRight(x + b) == x
  {
    if |b| > 0 {
      assert (x + b)[..|x + b| - 1] == x + b[..|b| - 1];
      StripRightPadded(x, b[..|b| - 1]);
    } else {
      assert x + b == x;
    }
  }

  /** How many whitespace characters `StripLeft` removes. */
  function LeadingSpaces(s: string): (k: nat)
    ensures k <= |s| && AllSpace(s[..k]) && StripLeft(s) == s[k..]
  {
    if |s| > 0 && IsSpace(s[0]) then
      var k := LeadingSpaces(s[1..]);
      assert s[..k + 1] == [s[0]] + s[1..][..k];
      assert s[k + 1..] == s[1..][k..];
      k + 1
    else
      assert s[0..] == s;
      0
  }

  /** Where the whitespace `StripRight` removes begins. */
  function TrailingStart(s: string): (m: nat)
    ensures m <= |s| && AllSpace(s[m..]) && StripRight(s) == s[..m]
  {
    if |s| > 0 && IsSpace(s[|s| - 1]) then
      var init := s[..|s| - 1];
      var m := TrailingStart(init);
      assert s[m..] == init[m..] + [s[|s| - 1]];
      assert s[..m] == init[..m];
      m
    else
      assert s[..|s|] == s;
      |s|
  }

  /** Every integer literal, whatever whitespace surrounds it, parses to its signed value. */
  lemma ParseIntComplete(s: string, a: string, sign: string, d: string, b: string)
    requires LiteralSplit(s, a, sign, d, b)
    ensures ParseInt(s) == Some(Signed(sign, d))
  {
    var x := sign + d;
    assert !IsSpace(x[0]) && !IsSpace(x[|x| - 1]);
    assert s == a + (x + b);
    StripLeftPadded(a, x + b);
    StripRightPadded(x, b);
    if sign != "" {
      assert x[1..] == d;
    } else {
      assert x == d;
    }
  }

  /** Stripped text that `int()` accepts is an optional sign followed by digits. */
  lemma SignedSplit(t: string) returns (sign: string, d: string)
    requires ParseSigned(t).Some?
    ensures t == sign + d && (sign == "" || sign == "+" || sign == "-")
    ensures |d| > 0 && AllDigits(d) && ParseSigned(t) == Some(Signed(sign, d))
  {
    if t[0] == '-' || t[0] == '+' {
      sign, d := t[..1], t[1..];
    } else {
      sign, d := "", t;
    }
  }

  /** A string is its three consecutive slices. */
  lemma Cut3(s: string, k: nat, m: nat)
    requires k <= |s| && m <= |s| - k
    ensures s == s[..k] + s[k..][..m] + s[k..][m..]
  {
    assert s[k..] == s[k..][..m] + s[k..][m..];
    assert s == s[..k] + s[k..];
  }

  /** Stripping removes only whitespace, from either end. */
  lemma StripSplit(s: string) returns (a: string, b: string)
    ensures AllSpace(a) && AllSpace(b) && s == a + StripRight(StripLeft(s)) + b
  {
    var k := LeadingSpaces(s);
    var m := TrailingStart(s[k..]);
    Cut3(s, k, m);
    a, b := s[..k], s[k..][m..];
  }

  /** `int()` accepts nothing but integer literals: whenever it yields a value, the text splits
      into whitespace, an optional sign, digits and whitespace, and the value is the signed one. */
  lemma ParseIntSound(s: string)
    requires ParseInt(s).Some?
    ensures exists a, sign, d, b :: LiteralSplit(s, a, sign, d, b) && ParseInt(s).value == Signed(sign, d)
  {
    var t := StripRight(StripLeft(s));
    var a, b := StripSplit(s);
    var sign, d := SignedSplit(t);
    assert s == a + sign + d + b by {
      assert a + t == a + sign + d;
    }
    assert LiteralSplit(s, a, sign, d, b);
  }
}
