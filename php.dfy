/** The few PHP built-ins whose behaviour the two adapters depend on:
    `explode(',', ...)`, `strtolower`, `intval`, `strval` of an integer, and the
    truthiness test `!$x` on a string. */
module Php {

  const PhpIntMax: int := 0x7FFF_FFFF_FFFF_FFFF
  const PhpIntMin: int := -0x8000_0000_0000_0000

  /** A PHP integer on a 64-bit platform. */
  type PhpInt = n: int | PhpIntMin <= n <= PhpIntMax

  /** An amount as a caller hands it to `set()`: an integer or a string. */
  datatype Amount = IntAmount(value: PhpInt) | StringAmount(text: string)

  /** `(bool)$s` for a string: only "" and "0" are false. */
  predicate Truthy(s: string)
  {
    s != "" && s != "0"
  }

  // ---------------------------------------------------------------------------
  // explode / implode with the delimiter ','

  /** `implode(',', pieces)`. */
  function Implode(pieces: seq<string>): string
    requires |pieces| >= 1
  {
    if |pieces| == 1 then pieces[0] else pieces[0] + "," + Implode(pieces[1..])
  }

  /** `explode(',', s)`: the maximal comma-free pieces of `s`, in order (a piece may be
      empty); there is always at least one piece. */
  function Explode(s: string): (pieces: seq<string>)
    ensures |pieces| >= 1
    ensures forall i :: 0 <= i < |pieces| ==> ',' !in pieces[i]
    ensures Implode(pieces) == s
  {
    if s == [] then [""]
    else
      var rest := Explode(s[1..]);
      if s[0] == ',' then
        assert "" + "," + s[1..] == s;
        [""] + rest
      else
        var pieces := [[s[0]] + rest[0]] + rest[1..];
        assert pieces[1..] == rest[1..];
        if |rest| == 1 then pieces
        else
          assert Implode(pieces) == [s[0]] + (rest[0] + "," + Implode(rest[1..]));
          pieces
  }

  /** A comma-free string is one piece. */
  lemma {:induction false} ExplodeWithoutComma(a: string)
    requires ',' !in a
    ensures Explode(a) == [a]
  {
    if a != [] {
      ExplodeWithoutComma(a[1..]);
      assert [a[0]] + a[1..] == a;
    }
  }

  /** Text before the first comma is the first piece; the rest is exploded on its own. */
  lemma {:induction false} ExplodeAtComma(a: string, b: string)
    requires ',' !in a
    ensures Explode(a + "," + b) == [a] + Explode(b)
  {
    if a == [] {
      assert a + "," + b == [','] + b;
      assert (a + "," + b)[1..] == b;
    } else {
      assert (a + "," + b)[1..] == a[1..] + "," + b;
      ExplodeAtComma(a[1..], b);
      assert [a[0]] + a[1..] == a;
    }
  }

  /** explode undoes implode on comma-free pieces (the other direction is in Explode's contract). */
  lemma {:induction false} ExplodeImplode(pieces: seq<string>)
    requires |pieces| >= 1
    requires forall i :: 0 <= i < |pieces| ==> ',' !in pieces[i]
    ensures Explode(Implode(pieces)) == pieces
  {
    if |pieces| == 1 {
      ExplodeWithoutComma(pieces[0]);
    } else {
      assert ',' !in pieces[0];
      ExplodeAtComma(pieces[0], Implode(pieces[1..]));
      ExplodeImplode(pieces[1..]);
      assert [pieces[0]] + pieces[1..] == pieces;
    }
  }

  // ---------------------------------------------------------------------------
  // strtolower (ASCII letters only)

  function LowerChar(c: char): char
  {
    if 'A' <= c <= 'Z' then (c as int + 32) as char else c
  }

  function UpperChar(c: char): char
  {
    if 'a' <= c <= 'z' then (c as int - 32) as char else c
  }

  /** `strtolower(s)`: every ASCII capital replaced by its small letter, nothing else changed. */
  function StrToLower(s: string): (r: string)
    ensures |r| == |s|
    ensures forall i :: 0 <= i < |s| ==> r[i] == LowerChar(s[i])
  {
    if s == [] then [] else [LowerChar(s[0])] + StrToLower(s[1..])
  }

  /** `s` spells `w` with any of its letters in either case. */
  predicate IsCaseVariantOf(s: string, w: string)
  {
    |s| == |w| && forall i :: 0 <= i < |s| ==> s[i] == w[i] || s[i] == UpperChar(w[i])
  }

  predicate HasNoCapital(w: string)
  {
    forall i :: 0 <= i < |w| ==> !('A' <= w[i] <= 'Z')
  }

  lemma LowerCharMatches(c: char, x: char)
    requires !('A' <= x <= 'Z')
    ensures LowerChar(c) == x <==> c == x || c == UpperChar(x)
  {
  }

  /** Comparing `strtolower(s)` with a word in small letters is a case-insensitive comparison. */
  lemma StrToLowerMatches(s: string, w: string)
    requires HasNoCapital(w)
    ensures StrToLower(s) == w <==> IsCaseVariantOf(s, w)
  {
    if |s| == |w| {
      forall i | 0 <= i < |s|
        ensures StrToLower(s)[i] == w[i] <==> s[i] == w[i] || s[i] == UpperChar(w[i])
      {
        LowerCharMatches(s[i], w[i]);
      }
      if IsCaseVariantOf(s, w) {
        assert forall i :: 0 <= i < |s| ==> StrToLower(s)[i] == w[i];
      }
    }
  }

  // ---------------------------------------------------------------------------
  // intval and strval

  predicate IsDigit(c: char)
  {
    '0' <= c <= '9'
  }

  predicate AllDigits(d: string)
  {
    forall i :: 0 <= i < |d| ==> IsDigit(d[i])
  }

  predicate IsSpace(c: char)
  {
    c == ' ' || c == '\t' || c == '\n' || c == '\r' || c == '\U{000B}' || c == '\U{000C}'
  }

  /** `s` without its leading white space. */
  function SkipSpace(s: string): (t: string)
    ensures |t| <= |s| && t == s[|s| - |t|..]
    ensures t == [] || !IsSpace(t[0])
  {
    if s != [] && IsSpace(s[0]) then SkipSpace(s[1..]) else s
  }

  /** The longest prefix of `s` made of decimal digits. */
  function DigitPrefix(s: string): (d: string)
    ensures d <= s && AllDigits(d)
    ensures |d| == |s| || !IsDigit(s[|d|])
  {
    if s != [] && IsDigit(s[0]) then [s[0]] + DigitPrefix(s[1..]) else []
  }

  /** The number a string of decimal digits denotes. */
  function DigitsValue(d: string): nat
    requires AllDigits(d)
  {
    if d == [] then 0 else DigitsValue(d[..|d| - 1]) * 10 + (d[|d| - 1] as int - '0' as int)
  }

  /** PHP's conversion of an out-of-range integer string, which saturates. */
  function Clamp(n: int): PhpInt
  {
    if n < PhpIntMin then PhpIntMin else if n > PhpIntMax then PhpIntMax else n
  }

  /** The value of the signed decimal integer at the start of `t`, 0 when there is none. */
  function LeadingInteger(t: string): int
  {
    if t != [] && t[0] == '-' then 0 - DigitsValue(DigitPrefix(t[1..]))
    else if t != [] && t[0] == '+' then DigitsValue(DigitPrefix(t[1..]))
    else DigitsValue(DigitPrefix(t))
  }

  /** `intval(a)`: an integer is kept; a string gives the value of its leading
      signed decimal integer (after white space), saturated to the PHP range. */
  function IntVal(a: Amount): (n: PhpInt)
    ensures a.IntAmount? ==> n == a.value
  {
    match a
    case IntAmount(v) => v
    case StringAmount(s) => Clamp(LeadingInteger(SkipSpace(s)))
  }

  /** A string without a single digit converts to 0. */
  lemma IntValNoDigits(s: string)
    requires forall i :: 0 <= i < |s| ==> !IsDigit(s[i])
    ensures IntVal(StringAmount(s)) == 0
  {
    var t := SkipSpace(s);
    assert forall i :: 0 <= i < |t| ==> t[i] == s[|s| - |t| + i];
    if t != [] && (t[0] == '-' || t[0] == '+') {
      assert |t| == 1 || !IsDigit(t[1..][0]);
    }
  }

  function DigitChar(d: int): char
    requires 0 <= d < 10
  {
    ('0' as int + d) as char
  }

  /** The decimal digits of `m`, without leading zeros. */
  function Digits(m: nat): (d: string)
    ensures |d| >= 1 && AllDigits(d)
  {
    if m < 10 then [DigitChar(m)] else Digits(m / 10) + [DigitChar(m % 10)]
  }

  /** `strval(n)` for an integer `n`. */
  function Decimal(n: int): string
  {
    if n < 0 then "-" + Digits(-n) else Digits(n)
  }

  lemma {:induction false} DigitsValueOfDigits(m: nat)
    ensures DigitsValue(Digits(m)) == m
  {
    if m >= 10 {
      var d := Digits(m);
      assert d[..|d| - 1] == Digits(m / 10);
      DigitsValueOfDigits(m / 10);
    }
  }

  lemma {:induction false} DigitPrefixStopsAt(d: string, rest: string)
    requires AllDigits(d)
    requires rest == [] || !IsDigit(rest[0])
    ensures DigitPrefix(d + rest) == d
  {
    if d != [] {
      assert (d + rest)[1..] == d[1..] + rest;
      DigitPrefixStopsAt(d[1..], rest);
      assert [d[0]] + d[1..] == d;
    }
  }

  /** The leading integer of a digit string followed by non-digit text is its value. */
  lemma LeadingIntegerOfDigits(m: nat, rest: string)
    requires rest == [] || !IsDigit(rest[0])
    ensures LeadingInteger(Digits(m) + rest) == m
  {
    var ds := Digits(m);
    var t := ds + rest;
    assert t[0] == ds[0];
    DigitPrefixStopsAt(ds, rest);
    DigitsValueOfDigits(m);
  }

  /** The same with a minus sign in front. */
  lemma LeadingIntegerOfNegative(m: nat, rest: string)
    requires rest == [] || !IsDigit(rest[0])
    ensures LeadingInteger("-" + Digits(m) + rest) == 0 - m
  {
    var ds := Digits(m);
    var t := "-" + ds + rest;
    assert t[0] == '-' && t[1..] == ds + rest;
    DigitPrefixStopsAt(ds, rest);
    DigitsValueOfDigits(m);
  }

  /** The leading integer of `strval(n)` followed by non-digit text is `n`. */
  lemma LeadingIntegerOfDecimal(n: int, rest: string)
    requires rest == [] || !IsDigit(rest[0])
    ensures LeadingInteger(Decimal(n) + rest) == n
  {
    if n < 0 {
      LeadingIntegerOfNegative(-n, rest);
    } else {
      LeadingIntegerOfDigits(n, rest);
    }
  }

  /** This model's `intval` reads back what `strval` wrote, whatever non-digit text
      follows it. (PHP itself also reads a following `.` fraction or `e` exponent.) */
  lemma IntValDecimal(n: PhpInt, rest: string)
    requires rest == [] || !IsDigit(rest[0])
    ensures IntVal(StringAmount(Decimal(n) + rest)) == n
  {
    var s := Decimal(n) + rest;
    assert s[0] == '-' || IsDigit(s[0]) by {
      if n >= 0 { assert s[0] == Digits(n)[0]; }
    }
    assert SkipSpace(s) == s;
    LeadingIntegerOfDecimal(n, rest);
  }
}
