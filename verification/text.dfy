/**
 * Text helpers the source relies on through Python built-ins: `str.lower`,
 * the `in` substring test, and `str(int)` inside f-strings.
 */
module Text {

  /** Lower-cases one ASCII letter; every other character is kept. */
  function LowerChar(c: char): char
  {
    if 'A' <= c <= 'Z' then (c as int - 'A' as int + 'a' as int) as char else c
  }

  /** `s.lower()` restricted to ASCII letters. */
  function Lower(s: string): (r: string)
    ensures |r| == |s|
    ensures forall i :: 0 <= i < |s| ==> r[i] == LowerChar(s[i])
  {
    seq(|s|, i requires 0 <= i < |s| => LowerChar(s[i]))
  }

  /** Lower-casing commutes with taking a slice. */
  lemma LowerSlice(s: string, i: int, j: int)
    requires 0 <= i <= j <= |s|
    ensures Lower(s)[i..j] == Lower(s[i..j])
  {
  }

  /** `t` occurs in `s` starting at index `i`. */
  predicate SubstringAt(s: string, t: string, i: int)
  {
    0 <= i && i + |t| <= |s| && s[i..i + |t|] == t
  }

  lemma SubstringShift(s: string, t: string)
    requires |s| >= 1
    ensures forall j :: 0 <= j ==> (SubstringAt(s[1..], t, j) <==> SubstringAt(s, t, j + 1))
  {
  }

  /** Python's `t in s` for strings: some position of `s` starts a copy of `t`. */
  function Contains(s: string, t: string): (b: bool)
    ensures b <==> exists i :: SubstringAt(s, t, i)
    decreases |s|
  {
    if |s| < |t| then false
    else if s[..|t|] == t then
      assert SubstringAt(s, t, 0);
      true
    else
      SubstringShift(s, t);
      assert !SubstringAt(s, t, 0);
      var b := Contains(s[1..], t);
      assert b ==> exists i :: SubstringAt(s, t, i) by {
        if b {
          var j :| SubstringAt(s[1..], t, j);
          assert SubstringAt(s, t, j + 1);
        }
      }
      assert (exists i :: SubstringAt(s, t, i)) ==> b by {
        if exists i :: SubstringAt(s, t, i) {
          var i :| SubstringAt(s, t, i);
          assert i != 0;
          assert SubstringAt(s[1..], t, i - 1);
        }
      }
      b
  }

  /** Case-insensitive containment, as Python's `t.lower() in s.lower()`
      and the database's `icontains` lookup compute it. */
  function IContains(s: string, t: string): (b: bool)
    ensures b <==> exists i :: SubstringAt(Lower(s), Lower(t), i)
  {
    Contains(Lower(s), Lower(t))
  }

  predicate IsDigit(c: char)
  {
    '0' <= c <= '9'
  }

  function DigitChar(d: nat): (c: char)
    requires d < 10
    ensures IsDigit(c)
  {
    "0123456789"[d]
  }

  function DigitValue(c: char): nat
    requires IsDigit(c)
  {
    c as int - '0' as int
  }

  /** Decimal text of a natural number, as `str(n)` writes it. */
  function NatToString(n: nat): (s: string)
    ensures |s| >= 1
    ensures forall i :: 0 <= i < |s| ==> IsDigit(s[i])
    ensures s[0] != '0' || n == 0
    decreases n
  {
    if n < 10 then [DigitChar(n)] else NatToString(n / 10) + [DigitChar(n % 10)]
  }

  /** Reads a string of decimal digits back as a number. */
  function DigitsValue(s: string): nat
    requires forall i :: 0 <= i < |s| ==> IsDigit(s[i])
  {
    if |s| == 0 then 0 else DigitsValue(s[..|s| - 1]) * 10 + DigitValue(s[|s| - 1])
  }

  /** Reading back the decimal text of `n` gives `n`. */
  lemma {:induction false} NatToStringRoundTrip(n: nat)
    ensures DigitsValue(NatToString(n)) == n
    decreases n
  {
    if n >= 10 {
      var prefix := NatToString(n / 10);
      var s := NatToString(n);
      assert s == prefix + [DigitChar(n % 10)];
      assert s[..|s| - 1] == prefix;
      NatToStringRoundTrip(n / 10);
    }
  }

  /** Decimal digits, with a leading minus sign before at least one digit allowed. */
  predicate IsSignedDecimal(s: string)
  {
    if |s| >= 1 && s[0] == '-' then |s| >= 2 && forall i :: 1 <= i < |s| ==> IsDigit(s[i])
    else |s| >= 1 && forall i :: 0 <= i < |s| ==> IsDigit(s[i])
  }

  /** Reads signed decimal text back as a number, as `int(s)` does. */
  function IntValue(s: string): int
    requires IsSignedDecimal(s)
  {
    if s[0] == '-' then -(DigitsValue(s[1..]) as int) else DigitsValue(s)
  }

  /** `str(i)` for a Python int: a minus sign before the digits of a negative value. */
  function IntToString(i: int): (s: string)
    ensures IsSignedDecimal(s)
    ensures s[0] == '-' <==> i < 0
    ensures var d := if i < 0 then s[1..] else s; d[0] != '0' || d == "0"
  {
    if i < 0 then "-" + NatToString(-i) else NatToString(i)
  }

  /** A minus sign followed by digits reads back as the negated digits' value. */
  lemma NegativeValue(n: string)
    requires |n| >= 1 && forall i :: 0 <= i < |n| ==> IsDigit(n[i])
    ensures IsSignedDecimal("-" + n) && IntValue("-" + n) == -(DigitsValue(n) as int)
  {
    assert ("-" + n)[1..] == n;
  }

  /** Reading back the text of `i` gives `i`. */
  lemma IntToStringRoundTrip(i: int)
    ensures IntValue(IntToString(i)) == i
  {
    if i < 0 {
      var m: nat := -i;
      var n := NatToString(m);
      NatToStringRoundTrip(m);
      NegativeValue(n);
      assert IntToString(i) == "-" + n;
    } else {
      var m: nat := i;
      var n := NatToString(m);
      NatToStringRoundTrip(m);
      assert IntToString(i) == n && n[0] != '-';
      assert IntValue(n) == DigitsValue(n);
    }
  }
}
