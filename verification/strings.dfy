/** The string primitives the design engine relies on: ASCII case mapping,
    substring search (Python's `t in s`) and decimal rendering of integers
    (what an f-string does with an `int`). */
module Strings {

  function UpperChar(c: char): char {
    if 'a' <= c <= 'z' then (c as int - 32) as char else c
  }

  function LowerChar(c: char): char {
    if 'A' <= c <= 'Z' then (c as int + 32) as char else c
  }

  /** `s.upper()`, restricted to ASCII letters. */
  function Upper(s: string): string {
    seq(|s|, i requires 0 <= i < |s| => UpperChar(s[i]))
  }

  /** `s.lower()`, restricted to ASCII letters. */
  function Lower(s: string): string {
    seq(|s|, i requires 0 <= i < |s| => LowerChar(s[i]))
  }

  /** Two characters look the same upper-cased exactly when they look the same lower-cased. */
  lemma CaseFoldsAgree(c: char, d: char)
    ensures UpperChar(c) == UpperChar(d) <==> LowerChar(c) == LowerChar(d)
  {
  }

  /** Strings equal after lower-casing are equal after upper-casing. */
  lemma UpperFromLower(s: string, t: string)
    requires Lower(s) == Lower(t)
    ensures Upper(s) == Upper(t)
  {
    assert |s| == |Lower(s)| == |Lower(t)| == |t|;
    forall i | 0 <= i < |s|
      ensures Upper(s)[i] == Upper(t)[i]
    {
      assert Lower(s)[i] == Lower(t)[i];
      CaseFoldsAgree(s[i], t[i]);
    }
  }

  /** Whether `t` occurs in `s` as a contiguous run: Python's `t in s`. */
  function Contains(s: string, t: string): bool
    decreases |s|
  {
    (|t| <= |s| && s[..|t|] == t) || (|s| > 0 && Contains(s[1..], t))
  }

  /** `t` stands in `s` starting at position `i`. */
  ghost predicate OccursAt(s: string, t: string, i: int) {
    0 <= i <= |s| - |t| && s[i..i + |t|] == t
  }

  /** Reference definition of a substring occurrence, by position. */
  ghost predicate Occurs(s: string, t: string) {
    exists i :: OccursAt(s, t, i)
  }

  lemma {:induction false} ContainsIffOccurs(s: string, t: string)
    ensures Contains(s, t) <==> Occurs(s, t)
    decreases |s|
  {
    if |s| == 0 {
      if Occurs(s, t) {
        var i :| OccursAt(s, t, i);
        assert |t| == 0 && t == [];
      }
      if Contains(s, t) {
        assert OccursAt(s, t, 0);
      }
    } else {
      ContainsIffOccurs(s[1..], t);
      if |t| <= |s| && s[..|t|] == t {
        assert OccursAt(s, t, 0);
      }
      if Contains(s[1..], t) {
        var i :| OccursAt(s[1..], t, i);
        assert s[i + 1..i + 1 + |t|] == t;
        assert OccursAt(s, t, i + 1);
      }
      if Occurs(s, t) {
        var i :| OccursAt(s, t, i);
        if i > 0 {
          assert s[1..][i - 1..i - 1 + |t|] == t;
          assert OccursAt(s[1..], t, i - 1);
        } else {
          assert s[..|t|] == t;
        }
      }
    }
  }

  /** `t` occurs in `a + t + b` for any `a` and `b`. */
  lemma ContainsInside(a: string, t: string, b: string)
    ensures Contains(a + t + b, t)
  {
    var s := a + t + b;
    assert s[|a|..|a| + |t|] == t;
    assert OccursAt(s, t, |a|);
    ContainsIffOccurs(s, t);
  }

  /** A string cannot contain a pattern with a character it lacks. */
  lemma AbsentCharExcludes(s: string, t: string, c: char)
    requires c in t && c !in s
    ensures !Contains(s, t)
  {
    var k :| 0 <= k < |t| && t[k] == c;
    forall i | 0 <= i <= |s| - |t|
      ensures !OccursAt(s, t, i)
    {
      assert s[i..i + |t|][k] == s[i + k];
    }
    ContainsIffOccurs(s, t);
  }

  function DigitChar(d: int): char
    requires 0 <= d <= 9
  {
    ('0' as int + d) as char
  }

  /** Decimal digits of a natural number, most significant first. */
  function NatText(n: nat): (s: string)
    ensures |s| > 0
    ensures forall i :: 0 <= i < |s| ==> '0' <= s[i] <= '9'
    decreases n
  {
    if n < 10 then [DigitChar(n)] else NatText(n / 10) + [DigitChar(n % 10)]
  }

  /** `str(n)` / `f"{n}"` for a Python `int`. */
  function DecimalText(n: int): (s: string)
    ensures |s| > 0 && (s[0] == '-' <==> n < 0)
    ensures forall i :: 0 < i < |s| ==> '0' <= s[i] <= '9'
  {
    if n < 0 then "-" + NatText(-n) else NatText(n)
  }

  function ParseNat(s: string): int
    decreases |s|
  {
    if s == [] then 0 else ParseNat(s[..|s| - 1]) * 10 + (s[|s| - 1] as int - '0' as int)
  }

  function ParseDecimal(s: string): int {
    if |s| > 0 && s[0] == '-' then -ParseNat(s[1..]) else ParseNat(s)
  }

  lemma {:induction false} NatTextRoundTrip(n: nat)
    ensures ParseNat(NatText(n)) == n
    decreases n
  {
    if n >= 10 {
      NatTextRoundTrip(n / 10);
      var s := NatText(n);
      assert s[..|s| - 1] == NatText(n / 10);
    }
  }

  /** The rendering of an integer is unambiguous: it parses back to the same integer. */
  lemma DecimalTextRoundTrip(n: int)
    ensures ParseDecimal(DecimalText(n)) == n
  {
    if n < 0 {
      NatTextRoundTrip(-n);
      assert ("-" + NatText(-n))[1..] == NatText(-n);
    } else {
      NatTextRoundTrip(n);
      assert NatText(n)[0] != '-';
    }
  }
}
