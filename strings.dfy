/** Python's ordering of `str` values and the decimal rendering of `int`. */
module Strings {

  /** Python's `a < b` on `str`: lexicographic comparison by code point. */
  predicate Less(a: string, b: string)
    decreases |a|
  {
    if |a| == 0 then |b| > 0
    else |b| > 0 && (a[0] < b[0] || (a[0] == b[0] && Less(a[1..], b[1..])))
  }

  /** Python's `max(a, b)`: the second argument replaces the first only when strictly greater. */
  function Max(a: string, b: string): (r: string)
    ensures r == a || r == b
    ensures !Less(r, a) && !Less(r, b)
  {
    LessTotal(a, b);
    LessAsymmetric(a, b);
    LessIrreflexive(a);
    LessIrreflexive(b);
    if Less(a, b) then b else a
  }

  /** Python's `min(a, b)`: the second argument replaces the first only when strictly smaller. */
  function Min(a: string, b: string): (r: string)
    ensures r == a || r == b
    ensures !Less(a, r) && !Less(b, r)
  {
    LessTotal(a, b);
    LessAsymmetric(a, b);
    LessIrreflexive(a);
    LessIrreflexive(b);
    if Less(b, a) then b else a
  }

  lemma {:induction false} LessIrreflexive(a: string)
    ensures !Less(a, a)
  {
    if |a| > 0 {
      LessIrreflexive(a[1..]);
    }
  }

  lemma {:induction false} LessAsymmetric(a: string, b: string)
    ensures Less(a, b) ==> !Less(b, a)
  {
    if |a| > 0 && |b| > 0 && a[0] == b[0] {
      LessAsymmetric(a[1..], b[1..]);
    }
  }

  lemma {:induction false} LessTransitive(a: string, b: string, c: string)
    requires Less(a, b) && Less(b, c)
    ensures Less(a, c)
  {
    if |a| > 0 && a[0] == b[0] && b[0] == c[0] {
      LessTransitive(a[1..], b[1..], c[1..]);
    }
  }

  lemma {:induction false} LessTotal(a: string, b: string)
    ensures a == b || Less(a, b) || Less(b, a)
  {
    if |a| > 0 && |b| > 0 && a[0] == b[0] {
      LessTotal(a[1..], b[1..]);
      if a[1..] == b[1..] {
        assert a == [a[0]] + a[1..] && b == [b[0]] + b[1..];
      }
    }
  }

  /** Comparing two strings that share a prefix is comparing what follows it. */
  lemma {:induction false} LessCommonPrefix(p: string, a: string, b: string)
    ensures Less(p + a, p + b) <==> Less(a, b)
  {
    if |p| > 0 {
      assert (p + a)[1..] == p[1..] + a;
      assert (p + b)[1..] == p[1..] + b;
      LessCommonPrefix(p[1..], a, b);
    } else {
      assert p + a == a && p + b == b;
    }
  }

  /** When two strings of one length are ordered, anything appended keeps them ordered. */
  lemma {:induction false} LessAppend(a: string, b: string, x: string, y: string)
    requires |a| == |b| && Less(a, b)
    ensures Less(a + x, b + y)
  {
    assert (a + x)[0] == a[0] && (b + y)[0] == b[0];
    if a[0] == b[0] {
      assert (a + x)[1..] == a[1..] + x;
      assert (b + y)[1..] == b[1..] + y;
      LessAppend(a[1..], b[1..], x, y);
    }
  }

  /** A map into strings that is strictly monotone reflects the order in both directions. */
  lemma LessMatchesOrder(s1: string, s2: string, t1: int, t2: int)
    requires t1 < t2 ==> Less(s1, s2)
    requires t2 < t1 ==> Less(s2, s1)
    requires t1 == t2 ==> s1 == s2
    ensures Less(s1, s2) <==> t1 < t2
  {
    if t2 < t1 {
      LessAsymmetric(s2, s1);
    } else if t1 == t2 {
      LessIrreflexive(s1);
    }
  }

  /** Strings built as separator, field, rest: ordered by the field, or by the rest when the fields agree. */
  lemma FieldLess(sep: string, xa: string, xb: string, ta: string, tb: string)
    requires |xa| == |xb|
    requires Less(xa, xb) || (xa == xb && Less(ta, tb))
    ensures Less(sep + xa + ta, sep + xb + tb)
  {
    assert sep + xa + ta == sep + (xa + ta);
    assert sep + xb + tb == sep + (xb + tb);
    LessCommonPrefix(sep, xa + ta, xb + tb);
    if Less(xa, xb) {
      LessAppend(xa, xb, ta, tb);
    } else {
      LessCommonPrefix(xa, ta, tb);
    }
  }

  /** The decimal digit character for `d`. */
  function DigitChar(d: int): (c: char)
    requires 0 <= d <= 9
    ensures '0' <= c <= '9' && c as int - '0' as int == d
  {
    ('0' as int + d) as char
  }

  /** Python's `str(n)` for a nonnegative integer. */
  function NatToString(n: nat): (s: string)
    ensures |s| > 0
    ensures forall i :: 0 <= i < |s| ==> '0' <= s[i] <= '9'
  {
    if n < 10 then [DigitChar(n)] else NatToString(n / 10) + [DigitChar(n % 10)]
  }

  /** Python's `str(i)` for any integer. */
  function IntToString(i: int): (s: string)
    ensures |s| > 0
  {
    if i < 0 then "-" + NatToString(-i) else NatToString(i)
  }

  /** The value of a string of decimal digits, read most significant first. */
  function DigitsValue(s: string): (v: nat)
    requires forall i :: 0 <= i < |s| ==> '0' <= s[i] <= '9'
  {
    if |s| == 0 then 0 else DigitsValue(s[..|s| - 1]) * 10 + (s[|s| - 1] as int - '0' as int)
  }

  /** Rendering a natural number and reading its digits back gives the number. */
  lemma {:induction false} NatToStringRoundTrip(n: nat)
    ensures DigitsValue(NatToString(n)) == n
  {
    var s := NatToString(n);
    if n >= 10 {
      NatToStringRoundTrip(n / 10);
      assert s[..|s| - 1] == NatToString(n / 10);
    }
  }

  /** Different natural numbers print differently. */
  lemma NatToStringInjective(a: nat, b: nat)
    ensures NatToString(a) == NatToString(b) ==> a == b
  {
    NatToStringRoundTrip(a);
    NatToStringRoundTrip(b);
  }

  /** `str()` of an integer determines it: different integers print differently. */
  lemma {:induction false} IntToStringInjective(a: int, b: int)
    ensures IntToString(a) == IntToString(b) <==> a == b
  {
    if IntToString(a) == IntToString(b) {
      assert IntToString(a)[0] == '-' <==> a < 0;
      assert IntToString(b)[0] == '-' <==> b < 0;
      if a < 0 && b < 0 {
        assert IntToString(a)[1..] == NatToString(-a);
        assert IntToString(b)[1..] == NatToString(-b);
        NatToStringInjective(-a, -b);
      } else if a >= 0 && b >= 0 {
        NatToStringInjective(a, b);
      }
    }
  }
}
