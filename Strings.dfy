/**
 The string operations the orchestrators rely on: Python's `sub in s`, the
 `s[:limit] + "..." if len(s) > limit else s` truncation, and the decimal
 rendering of a natural number inside an f-string.

 Strings are sequences of Unicode scalar values, as Python's `str` is, so `|s|`
 is Python's `len(s)`.
 */
module Strings {

  /** `sub` occurs in `s` starting at offset `i`. */
  predicate OccursAt(s: string, sub: string, i: int)
  {
    0 <= i && i + |sub| <= |s| && s[i..i + |sub|] == sub
  }

  /** Python's `sub in s`: some offset where `sub` occurs. Nothing longer
      than the string occurs in it. */
  predicate Contains(s: string, sub: string)
    ensures Contains(s, sub) ==> |sub| <= |s|
  {
    exists i | 0 <= i <= |s| - |sub| :: OccursAt(s, sub, i)
  }

  /** An occurrence in the right operand is an occurrence in the concatenation. */
  lemma ContainsInSuffix(a: string, b: string, sub: string)
    requires Contains(b, sub)
    ensures Contains(a + b, sub)
  {
    var i :| 0 <= i <= |b| - |sub| && OccursAt(b, sub, i);
    assert (a + b)[|a| + i..|a| + i + |sub|] == b[i..i + |sub|];
    assert OccursAt(a + b, sub, |a| + i);
  }

  /** An occurrence in the left operand is an occurrence in the concatenation. */
  lemma ContainsInPrefix(a: string, b: string, sub: string)
    requires Contains(a, sub)
    ensures Contains(a + b, sub)
  {
    var i :| 0 <= i <= |a| - |sub| && OccursAt(a, sub, i);
    assert (a + b)[i..i + |sub|] == a[i..i + |sub|];
    assert OccursAt(a + b, sub, i);
  }

  /** A string cannot contain a pattern one of whose characters it lacks. */
  lemma MissingCharNotContained(s: string, sub: string, c: char)
    requires c in sub && c !in s
    ensures !Contains(s, sub)
  {
    var k :| 0 <= k < |sub| && sub[k] == c;
    forall i: int ensures !OccursAt(s, sub, i) {
      if 0 <= i && i + |sub| <= |s| {
        assert s[i..i + |sub|][k] == s[i + k];
      }
    }
  }

  /** No non-empty proper prefix of `sub` is a suffix of `a`: an occurrence of
      `sub` in `a + b` cannot straddle the boundary. */
  ghost predicate NoStraddle(a: string, sub: string)
  {
    forall m :: 0 < m < |sub| && m <= |a| ==> a[|a| - m..] != sub[..m]
  }

  /** An occurrence that starts in `a` and ends in `b` puts a proper prefix of
      `sub` at the end of `a`. */
  lemma StraddlingPrefix(a: string, b: string, sub: string, i: int)
    requires OccursAt(a + b, sub, i) && i < |a| < i + |sub|
    ensures a[|a| - (|a| - i)..] == sub[..|a| - i]
  {
    assert a[i..] == (a + b)[i..i + |sub|][..|a| - i];
  }

  /** Without straddling, `a + b` contains `sub` exactly when one operand does. */
  lemma ContainsConcat(a: string, b: string, sub: string)
    requires NoStraddle(a, sub)
    ensures Contains(a + b, sub) <==> Contains(a, sub) || Contains(b, sub)
  {
    if Contains(a + b, sub) {
      var i :| 0 <= i <= |a + b| - |sub| && OccursAt(a + b, sub, i);
      if i + |sub| <= |a| {
        assert a[i..i + |sub|] == (a + b)[i..i + |sub|];
        assert OccursAt(a, sub, i);
      } else if i >= |a| {
        var j := i - |a|;
        assert 0 <= j && j + |sub| <= |b|;
        assert b[j..j + |sub|] == (a + b)[i..i + |sub|] == sub;
        assert OccursAt(b, sub, j);
      } else {
        StraddlingPrefix(a, b, sub, i);
        assert false;
      }
    }
    if Contains(a, sub) { ContainsInPrefix(a, b, sub); }
    if Contains(b, sub) { ContainsInSuffix(a, b, sub); }
  }

  /** A left operand that ends in ": " cannot start a straddling occurrence of a
      pattern that has no ':' and does not start with a space. */
  lemma ColonSpaceNoStraddle(a: string, sub: string)
    requires |a| >= 2 && a[|a| - 2] == ':' && a[|a| - 1] == ' '
    requires |sub| > 0 && sub[0] != ' ' && ':' !in sub
    ensures NoStraddle(a, sub)
  {
    forall m | 0 < m < |sub| && m <= |a| ensures a[|a| - m..] != sub[..m] {
      if m == 1 {
        assert a[|a| - m..][0] == ' ';
      } else {
        assert a[|a| - m..][m - 2] == ':';
        assert sub[..m][m - 2] == sub[m - 2];
      }
    }
  }

  /** Python's `s[:limit] + "..." if len(s) > limit else s`: the conditional
      expression binds looser than `+`, so the ellipsis is only added to a cut. */
  function Truncate(s: string, limit: nat): (r: string)
    ensures |r| <= limit + 3
    ensures |s| <= limit ==> r == s
    ensures |s| > limit ==> |r| == limit + 3 && r[..limit] == s[..limit] && r[limit..] == "..."
  {
    if |s| > limit then s[..limit] + "..." else s
  }

  /** Whatever the input, the truncated text starts with a prefix of the original
      of length min(len, limit) and never is longer than `limit + 3`. */
  lemma TruncateKeepsPrefix(s: string, limit: nat)
    ensures var n := if |s| <= limit then |s| else limit;
            n <= |Truncate(s, limit)| && Truncate(s, limit)[..n] == s[..n]
  {
  }

  /** The character of a decimal digit. */
  function DigitChar(d: nat): (c: char)
    requires d < 10
    ensures '0' <= c <= '9'
  {
    "0123456789"[d]
  }

  /** Python's `str(n)` for a natural number. */
  function DecimalString(n: nat): (r: string)
    ensures 1 <= |r|
    ensures forall i :: 0 <= i < |r| ==> '0' <= r[i] <= '9'
    decreases n
  {
    if n < 10 then [DigitChar(n)] else DecimalString(n / 10) + [DigitChar(n % 10)]
  }

  /** The number a digit string spells, most significant digit first. */
  function DecimalValue(r: string): (n: nat)
    requires forall i :: 0 <= i < |r| ==> '0' <= r[i] <= '9'
    decreases |r|
  {
    if r == [] then 0
    else DecimalValue(r[..|r| - 1]) * 10 + ((r[|r| - 1] as int) - ('0' as int))
  }

  /** Reading the rendering back gives the number rendered. */
  lemma {:induction false} DecimalStringReadsBack(n: nat)
    ensures DecimalValue(DecimalString(n)) == n
    decreases n
  {
    var r := DecimalString(n);
    if n < 10 {
      assert r[..0] == [];
    } else {
      DecimalStringReadsBack(n / 10);
      assert r[..|r| - 1] == DecimalString(n / 10);
    }
  }

  /** The constant the bounded waiter's timeout message quotes. */
  lemma DecimalStringOf120()
    ensures DecimalString(120) == "120"
  {
    assert DecimalString(1) == "1";
    assert DecimalString(12) == DecimalString(1) + [DigitChar(2)];
    assert DecimalString(120) == DecimalString(12) + [DigitChar(0)];
  }
}
