/** The few string operations the viewer relies on: Python's substring test
    `t in s`, decimal formatting `f'{n}'` and `f'{n:02d}'`, `int(text)` on a
    string of decimal digits, `s.split(sep)[0]` and `str.lower()`. */
module Text {
  import opened Wrappers

  /** `s[k + j..k + |t|] == t[j..]`, compared one character at a time so that
      it evaluates on literal strings. */
  predicate MatchAt(s: string, t: string, k: nat, j: nat)
    requires k + |t| <= |s| && j <= |t|
    decreases |t| - j
  {
    j == |t| || (s[k + j] == t[j] && MatchAt(s, t, k, j + 1))
  }

  /** Some match of t starts at a position at or after k. */
  predicate ContainsFrom(s: string, t: string, k: nat)
    requires k <= |s|
    decreases |s| - k
  {
    k + |t| <= |s| && (MatchAt(s, t, k, 0) || ContainsFrom(s, t, k + 1))
  }

  /** Python's `t in s` for two strings. */
  predicate Contains(s: string, t: string)
  {
    ContainsFrom(s, t, 0)
  }

  /** t occurs in s starting at position j. */
  predicate OccursAt(s: string, t: string, j: nat)
  {
    j + |t| <= |s| && s[j..j + |t|] == t
  }

  lemma {:induction false} MatchAtIff(s: string, t: string, k: nat, j: nat)
    requires k + |t| <= |s| && j <= |t|
    ensures MatchAt(s, t, k, j) <==> s[k + j..k + |t|] == t[j..]
    decreases |t| - j
  {
    if j < |t| {
      MatchAtIff(s, t, k, j + 1);
      var a, b := s[k + j..k + |t|], t[j..];
      assert a == [a[0]] + a[1..] && b == [b[0]] + b[1..];
      assert a[1..] == s[k + j + 1..k + |t|] && b[1..] == t[j + 1..];
    }
  }

  /** The search agrees with the definition of a substring: t occurs in s at
      some position at or after the start of the search. */
  lemma {:induction false} ContainsFromIff(s: string, t: string, k: nat)
    requires k <= |s|
    ensures ContainsFrom(s, t, k) <==> exists j :: k <= j && OccursAt(s, t, j)
    decreases |s| - k
  {
    if k + |t| <= |s| {
      MatchAtIff(s, t, k, 0);
      assert MatchAt(s, t, k, 0) <==> OccursAt(s, t, k);
      if !MatchAt(s, t, k, 0) {
        ContainsFromIff(s, t, k + 1);
      }
    }
  }

  lemma ContainsIff(s: string, t: string)
    ensures Contains(s, t) <==> exists j :: OccursAt(s, t, j)
  {
    ContainsFromIff(s, t, 0);
  }

  /** Every string contains itself: in particular `'body_pose' in ('body_pose')`. */
  lemma ContainsSelf(s: string)
    ensures Contains(s, s)
  {
    ContainsIff(s, s);
    assert OccursAt(s, s, 0);
  }

  /** A string that contains t is at least as long as t. */
  lemma ContainsLength(s: string, t: string)
    ensures Contains(s, t) ==> |t| <= |s|
  {
  }

  predicate IsDigit(c: char)
  {
    '0' <= c <= '9'
  }

  predicate AllDigits(s: string)
  {
    forall k | 0 <= k < |s| :: IsDigit(s[k])
  }

  function DigitChar(d: nat): (c: char)
    requires d < 10
    ensures IsDigit(c)
  {
    '0' + d as char
  }

  function DigitValue(c: char): (d: nat)
    requires IsDigit(c)
    ensures d < 10
    ensures DigitChar(d) == c
  {
    (c - '0') as nat
  }

  /** `f'{n}'` for a natural number: decimal digits without leading zeros. */
  function NatToDecimal(n: nat): (s: string)
    ensures |s| >= 1 && AllDigits(s)
    ensures s[0] == '0' ==> n == 0
  {
    if n < 10 then [DigitChar(n)] else NatToDecimal(n / 10) + [DigitChar(n % 10)]
  }

  /** The value of a (possibly empty) digit string, most significant digit first. */
  function DigitsValue(s: string): nat
    requires AllDigits(s)
  {
    if s == [] then 0 else 10 * DigitsValue(s[..|s| - 1]) + DigitValue(s[|s| - 1])
  }

  /** `int(text)` on a string: its value when it is a non-empty run of decimal
      digits, and None (Python's ValueError) otherwise. */
  function ParseDecimal(s: string): (r: Option<nat>)
    ensures r.Some? <==> |s| >= 1 && AllDigits(s)
  {
    if |s| >= 1 && AllDigits(s) then Some(DigitsValue(s)) else None
  }

  lemma {:induction false} DigitsValueOfDecimal(n: nat)
    ensures DigitsValue(NatToDecimal(n)) == n
  {
    if n >= 10 {
      DigitsValueOfDecimal(n / 10);
      var s := NatToDecimal(n);
      assert s[..|s| - 1] == NatToDecimal(n / 10);
    }
  }

  /** Formatting a number and parsing it back gives the number. */
  lemma ParseFormat(n: nat)
    ensures ParseDecimal(NatToDecimal(n)) == Some(n)
  {
    DigitsValueOfDecimal(n);
  }

  /** A leading zero does not change the value of a digit string. */
  lemma {:induction false} DigitsValueLeadingZero(s: string)
    requires AllDigits(s)
    ensures AllDigits("0" + s) && DigitsValue("0" + s) == DigitsValue(s)
  {
    if s != [] {
      var z := "0" + s;
      assert z[..|z| - 1] == "0" + s[..|s| - 1];
      DigitsValueLeadingZero(s[..|s| - 1]);
    }
  }

  /** `f'{n:02d}'`: at least two digits, padded with a leading zero. */
  function ZeroPad2(n: nat): (s: string)
    ensures |s| >= 2 && AllDigits(s)
    ensures n < 100 ==> |s| == 2
  {
    if n < 10 then "0" + NatToDecimal(n)
    else
      assert n < 100 ==> NatToDecimal(n) == NatToDecimal(n / 10) + [DigitChar(n % 10)];
      NatToDecimal(n)
  }

  /** `int(f'{n:02d}')` is n. */
  lemma ParsePadded(n: nat)
    ensures ParseDecimal(ZeroPad2(n)) == Some(n)
  {
    DigitsValueOfDecimal(n);
    if n < 10 {
      DigitsValueLeadingZero(NatToDecimal(n));
    }
  }

  /** Formatting is injective: two numbers share a label only if they are equal. */
  lemma PaddedInjective(m: nat, n: nat)
    ensures ZeroPad2(m) == ZeroPad2(n) <==> m == n
  {
    ParsePadded(m);
    ParsePadded(n);
  }

  /** `s.split(sep)[0]`: everything before the first occurrence of sep, or the
      whole string when sep does not occur. */
  function FirstField(s: string, sep: char): (r: string)
    ensures |r| <= |s| && r == s[..|r|]
    ensures sep !in r
    ensures |r| < |s| ==> s[|r|] == sep
  {
    if s == [] || s[0] == sep then [] else [s[0]] + FirstField(s[1..], sep)
  }

  /** Splitting `head + [sep] + tail` at the first sep gives head back when head
      does not itself contain sep. */
  lemma FirstFieldOfJoin(head: string, sep: char, tail: string)
    requires sep !in head
    ensures FirstField(head + [sep] + tail, sep) == head
  {
    var s := head + [sep] + tail;
    assert s[|head|] == sep;
    assert forall k | 0 <= k < |head| :: s[k] == head[k];
  }

  /** A digit string never contains the '-' separator. */
  lemma DigitsHaveNoDash(s: string)
    requires AllDigits(s)
    ensures '-' !in s
  {
    forall k | 0 <= k < |s|
      ensures s[k] != '-'
    {
      assert IsDigit(s[k]);
    }
  }

  function LowerChar(c: char): (d: char)
    ensures 'A' <= c <= 'Z' ==> 'a' <= d <= 'z'
    ensures !('A' <= c <= 'Z') ==> d == c
  {
    if 'A' <= c <= 'Z' then c - 'A' + 'a' else c
  }

  /** `str.lower()` on ASCII text. */
  function ToLower(s: string): (r: string)
    ensures |r| == |s|
    ensures forall k | 0 <= k < |s| :: r[k] == LowerChar(s[k])
  {
    seq(|s|, k requires 0 <= k < |s| => LowerChar(s[k]))
  }
}
