/** The handful of JavaScript string operations the application relies on
    (`includes`, `startsWith`, `trim`, `split('T')[0]`, `padStart`,
    `toLowerCase`, number-to-string and digit parsing), written over
    `seq<char>`. */
module Strings {

  /** `s.includes(sub)`: `sub` occurs somewhere in `s`. */
  predicate Contains(s: string, sub: string)
    decreases |s|
  {
    sub <= s || (|s| > 0 && Contains(s[1..], sub))
  }

  /** `sub` occurs in `s` starting at index `i`. */
  predicate OccursAt(s: string, sub: string, i: int) {
    0 <= i <= |s| - |sub| && s[i..i + |sub|] == sub
  }

  /** `Contains` is exactly "some window of `s` equals `sub`". */
  lemma {:induction false} ContainsIff(s: string, sub: string)
    ensures Contains(s, sub) <==> exists i :: OccursAt(s, sub, i)
    decreases |s|
  {
    if sub <= s {
      assert OccursAt(s, sub, 0);
    }
    if |s| > 0 {
      ContainsIff(s[1..], sub);
      if exists i :: OccursAt(s, sub, i) {
        var i :| OccursAt(s, sub, i);
        if i > 0 {
          assert s[1..][i - 1..i - 1 + |sub|] == sub;
          assert OccursAt(s[1..], sub, i - 1);
        }
      }
      if Contains(s[1..], sub) && !(sub <= s) {
        var i :| OccursAt(s[1..], sub, i);
        assert s[i + 1..i + 1 + |sub|] == sub;
        assert OccursAt(s, sub, i + 1);
      }
    }
  }

  /** A string always contains itself, and every string contains "". */
  lemma ContainsSelf(s: string)
    ensures Contains(s, s)
    ensures Contains(s, "")
  {
  }

  /** `c` is one of the whitespace characters `trim` removes (ASCII subset). */
  predicate IsSpace(c: char) {
    c == ' ' || c == '\t' || c == '\n' || c == '\r' || c == '\U{000B}' || c == '\U{000C}'
  }

  function TrimStart(s: string): (r: string)
    ensures |r| <= |s| && r == s[|s| - |r|..]
    ensures |r| > 0 ==> !IsSpace(r[0])
    ensures forall i :: 0 <= i < |s| - |r| ==> IsSpace(s[i])
  {
    if |s| > 0 && IsSpace(s[0]) then TrimStart(s[1..]) else s
  }

  function TrimEnd(s: string): (r: string)
    ensures |r| <= |s| && r == s[..|r|]
    ensures |r| > 0 ==> !IsSpace(r[|r| - 1])
    ensures forall i :: |r| <= i < |s| ==> IsSpace(s[i])
  {
    if |s| > 0 && IsSpace(s[|s| - 1]) then TrimEnd(s[..|s| - 1]) else s
  }

  /** `s.trim()`: the longest infix that neither starts nor ends with whitespace. */
  function Trim(s: string): (r: string)
    ensures |r| > 0 ==> !IsSpace(r[0]) && !IsSpace(r[|r| - 1])
    ensures r == "" <==> forall i :: 0 <= i < |s| ==> IsSpace(s[i])
  {
    TrimEnd(TrimStart(s))
  }

  /** `s.split('T')[0]`: everything before the first 'T' (all of `s` when it has none). */
  function BeforeT(s: string): (r: string)
    ensures r <= s
    ensures forall i :: 0 <= i < |r| ==> r[i] != 'T'
    ensures r == s || s[|r|] == 'T'
  {
    if |s| == 0 || s[0] == 'T' then "" else [s[0]] + BeforeT(s[1..])
  }

  /** The part before the first 'T' of a 'T'-free string followed by a
      'T'-led (or empty) tail is that string. */
  lemma BeforeTAppend(p: string, rest: string)
    requires forall i :: 0 <= i < |p| ==> p[i] != 'T'
    requires rest == "" || rest[0] == 'T'
    ensures BeforeT(p + rest) == p
  {
    var s := p + rest;
    var r := BeforeT(s);
    assert r == s[..|r|] && p == s[..|p|];
  }

  predicate IsDigit(c: char) {
    '0' <= c <= '9'
  }

  predicate AllDigits(s: string) {
    forall i :: 0 <= i < |s| ==> IsDigit(s[i])
  }

  function DigitChar(d: nat): (c: char)
    requires d < 10
    ensures IsDigit(c)
  {
    ['0', '1', '2', '3', '4', '5', '6', '7', '8', '9'][d]
  }

  function DigitOf(c: char): (d: nat)
    requires IsDigit(c)
    ensures d < 10
  {
    (c as int - '0' as int) as nat
  }

  lemma DigitRoundTrip(d: nat)
    requires d < 10
    ensures DigitOf(DigitChar(d)) == d
  {
  }

  /** The value of a decimal digit string; "" reads as 0. */
  function DigitsValue(s: string): (n: nat)
    requires AllDigits(s)
  {
    if |s| == 0 then 0 else DigitsValue(s[..|s| - 1]) * 10 + DigitOf(s[|s| - 1])
  }

  function Pow10(k: nat): (p: nat)
    ensures p >= 1
  {
    if k == 0 then 1 else 10 * Pow10(k - 1)
  }

  /** Reading a concatenation shifts the left part by the right part's length. */
  lemma {:induction false} DigitsValueAppend(a: string, b: string)
    requires AllDigits(a) && AllDigits(b)
    ensures AllDigits(a + b)
    ensures DigitsValue(a + b) == DigitsValue(a) * Pow10(|b|) + DigitsValue(b)
    decreases |b|
  {
    if |b| > 0 {
      var b' := b[..|b| - 1];
      assert (a + b)[..|a + b| - 1] == a + b';
      assert b[..|b| - 1] == b';
      DigitsValueAppend(a, b');
      var x, p, y, d := DigitsValue(a), Pow10(|b'|), DigitsValue(b'), DigitOf(b[|b| - 1]);
      assert DigitsValue(a + b) == DigitsValue(a + b') * 10 + d;
      assert DigitsValue(b) == y * 10 + d;
      assert Pow10(|b|) == 10 * p;
      ShiftStep(x, p, y, d);
    } else {
      assert a + b == a;
    }
  }

  lemma ShiftStep(x: int, p: int, y: int, d: int)
    ensures (x * p + y) * 10 + d == x * (10 * p) + (y * 10 + d)
  {
  }

  /** `n.toString()` for a natural number: shortest decimal digits. */
  function NatToString(n: nat): (s: string)
    ensures |s| > 0 && AllDigits(s)
    ensures |s| > 1 ==> s[0] != '0'
  {
    if n < 10 then [DigitChar(n)] else NatToString(n / 10) + [DigitChar(n % 10)]
  }

  /** `DigitsValue` inverts `NatToString`. */
  lemma {:induction false} NatToStringRoundTrip(n: nat)
    ensures DigitsValue(NatToString(n)) == n
  {
    var s := NatToString(n);
    if n >= 10 {
      NatToStringRoundTrip(n / 10);
      assert s[..|s| - 1] == NatToString(n / 10);
    }
  }

  /** Distinct numbers print differently. */
  lemma NatToStringInjective(m: nat, n: nat)
    requires NatToString(m) == NatToString(n)
    ensures m == n
  {
    NatToStringRoundTrip(m);
    NatToStringRoundTrip(n);
  }

  /** `n.toString()` for an integer, with a leading '-' when negative. */
  function IntToString(n: int): (s: string)
    ensures |s| > 0
    ensures n >= 0 ==> s == NatToString(n)
    ensures n < 0 ==> s[0] == '-'
  {
    if n >= 0 then NatToString(n) else "-" + NatToString(-n)
  }

  function Repeat(c: char, k: nat): (s: string)
    ensures |s| == k && forall i :: 0 <= i < k ==> s[i] == c
  {
    if k == 0 then "" else [c] + Repeat(c, k - 1)
  }

  /** `s.padStart(n, c)`: prefix copies of `c` up to length `n`; long strings unchanged. */
  function PadStart(s: string, n: nat, c: char): (r: string)
    ensures |s| >= n ==> r == s
    ensures |s| < n ==> |r| == n
    ensures exists k: nat :: r == Repeat(c, k) + s
  {
    if |s| >= n then
      assert s == Repeat(c, 0) + s;
      s
    else
      Repeat(c, n - |s|) + s
  }

  lemma {:induction false} ZerosValue(k: nat)
    ensures AllDigits(Repeat('0', k)) && DigitsValue(Repeat('0', k)) == 0
  {
    if k > 0 {
      ZerosValue(k - 1);
      DigitsValueAppend("0", Repeat('0', k - 1));
      assert DigitsValue("0") == DigitsValue("") * 10 + 0;
    }
  }

  /** Leading zeros do not change the value of a digit string. */
  lemma ZeroPaddedValue(p: string, digits: string)
    requires AllDigits(digits) && |digits| <= |p|
    requires p[|p| - |digits|..] == digits
    requires forall i :: 0 <= i < |p| - |digits| ==> p[i] == '0'
    ensures AllDigits(p) && DigitsValue(p) == DigitsValue(digits)
  {
    var k := |p| - |digits|;
    assert p == Repeat('0', k) + digits;
    ZerosValue(k);
    DigitsValueAppend(Repeat('0', k), digits);
  }

  /** `padStart` with zeros keeps the value of a digit string. */
  lemma PadStartZerosValue(s: string, n: nat)
    requires AllDigits(s)
    ensures AllDigits(PadStart(s, n, '0')) && DigitsValue(PadStart(s, n, '0')) == DigitsValue(s)
  {
    var k :| PadStart(s, n, '0') == Repeat('0', k) + s;
    ZerosValue(k);
    DigitsValueAppend(Repeat('0', k), s);
  }

  /** A number below 10^k prints in at most k digits. */
  lemma {:induction false} NatToStringLength(n: nat, k: nat)
    requires k >= 1 && n < Pow10(k)
    ensures |NatToString(n)| <= k
    decreases k
  {
    if n >= 10 {
      NatToStringLength(n / 10, k - 1);
    }
  }

  /** Two digit strings of the same length and value are equal. */
  lemma {:induction false} DigitsValueInjective(a: string, b: string)
    requires AllDigits(a) && AllDigits(b) && |a| == |b|
    requires DigitsValue(a) == DigitsValue(b)
    ensures a == b
    decreases |a|
  {
    if |a| > 0 {
      var a', b' := a[..|a| - 1], b[..|b| - 1];
      var da, db := DigitOf(a[|a| - 1]), DigitOf(b[|b| - 1]);
      LastDigitSplit(DigitsValue(a'), da, DigitsValue(b'), db);
      DigitsValueInjective(a', b');
      assert a == a' + [a[|a| - 1]] && b == b' + [b[|b| - 1]];
    }
  }

  lemma LastDigitSplit(x: nat, d: nat, y: nat, e: nat)
    requires d < 10 && e < 10 && x * 10 + d == y * 10 + e
    ensures x == y && d == e
  {
  }

  /** Two-digit zero-padded rendering of a number below 100. */
  function Pad2(n: nat): (s: string)
    requires n < 100
    ensures |s| == 2 && AllDigits(s) && DigitsValue(s) == n
  {
    var s := [DigitChar(n / 10), DigitChar(n % 10)];
    assert s[..1] == [DigitChar(n / 10)];
    assert s[..1][..0] == [];
    DigitRoundTrip(n / 10);
    DigitRoundTrip(n % 10);
    assert DigitsValue(s[..1]) == n / 10;
    assert DigitsValue(s) == (n / 10) * 10 + n % 10;
    s
  }

  /** `toLowerCase` on the Latin-1 range: 'A'..'Z' and 'À'..'Þ' except '×'. */
  function LowerChar(c: char): char {
    if 'A' <= c <= 'Z' || ('À' <= c <= 'Þ' && c != '×') then
      (c as int + 32) as char
    else
      c
  }

  function Lower(s: string): (r: string)
    ensures |r| == |s| && forall i :: 0 <= i < |s| ==> r[i] == LowerChar(s[i])
  {
    seq(|s|, i requires 0 <= i < |s| => LowerChar(s[i]))
  }

  /** The characters of `s` that satisfy `keep`, in order (a regex `replace` by ''). */
  function KeepChars(s: string, keep: char -> bool): (r: string)
    ensures |r| <= |s|
    ensures forall i :: 0 <= i < |r| ==> keep(r[i])
    decreases |s|
  {
    if |s| == 0 then ""
    else (if keep(s[0]) then [s[0]] else "") + KeepChars(s[1..], keep)
  }

  lemma {:induction false} KeepCharsAppend(a: string, b: string, keep: char -> bool)
    ensures KeepChars(a + b, keep) == KeepChars(a, keep) + KeepChars(b, keep)
    decreases |a|
  {
    if |a| > 0 {
      assert (a + b)[1..] == a[1..] + b;
      KeepCharsAppend(a[1..], b, keep);
    } else {
      assert a + b == b;
    }
  }

  /** Keeping every character is the identity. */
  lemma {:induction false} KeepCharsAll(s: string, keep: char -> bool)
    requires forall i :: 0 <= i < |s| ==> keep(s[i])
    ensures KeepChars(s, keep) == s
    decreases |s|
  {
    if |s| > 0 {
      KeepCharsAll(s[1..], keep);
    }
  }

  /** Keeping no character gives "". */
  lemma {:induction false} KeepCharsNone(s: string, keep: char -> bool)
    requires forall i :: 0 <= i < |s| ==> !keep(s[i])
    ensures KeepChars(s, keep) == ""
    decreases |s|
  {
    if |s| > 0 {
      KeepCharsNone(s[1..], keep);
    }
  }

  /** The longest prefix of `s` made of digits. */
  function LeadingDigits(s: string): (r: string)
    ensures r <= s && AllDigits(r)
    ensures |r| < |s| ==> !IsDigit(s[|r|])
  {
    if |s| > 0 && IsDigit(s[0]) then [s[0]] + LeadingDigits(s[1..]) else ""
  }

  lemma {:induction false} LeadingDigitsAll(s: string)
    requires AllDigits(s)
    ensures LeadingDigits(s) == s
  {
    if |s| > 0 {
      LeadingDigitsAll(s[1..]);
    }
  }
}
