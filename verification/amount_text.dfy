/** The amount field of the opening-balance dialog: es-AR rendering with two
    decimals (`toLocaleString`), the input sanitiser, and the read-back that
    drops the separators and divides by 100 (`parseFloat(...) / 100`). */
module AmountText {
  import opened Wrappers
  import opened Strings

  predicate IsSeparator(c: char) { c == '.' || c == ',' }

  predicate IsAmountChar(c: char) { IsDigit(c) || IsSeparator(c) }

  predicate NotSeparator(c: char) { !IsSeparator(c) }

  /** `value.replace(/[.,]/g, '')`. */
  function StripSeparators(s: string): (r: string)
    ensures forall i :: 0 <= i < |r| ==> !IsSeparator(r[i])
  {
    KeepChars(s, NotSeparator)
  }

  /** `value.replace(/[^\d.,]/g, '')`. */
  function Sanitize(s: string): (r: string)
    ensures forall i :: 0 <= i < |r| ==> IsAmountChar(r[i])
  {
    KeepChars(s, c => IsAmountChar(c))
  }

  /** Cents to two decimals, rounding halves away from zero as `Intl` does. */
  function RoundCents(x: real): (c: nat)
    requires x >= 0.0
    ensures (c as real) - 0.5 <= x * 100.0 < (c as real) + 0.5
  {
    (x * 100.0 + 0.5).Floor
  }

  /** Spanish grouping: '.' every three digits from the right, applied only
      from five integer digits on (a four-digit integer part is not grouped). */
  function Group(d: string): (r: string)
    requires AllDigits(d)
    ensures forall i :: 0 <= i < |r| ==> IsAmountChar(r[i])
  {
    if |d| <= 4 then d else GroupThrees(d)
  }

  function GroupThrees(d: string): (r: string)
    requires AllDigits(d)
    ensures forall i :: 0 <= i < |r| ==> IsAmountChar(r[i])
    decreases |d|
  {
    if |d| <= 3 then d else GroupThrees(d[..|d| - 3]) + "." + d[|d| - 3..]
  }

  lemma {:induction false} StripGroupThrees(d: string)
    requires AllDigits(d)
    ensures StripSeparators(GroupThrees(d)) == d
    decreases |d|
  {
    if |d| <= 3 {
      KeepCharsAll(d, NotSeparator);
    } else {
      var hi, lo := d[..|d| - 3], d[|d| - 3..];
      StripGroupThrees(hi);
      StripAroundDot(GroupThrees(hi), lo);
      assert hi + lo == d;
    }
  }

  lemma StripAroundDot(g: string, lo: string)
    requires AllDigits(lo)
    ensures StripSeparators(g + "." + lo) == StripSeparators(g) + lo
  {
    var dotted := g + ".";
    assert g + "." + lo == dotted + lo;
    KeepCharsAppend(dotted, lo, NotSeparator);
    KeepCharsAppend(g, ".", NotSeparator);
    assert forall i :: 0 <= i < |lo| ==> NotSeparator(lo[i]) by {
      forall i | 0 <= i < |lo| ensures NotSeparator(lo[i]) {
        assert IsDigit(lo[i]);
      }
    }
    KeepCharsAll(lo, NotSeparator);
    KeepCharsNone(".", NotSeparator);
    assert KeepChars(dotted, NotSeparator) == KeepChars(g, NotSeparator);
  }

  /** `formatearMonto(valor)`: es-AR with exactly two decimals. */
  function FormatearMonto(valor: real): (r: string)
    ensures |r| >= 4
    ensures valor >= 0.0 ==> forall i :: 0 <= i < |r| ==> IsAmountChar(r[i])
  {
    var cents := RoundCents(if valor < 0.0 then -valor else valor);
    var body := Group(NatToString(cents / 100)) + "," + Pad2(cents % 100);
    if valor < 0.0 then "-" + body else body
  }

  /** `parseFloat(text.replace(/[.,]/g, '')) / 100`, with NaN as `None`: the
      leading digits after leading whitespace, read as cents. */
  function ParseAmount(text: string): (r: Option<real>)
    ensures r.Some? ==> r.value >= 0.0
  {
    var digits := LeadingDigits(TrimStart(StripSeparators(text)));
    if digits == "" then None else Some(DigitsValue(digits) as real / 100.0)
  }

  /** The separator-free digits of a formatted cents value. */
  lemma StripFormatted(cents: nat)
    ensures StripSeparators(Group(NatToString(cents / 100)) + "," + Pad2(cents % 100))
      == NatToString(cents / 100) + Pad2(cents % 100)
  {
    var digits := NatToString(cents / 100);
    assert StripSeparators(Group(digits)) == digits by {
      if |digits| <= 4 { KeepCharsAll(digits, NotSeparator); } else { StripGroupThrees(digits); }
    }
    KeepCharsAppend(Group(digits) + ",", Pad2(cents % 100), NotSeparator);
    KeepCharsAppend(Group(digits), ",", NotSeparator);
    KeepCharsAll(Pad2(cents % 100), NotSeparator);
    KeepCharsNone(",", NotSeparator);
  }

  lemma DigitsOfCents(cents: nat)
    ensures AllDigits(NatToString(cents / 100) + Pad2(cents % 100))
    ensures DigitsValue(NatToString(cents / 100) + Pad2(cents % 100)) == cents
  {
    DigitsValueAppend(NatToString(cents / 100), Pad2(cents % 100));
    NatToStringRoundTrip(cents / 100);
    assert Pow10(2) == 100;
  }

  /** Reading back a formatted non-negative amount gives it rounded to cents. */
  lemma ParseFormatRoundTrip(valor: real)
    requires valor >= 0.0
    ensures ParseAmount(FormatearMonto(valor)) == Some(RoundCents(valor) as real / 100.0)
  {
    var cents := RoundCents(valor);
    var stripped := NatToString(cents / 100) + Pad2(cents % 100);
    StripFormatted(cents);
    DigitsOfCents(cents);
    assert StripSeparators(FormatearMonto(valor)) == stripped;
    assert TrimStart(stripped) == stripped by {
      assert !IsSpace(stripped[0]);
    }
    LeadingDigitsAll(stripped);
  }

  lemma RoundWholeCents(valor: real, cents: nat)
    requires valor == cents as real / 100.0
    ensures valor >= 0.0 && RoundCents(valor) == cents
  {
    assert valor * 100.0 == cents as real;
  }

  /** Amounts already in whole cents come back exactly. */
  lemma ParseFormatExact(valor: real, cents: nat)
    requires valor == cents as real / 100.0
    ensures ParseAmount(FormatearMonto(valor)) == Some(valor)
  {
    RoundWholeCents(valor, cents);
    ParseFormatRoundTrip(valor);
    assert RoundCents(valor) as real / 100.0 == valor;
  }

  /** A formatted amount is never blank and always reads back as a number. */
  lemma FormattedIsReadable(valor: real)
    requires valor >= 0.0
    ensures Trim(FormatearMonto(valor)) != ""
    ensures ParseAmount(FormatearMonto(valor)).Some?
  {
    ParseFormatRoundTrip(valor);
    var t := FormatearMonto(valor);
    assert !IsSpace(t[0]);
  }
}
