/** Ledger dates. The source reads the part of a date string before the first
    'T' as an ISO calendar date, anchors it at noon UTC-3 (15:00 UTC), and
    renders it as DD/MM/YYYY; viewers at offsets from UTC-12 to UTC+8 see the
    same calendar day (from UTC+9 on, 15:00 UTC is already the next day). Here
    a date is the (year, month, day) triple the string denotes; strings the ISO
    date-only form does not accept are unparseable. */
module Dates {
  import opened Wrappers
  import opened Strings

  datatype CivilDate = CivilDate(year: nat, month: nat, day: nat)

  predicate IsLeapYear(y: nat) {
    (y % 4 == 0 && y % 100 != 0) || y % 400 == 0
  }

  function DaysInMonth(y: nat, m: nat): (n: nat)
    requires 1 <= m <= 12
    ensures 28 <= n <= 31
  {
    if m == 2 then (if IsLeapYear(y) then 29 else 28)
    else if m == 4 || m == 6 || m == 9 || m == 11 then 30
    else 31
  }

  predicate ValidCivil(d: CivilDate) {
    d.year <= 9999 && 1 <= d.month <= 12 && 1 <= d.day <= DaysInMonth(d.year, d.month)
  }

  /** The YYYY-MM-DD form of a valid date, year zero-padded to four digits. */
  function IsoDate(d: CivilDate): (s: string)
    requires ValidCivil(d)
    ensures |s| == 10 && s[4] == '-' && s[7] == '-'
    ensures AllDigits(s[..4]) && AllDigits(s[5..7]) && AllDigits(s[8..])
    ensures DigitsValue(s[..4]) == d.year && DigitsValue(s[5..7]) == d.month && DigitsValue(s[8..]) == d.day
    ensures forall i :: 0 <= i < |s| ==> s[i] != 'T'
  {
    assert Pow10(4) == 10000;
    NatToStringLength(d.year, 4);
    NatToStringRoundTrip(d.year);
    PadStartZerosValue(NatToString(d.year), 4);
    var y := PadStart(NatToString(d.year), 4, '0');
    var s := y + "-" + Pad2(d.month) + "-" + Pad2(d.day);
    assert s[..4] == y && s[5..7] == Pad2(d.month) && s[8..] == Pad2(d.day);
    s
  }

  /** `parseDate`: the date part of `s` read as YYYY-MM-DD, or `None` where the
      source's `Date` is invalid. A parsed date is valid, and the date part of
      `s` is exactly its YYYY-MM-DD form. */
  function ParseDate(s: string): (r: Option<CivilDate>)
    ensures r.Some? ==> ValidCivil(r.value)
    ensures r.Some? ==> BeforeT(s) == IsoDate(r.value)
  {
    var p := BeforeT(s);
    if |p| == 10 && p[4] == '-' && p[7] == '-'
       && AllDigits(p[..4]) && AllDigits(p[5..7]) && AllDigits(p[8..])
    then
      var d := CivilDate(DigitsValue(p[..4]), DigitsValue(p[5..7]), DigitsValue(p[8..]));
      if ValidCivil(d) then
        IsoDateOfParts(p, d);
        Some(d)
      else None
    else
      None
  }

  /** A YYYY-MM-DD string is the ISO form of the date its fields denote. */
  lemma IsoDateOfParts(p: string, d: CivilDate)
    requires |p| == 10 && p[4] == '-' && p[7] == '-'
    requires AllDigits(p[..4]) && AllDigits(p[5..7]) && AllDigits(p[8..])
    requires ValidCivil(d)
    requires d == CivilDate(DigitsValue(p[..4]), DigitsValue(p[5..7]), DigitsValue(p[8..]))
    ensures p == IsoDate(d)
  {
    var q := IsoDate(d);
    DigitsValueInjective(p[..4], q[..4]);
    DigitsValueInjective(p[5..7], q[5..7]);
    DigitsValueInjective(p[8..], q[8..]);
    assert p == p[..4] + [p[4]] + p[5..7] + [p[7]] + p[8..];
    assert q == q[..4] + [q[4]] + q[5..7] + [q[7]] + q[8..];
  }

  /** Only the part before the first 'T' matters. */
  lemma ParseDateReadsDatePart(s: string)
    ensures ParseDate(s) == ParseDate(BeforeT(s))
  {
    BeforeTAppend(BeforeT(s), "");
    assert BeforeT(s) + "" == BeforeT(s);
  }

  /** Every valid date, written YYYY-MM-DD and followed by nothing or by a
      time part, parses back to itself. */
  lemma ParseIsoDate(d: CivilDate, rest: string)
    requires ValidCivil(d)
    requires rest == "" || rest[0] == 'T'
    ensures ParseDate(IsoDate(d) + rest) == Some(d)
  {
    BeforeTAppend(IsoDate(d), rest);
  }

  /** `formatDate`: day/month zero-padded to two digits, the year as
      `getFullYear` prints it; empty or unparseable input comes back unchanged. */
  function FormatDate(s: string): (r: string)
    ensures s == "" || ParseDate(s).None? ==> r == s
  {
    if s == "" then s
    else match ParseDate(s)
      case None => s
      case Some(d) => Pad2(d.day) + "/" + Pad2(d.month) + "/" + NatToString(d.year)
  }

  /** Reads a DD/MM/Y.. display date back; the inverse partner of `FormatDate`. */
  function ReadDisplayDate(t: string): Option<CivilDate> {
    if |t| > 6 && t[2] == '/' && t[5] == '/'
       && AllDigits(t[..2]) && AllDigits(t[3..5]) && AllDigits(t[6..])
    then Some(CivilDate(DigitsValue(t[6..]), DigitsValue(t[3..5]), DigitsValue(t[..2])))
    else None
  }

  /** A formatted date carries exactly the date it was formatted from. */
  lemma FormatDateRoundTrip(s: string)
    requires ParseDate(s).Some?
    ensures ReadDisplayDate(FormatDate(s)) == ParseDate(s)
  {
    var d := ParseDate(s).value;
    var t := FormatDate(s);
    assert s != "";
    assert t == Pad2(d.day) + "/" + Pad2(d.month) + "/" + NatToString(d.year);
    assert t[..2] == Pad2(d.day);
    assert t[3..5] == Pad2(d.month);
    assert t[6..] == NatToString(d.year);
    NatToStringRoundTrip(d.year);
  }

  /** A position on the calendar line: the source compares `getTime()` of the
      anchored dates, and this ordinal orders valid dates exactly as those do. */
  function Ordinal(d: CivilDate): int {
    d.year * 372 + (d.month - 1) * 31 + (d.day - 1)
  }

  predicate CivilLe(a: CivilDate, b: CivilDate) {
    a.year < b.year
    || (a.year == b.year && a.month < b.month)
    || (a.year == b.year && a.month == b.month && a.day <= b.day)
  }

  /** The ordinal is order-isomorphic to calendar order on valid dates. */
  lemma OrdinalMonotone(a: CivilDate, b: CivilDate)
    requires ValidCivil(a) && ValidCivil(b)
    ensures Ordinal(a) <= Ordinal(b) <==> CivilLe(a, b)
    ensures Ordinal(a) == Ordinal(b) <==> a == b
  {
  }

  /** The sort key of a raw date string (only meaningful when it parses). */
  function DateKey(s: string): int {
    match ParseDate(s)
    case Some(d) => Ordinal(d)
    case None => 0
  }
}
