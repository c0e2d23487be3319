// The rows of a subscription spreadsheet once parsed, and the external ids
// that the import derives from them.
module Licenses {
  import opened Prelude

  datatype DateFields = DateFields(year: nat, month: nat, day: nat)

  type Date = d: DateFields | 1 <= d.year <= 9999 && 1 <= d.month <= 12 && 1 <= d.day <= 31
    witness DateFields(1, 1, 1)

  datatype License = License(
    rowNumber: nat,
    lid: string,
    activatedAt: Date,
    expiresAt: Date,
    customerName: string,
    inn: string,
    phone: string,
    normalizedPhone: string,
    email: string,
    normalizedEmail: string,
    product: string)

  // Two rows belong to one person when they share a phone or an email.
  predicate Linked(a: License, b: License) {
    || (a.normalizedPhone != "" && a.normalizedPhone == b.normalizedPhone)
    || (a.normalizedEmail != "" && a.normalizedEmail == b.normalizedEmail)
  }

  predicate Identified(l: License) {
    l.normalizedPhone != "" || l.normalizedEmail != ""
  }

  function Digit(n: nat): char
    requires n < 10
  {
    '0' + n as char
  }

  function TwoDigits(n: nat): string
    requires n < 100
  {
    [Digit(n / 10), Digit(n % 10)]
  }

  // ISO 8601 calendar date, always ten characters.
  function Iso(d: Date): (s: string)
    ensures |s| == 10
  {
    TwoDigits(d.year / 100) + TwoDigits(d.year % 100) + "-" + TwoDigits(d.month) + "-" + TwoDigits(d.day)
  }

  lemma TwoDigitsInjective(m: nat, n: nat)
    requires m < 100 && n < 100
    requires TwoDigits(m) == TwoDigits(n)
    ensures m == n
  {
    assert TwoDigits(m)[0] == TwoDigits(n)[0] && TwoDigits(m)[1] == TwoDigits(n)[1];
  }

  lemma IsoInjective(d: Date, e: Date)
    requires Iso(d) == Iso(e)
    ensures d == e
  {
    var s, t := Iso(d), Iso(e);
    assert s[0..2] == TwoDigits(d.year / 100) && t[0..2] == TwoDigits(e.year / 100);
    assert s[2..4] == TwoDigits(d.year % 100) && t[2..4] == TwoDigits(e.year % 100);
    assert s[5..7] == TwoDigits(d.month) && t[5..7] == TwoDigits(e.month);
    assert s[8..10] == TwoDigits(d.day) && t[8..10] == TwoDigits(e.day);
    TwoDigitsInjective(d.year / 100, e.year / 100);
    TwoDigitsInjective(d.year % 100, e.year % 100);
    TwoDigitsInjective(d.month, e.month);
    TwoDigitsInjective(d.day, e.day);
  }

  // Used for a renewal group (prefix is the INN) and for a licence (prefix is the LID).
  function ExternalId(prefix: string, expiresAt: Date): string {
    prefix + ":" + Iso(expiresAt)
  }

  // External ids never collide, whatever characters the prefix holds: the date
  // has a fixed width, so the last eleven characters can be cut off.
  lemma ExternalIdInjective(p: string, d: Date, q: string, e: Date)
    requires ExternalId(p, d) == ExternalId(q, e)
    ensures p == q && d == e
  {
    var s, t := ExternalId(p, d), ExternalId(q, e);
    assert s[|s| - 10..] == Iso(d) && t[|t| - 10..] == Iso(e);
    IsoInjective(d, e);
    assert s[..|s| - 11] == p && t[..|t| - 11] == q;
  }

  // For example, the group of an INN that expires on 5 October 2026.
  lemma ExternalIdExample()
    ensures ExternalId("7700000000", DateFields(2026, 10, 5)) == "7700000000:2026-10-05"
  {
  }
}
