// The canonical form of a phone number (backend/app/integrations/identity.py).
module Phones {
  import opened Prelude

  // str.strip, str.isdecimal, and the text before an extension ("ext. 12").
  datatype Text = Text(strip: string -> string, beforeExtension: string -> string, decimal: char -> bool)

  function DigitsOf(text: Text, s: string): string {
    if s == "" then ""
    else (if text.decimal(s[0]) then [s[0]] else []) + DigitsOf(text, s[1..])
  }

  ghost predicate AllDecimal(text: Text, s: string) {
    forall i :: 0 <= i < |s| ==> text.decimal(s[i])
  }

  // What is used of the text functions: a plus sign and digits are neither
  // trimmed nor taken for an extension, and '0' to '9' are digits but '+' is not.
  ghost predicate Lawful(text: Text) {
    && (forall s: string :: AllDecimal(text, s) ==> text.strip("+" + s) == "+" + s)
    && (forall s: string :: AllDecimal(text, s) ==> text.beforeExtension("+" + s) == "+" + s)
    && (forall c :: '0' <= c <= '9' ==> text.decimal(c))
    && !text.decimal('+')
  }

  predicate International(digits: string) {
    |digits| >= 2 && digits[0] == '0' && digits[1] == '0'
  }

  // The rules on the digits alone; None is an invalid number.
  function Canonical(digits: string): Option<string> {
    var national := if International(digits) then digits[2..] else digits;
    var full := if |national| == 11 && national[0] == '8' then "7" + national[1..]
                else if |national| == 10 then "7" + national
                else national;
    if 8 <= |full| <= 15 then Some("+" + full) else None
  }

  // normalize_phone_number with the default country code
  function Normalize(text: Text, value: string): Option<string> {
    Canonical(DigitsOf(text, text.beforeExtension(text.strip(value))))
  }

  // The digits of a written value.
  function Dialled(text: Text, value: string): string {
    DigitsOf(text, text.beforeExtension(text.strip(value)))
  }

  // Two international prefixes in a row, and not exactly eight digits behind.
  predicate DoublePrefix(digits: string) {
    International(digits) && International(digits[2..]) && |digits| != 12
  }

  lemma {:induction false} DigitsOfDigits(text: Text, s: string)
    requires AllDecimal(text, s)
    ensures DigitsOf(text, s) == s
  {
    if s != "" {
      DigitsOfDigits(text, s[1..]);
      assert [s[0]] + s[1..] == s;
    }
  }

  lemma {:induction false} DigitsAreDecimal(text: Text, s: string)
    ensures AllDecimal(text, DigitsOf(text, s))
  {
    if s != "" {
      DigitsAreDecimal(text, s[1..]);
    }
  }

  // Without an international prefix, and not in a national form, a number is kept
  // as it is, with a plus, if it has 8 to 15 digits, and refused otherwise.
  lemma OtherNumbers(digits: string)
    requires !International(digits) && |digits| != 10 && !(|digits| == 11 && digits[0] == '8')
    ensures Canonical(digits) == if 8 <= |digits| <= 15 then Some("+" + digits) else None
    ensures |digits| <= 15 ==> Canonical("00" + digits) == if 8 <= |digits| then Some("+" + digits) else None
  {
    assert ("00" + digits)[2..] == digits;
  }

  // What a second normalization works on.
  lemma SecondPass(text: Text, digits: string)
    requires Lawful(text) && AllDecimal(text, digits) && Canonical(digits).Some?
    ensures Normalize(text, Canonical(digits).value) == Canonical(Canonical(digits).value[1..])
  {
    var result := Canonical(digits).value;
    var full := result[1..];
    assert result == "+" + full && AllDecimal(text, full);
    hide Canonical;
    DigitsOfDigits(text, full);
    assert ("+" + full)[1..] == full;
    assert text.beforeExtension(text.strip(result)) == result;
    assert DigitsOf(text, result) == [] + DigitsOf(text, full) == full;
  }

  lemma CanonicalTwice(digits: string)
    requires Canonical(digits).Some?
    ensures Canonical(Canonical(digits).value[1..]) == Canonical(digits) <==> !DoublePrefix(digits)
  {
    var result := Canonical(digits).value;
    var full := result[1..];
    var national := if International(digits) then digits[2..] else digits;
    if |national| == 10 || (|national| == 11 && national[0] == '8') {
      assert full[0] == '7' && |full| == 11;
    } else {
      assert full == national;
      if International(full) {
        Shorter(full);
      }
    }
  }

  lemma Shorter(full: string)
    requires International(full)
    ensures Canonical(full).Some? ==> |Canonical(full).value| <= |full| && Canonical(full).value != "+" + full
  {
  }

  // A stored number normalizes to itself exactly unless the written value began
  // with two international prefixes (and did not have exactly twelve digits).
  lemma IdempotentUnlessDoublePrefix(text: Text, value: string)
    requires Lawful(text) && Normalize(text, value).Some?
    ensures Normalize(text, Normalize(text, value).value) == Normalize(text, value)
       <==> !DoublePrefix(Dialled(text, value))
  {
    var digits := Dialled(text, value);
    DigitsAreDecimal(text, text.beforeExtension(text.strip(value)));
    SecondPass(text, digits);
    CanonicalTwice(digits);
    hide Canonical;
  }

  // Nine digits behind two prefixes: what is stored still begins with one, and
  // a second normalization drops it.
  lemma PrefixDroppedTwice(rest: string)
    requires |rest| == 9 && rest[0] != '0'
    ensures Canonical("0000" + rest) == Some("+00" + rest)
    ensures Canonical("00" + rest) == Some("+" + rest)
  {
    assert ("0000" + rest)[2..] == "00" + rest && "+" + ("00" + rest) == "+00" + rest;
    assert ("00" + rest)[2..] == rest;
  }

  lemma NotIdempotent(text: Text)
    requires Lawful(text) && Dialled(text, "0000123456789") == "0000123456789"
    ensures Normalize(text, "0000123456789") == Some("+00123456789")
    ensures Normalize(text, "+00123456789") == Some("+123456789")
  {
    hide Canonical, DigitsOf;
    var rest := "123456789";
    PrefixDroppedTwice(rest);
    assert "0000" + rest == "0000123456789" && "+00" + rest == "+00123456789" && "+" + rest == "+123456789";
    assert "+00123456789"[1..] == "00" + rest;
    SecondPass(text, "0000" + rest);
  }

  // The three ways to write a ten-digit national number come to the same.
  lemma NationalForms(number: string)
    requires |number| == 10 && !International(number)
    ensures Canonical(number) == Some("+7" + number)
    ensures Canonical("8" + number) == Some("+7" + number)
    ensures Canonical("7" + number) == Some("+7" + number)
    ensures Canonical("007" + number) == Some("+7" + number)
  {
    assert "+" + ("7" + number) == "+7" + number;
    assert ("8" + number)[1..] == number && ("007" + number)[2..] == "7" + number;
  }
}
