// JSON strings as section 7 of RFC 8259 defines them: what the program's writer
// escapes, what that costs in bytes, and a reader that undoes it.
module JsonStrings {
  import opened Prelude
  import opened Utf8

  // ----- writing -----

  function Hex(n: nat): char
    requires n < 16
  {
    "0123456789abcdef"[n]
  }

  function EscapeChar(c: char): string {
    if c == '\"' then "\\\""
    else if c == '\\' then "\\\\"
    else if c == 8 as char then "\\b"
    else if c == 12 as char then "\\f"
    else if c == '\n' then "\\n"
    else if c == '\r' then "\\r"
    else if c == '\t' then "\\t"
    else if c as int < 0x20 then "\\u00" + [Hex(c as int / 16), Hex(c as int % 16)]
    else [c]
  }

  function Escape(s: string): string {
    if s == [] then [] else EscapeChar(s[0]) + Escape(s[1..])
  }

  function Quote(s: string): string {
    "\"" + Escape(s) + "\""
  }

  // ----- sizes -----

  ghost predicate Ascii(s: string) {
    forall i :: 0 <= i < |s| ==> s[i] as int < 0x80
  }

  lemma {:induction false} EncodeAscii(s: string)
    requires Ascii(s)
    ensures |Encode(s)| == |s|
  {
    if s != [] {
      EncodeAscii(s[1..]);
    }
  }

  lemma EscapeCharSize(c: char)
    ensures |EncodeChar(c)| <= |Encode(EscapeChar(c))| <= 6 * |EncodeChar(c)|
  {
    if c as int < 0x20 || c == '\"' || c == '\\' {
      EncodeAscii(EscapeChar(c));
    } else {
      assert [c][1..] == [];
      assert Encode([c]) == EncodeChar(c);
    }
  }

  // Escaping never makes a text smaller and at most six times as large.
  lemma {:induction false} EscapeSize(s: string)
    ensures |Encode(s)| <= |Encode(Escape(s))| <= 6 * |Encode(s)|
  {
    if s != [] {
      hide EscapeChar, EncodeChar;
      EscapeCharSize(s[0]);
      EscapeSize(s[1..]);
      EncodeAppend(EscapeChar(s[0]), Escape(s[1..]));
    }
  }

  lemma {:induction false} EscapeAppend(a: string, b: string)
    ensures Escape(a + b) == Escape(a) + Escape(b)
  {
    hide EscapeChar;
    if a == [] {
      assert a + b == b;
    } else {
      assert (a + b)[1..] == a[1..] + b;
      EscapeAppend(a[1..], b);
    }
  }

  // Printable ASCII that needs no escape.
  ghost predicate Plain(s: string) {
    forall i :: 0 <= i < |s| ==> 0x20 <= s[i] as int < 0x80 && s[i] != '\"' && s[i] != '\\'
  }

  lemma {:induction false} EscapePlain(s: string)
    requires Plain(s)
    ensures Escape(s) == s && |Encode(s)| == |s|
  {
    EncodeAscii(s);
    if s != [] {
      EscapePlain(s[1..]);
    }
  }

  // ----- reading -----

  function HexValue(c: char): Option<nat> {
    if '0' <= c <= '9' then Some(c as int - '0' as int)
    else if 'a' <= c <= 'f' then Some(c as int - 'a' as int + 10)
    else if 'A' <= c <= 'F' then Some(c as int - 'A' as int + 10)
    else None
  }

  // The character a simple escape stands for.
  function Simple(c: char): Option<char> {
    match c
    case '\"' => Some('\"')
    case '\\' => Some('\\')
    case '/' => Some('/')
    case 'b' => Some(8 as char)
    case 'f' => Some(12 as char)
    case 'n' => Some('\n')
    case 'r' => Some('\r')
    case 't' => Some('\t')
    case _ => None
  }

  // A JSON string behind its opening quote, and what follows its closing quote.
  // Surrogate pairs, which the writer never produces, are not read.
  function ReadString(s: string): Option<(string, string)> {
    if s == [] || s[0] as int < 0x20 then None
    else if s[0] == '\"' then Some(("", s[1..]))
    else if s[0] != '\\' then Prefixed(s[0], ReadString(s[1..]))
    else if |s| < 2 then None
    else if s[1] != 'u' then
      if Simple(s[1]).None? then None else Prefixed(Simple(s[1]).value, ReadString(s[2..]))
    else if |s| < 6 || HexValue(s[2]).None? || HexValue(s[3]).None? || HexValue(s[4]).None? || HexValue(s[5]).None? then None
    else
      var n := HexValue(s[2]).value * 4096 + HexValue(s[3]).value * 256 + HexValue(s[4]).value * 16 + HexValue(s[5]).value;
      if 0xD800 <= n < 0xE000 || n >= 0x1_0000 then None
      else Prefixed(n as char, ReadString(s[6..]))
  }

  function Prefixed(c: char, r: Option<(string, string)>): Option<(string, string)> {
    if r.None? then None else Some(([c] + r.value.0, r.value.1))
  }

  lemma ReadEscapedChar(c: char, rest: string)
    ensures ReadString(EscapeChar(c) + rest) == Prefixed(c, ReadString(rest))
  {
    var s := EscapeChar(c) + rest;
    if |EscapeChar(c)| == 1 {
      assert s[1..] == rest;
    } else if |EscapeChar(c)| == 2 {
      assert s[2..] == rest;
    } else {
      assert s[6..] == rest;
      assert s[0] == '\\' && s[1] == 'u' && s[2] == '0' && s[3] == '0';
      assert s[4] == Hex(c as int / 16) && s[5] == Hex(c as int % 16);
      HexRoundTrip(c as int / 16);
      HexRoundTrip(c as int % 16);
    }
  }

  lemma HexRoundTrip(n: nat)
    requires n < 16
    ensures HexValue(Hex(n)) == Some(n)
  {
  }

  lemma {:induction false} ReadQuoted(s: string, rest: string)
    ensures ReadString(Escape(s) + "\"" + rest) == Some((s, rest))
  {
    if s == [] {
      assert Escape(s) + "\"" + rest == ['\"'] + rest;
    } else {
      ReadQuoted(s[1..], rest);
      ReadEscapedChar(s[0], Escape(s[1..]) + "\"" + rest);
      hide ReadString, EscapeChar;
      assert [s[0]] + s[1..] == s;
      assert Escape(s) + "\"" + rest == EscapeChar(s[0]) + (Escape(s[1..]) + "\"" + rest);
    }
  }
}
