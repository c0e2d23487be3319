// The opaque page cursor: unpadded base64url of a small JSON object
// (backend/app/pagination.py; section 5 of RFC 4648).
module CursorToken {
  import opened Prelude
  import opened Utf8
  import opened JsonStrings

  // ----- base64url -----

  function Digit(n: int): char
    requires 0 <= n < 64
  {
    if n < 26 then (n + 'A' as int) as char
    else if n < 52 then (n - 26 + 'a' as int) as char
    else if n < 62 then (n - 52 + '0' as int) as char
    else if n == 62 then '-'
    else '_'
  }

  function Value(c: char): Option<int> {
    if 'A' <= c <= 'Z' then Some(c as int - 'A' as int)
    else if 'a' <= c <= 'z' then Some(c as int - 'a' as int + 26)
    else if '0' <= c <= '9' then Some(c as int - '0' as int + 52)
    else if c == '-' then Some(62)
    else if c == '_' then Some(63)
    else None
  }

  // The four groups of six bits of three bytes.
  function Sextet0(x: Byte): (n: int)
    ensures 0 <= n < 64
  {
    x as int / 4
  }

  function Sextet1(x: Byte, y: Byte): (n: int)
    ensures 0 <= n < 64
  {
    x as int % 4 * 16 + y as int / 16
  }

  function Sextet2(y: Byte, z: Byte): (n: int)
    ensures 0 <= n < 64
  {
    y as int % 16 * 4 + z as int / 64
  }

  function Sextet3(z: Byte): (n: int)
    ensures 0 <= n < 64
  {
    z as int % 64
  }

  function Encode64(bytes: seq<Byte>): string {
    if bytes == [] then ""
    else if |bytes| == 1 then
      [Digit(Sextet0(bytes[0])), Digit(Sextet1(bytes[0], 0)), '=', '=']
    else if |bytes| == 2 then
      [Digit(Sextet0(bytes[0])), Digit(Sextet1(bytes[0], bytes[1])), Digit(Sextet2(bytes[1], 0)), '=']
    else
      [Digit(Sextet0(bytes[0])), Digit(Sextet1(bytes[0], bytes[1])), Digit(Sextet2(bytes[1], bytes[2])), Digit(Sextet3(bytes[2]))]
      + Encode64(bytes[3..])
  }

  function First3(a: int, b: int): Byte
    requires 0 <= a < 64 && 0 <= b < 64
  {
    a * 4 + b / 16
  }

  function Second3(b: int, c: int): Byte
    requires 0 <= b < 64 && 0 <= c < 64
  {
    b % 16 * 16 + c / 4
  }

  function Third3(c: int, d: int): Byte
    requires 0 <= c < 64 && 0 <= d < 64
  {
    c % 4 * 64 + d
  }

  // Decoding of padded text; characters outside the alphabet are an error.
  function Decode64(s: string): Option<seq<Byte>> {
    if s == "" then Some([])
    else if |s| < 4 || Value(s[0]).None? || Value(s[1]).None? then None
    else
      var a, b := Value(s[0]).value, Value(s[1]).value;
      if |s| == 4 && s[2] == '=' && s[3] == '=' then Some([First3(a, b)])
      else if Value(s[2]).None? then None
      else
        var c := Value(s[2]).value;
        if |s| == 4 && s[3] == '=' then Some([First3(a, b), Second3(b, c)])
        else if Value(s[3]).None? then None
        else
          var rest := Decode64(s[4..]);
          if rest.None? then None
          else Some([First3(a, b), Second3(b, c), Third3(c, Value(s[3]).value)] + rest.value)
  }

  function StripPadding(s: string): string {
    if s != "" && s[|s| - 1] == '=' then StripPadding(s[..|s| - 1]) else s
  }

  // "=" times the smallest number that makes the length a multiple of four
  function Pad(s: string): string {
    s + seq((4 - |s| % 4) % 4, _ => '=')
  }

  lemma DigitRoundTrip(n: int)
    requires 0 <= n < 64
    ensures Value(Digit(n)) == Some(n) && Digit(n) != '='
  {
  }

  lemma BytesRoundTrip(x: Byte, y: Byte, z: Byte)
    ensures First3(Sextet0(x), Sextet1(x, y)) == x
    ensures Second3(Sextet1(x, y), Sextet2(y, z)) == y
    ensures Third3(Sextet2(y, z), Sextet3(z)) == z
  {
  }

  // The shape of an encoding: digits only, then what padding the length asks for.
  lemma {:induction false} EncodeShape(bytes: seq<Byte>)
    ensures var s := StripPadding(Encode64(bytes));
      && s <= Encode64(bytes) && Pad(s) == Encode64(bytes)
      && (s == "" <==> bytes == [])
  {
    if bytes != [] {
      FirstDigits(bytes);
      if |bytes| >= 3 {
        var quad := Encode64(bytes)[..4];
        assert Encode64(bytes) == quad + Encode64(bytes[3..]);
        EncodeShape(bytes[3..]);
        hide Encode64;
        StripBehind(quad, Encode64(bytes[3..]));
        PadBehind(quad, StripPadding(Encode64(bytes[3..])));
      } else {
        ShortShape(bytes);
      }
    }
  }

  lemma FirstDigits(bytes: seq<Byte>)
    requires bytes != []
    ensures |Encode64(bytes)| >= 4 && Encode64(bytes)[0] != '=' && Encode64(bytes)[1] != '='
    ensures |bytes| >= 2 ==> Encode64(bytes)[2] != '='
    ensures |bytes| >= 3 ==> Encode64(bytes)[3] != '='
  {
  }

  lemma ShortShape(bytes: seq<Byte>)
    requires 1 <= |bytes| <= 2
    ensures var s := StripPadding(Encode64(bytes));
      s <= Encode64(bytes) && Pad(s) == Encode64(bytes) && s != ""
  {
    FirstDigits(bytes);
    var text := Encode64(bytes);
    if |bytes| == 1 {
      assert text == text[..2] + "=" + "=";
      hide Encode64;
      StripOne(text[..2] + "=");
      StripOne(text[..2]);
      PadShort(text[..2]);
    } else {
      assert text == text[..3] + "=";
      hide Encode64;
      StripOne(text[..3]);
      PadShort(text[..3]);
    }
  }

  lemma StripOne(s: string)
    ensures StripPadding(s + "=") == StripPadding(s)
    ensures s != "" && s[|s| - 1] != '=' ==> StripPadding(s) == s
  {
    assert (s + "=")[..|s|] == s;
  }

  lemma PadShort(s: string)
    ensures |s| == 2 ==> Pad(s) == s + "=" + "="
    ensures |s| == 3 ==> Pad(s) == s + "="
  {
  }

  lemma {:induction false} StripBehind(quad: string, s: string)
    requires |quad| == 4 && quad[3] != '='
    ensures StripPadding(quad + s) == quad + StripPadding(s)
  {
    if s == "" {
      assert quad + s == quad;
    } else if s[|s| - 1] == '=' {
      StripBehind(quad, s[..|s| - 1]);
      assert (quad + s)[..|quad + s| - 1] == quad + s[..|s| - 1];
    }
  }

  lemma PadBehind(quad: string, s: string)
    requires |quad| == 4
    ensures Pad(quad + s) == quad + Pad(s)
  {
    assert (|s| + 4) % 4 == |s| % 4;
  }

  lemma {:induction false} Decode64Encode64(bytes: seq<Byte>)
    ensures Decode64(Encode64(bytes)) == Some(bytes)
  {
    if |bytes| >= 3 {
      Decode64Encode64(bytes[3..]);
      ThreeBytes(bytes);
    } else if |bytes| == 2 {
      TwoBytes(bytes[0], bytes[1]);
      assert bytes == [bytes[0], bytes[1]];
    } else if |bytes| == 1 {
      TwoBytes(bytes[0], 0);
      assert bytes == [bytes[0]];
    }
  }

  // One round of the decoder, case by case.
  lemma DecodeFull(s: string, a: int, b: int, c: int, d: int)
    requires |s| >= 4 && 0 <= a < 64 && 0 <= b < 64 && 0 <= c < 64 && 0 <= d < 64
    requires Value(s[0]) == Some(a) && Value(s[1]) == Some(b) && Value(s[2]) == Some(c) && Value(s[3]) == Some(d)
    requires Decode64(s[4..]).Some?
    ensures Decode64(s) == Some([First3(a, b), Second3(b, c), Third3(c, d)] + Decode64(s[4..]).value)
  {
    assert s[2] != '=' && s[3] != '=';
    hide Value, First3, Second3, Third3;
  }

  lemma DecodeShort(s: string, a: int, b: int)
    requires |s| == 4 && 0 <= a < 64 && 0 <= b < 64 && s[3] == '='
    requires Value(s[0]) == Some(a) && Value(s[1]) == Some(b)
    ensures s[2] == '=' ==> Decode64(s) == Some([First3(a, b)])
    ensures Value(s[2]).Some? ==> Decode64(s) == Some([First3(a, b), Second3(b, Value(s[2]).value)])
  {
    assert Value('=').None?;
    hide Value, First3, Second3, Third3;
  }

  lemma ThreeBytes(bytes: seq<Byte>)
    requires |bytes| >= 3 && Decode64(Encode64(bytes[3..])) == Some(bytes[3..])
    ensures Decode64(Encode64(bytes)) == Some(bytes)
  {
    hide Digit, Value, First3, Second3, Third3, Decode64, Sextet0, Sextet1, Sextet2, Sextet3, Encode64;
    var x, y, z := bytes[0], bytes[1], bytes[2];
    var a, b, c, d := Sextet0(x), Sextet1(x, y), Sextet2(y, z), Sextet3(z);
    var s := Encode64(bytes);
    QuadDigits(x, y, z);
    BytesRoundTrip(x, y, z);
    EncodeThree(bytes);
    assert s[4..] == Encode64(bytes[3..]);
    DecodeFull(s, a, b, c, d);
    assert [x, y, z] + bytes[3..] == bytes;
  }

  lemma TwoBytes(x: Byte, y: Byte)
    ensures Decode64(Encode64([x])) == Some([x])
    ensures Decode64(Encode64([x, y])) == Some([x, y])
  {
    OneByte(x);
    hide Digit, Value, First3, Second3, Third3, Decode64, Sextet0, Sextet1, Sextet2, Sextet3;
    QuadDigits(x, y, 0);
    BytesRoundTrip(x, y, 0);
    assert Encode64([x, y]) == [Digit(Sextet0(x)), Digit(Sextet1(x, y)), Digit(Sextet2(y, 0)), '='];
    hide Encode64;
    DecodeShort(Encode64([x, y]), Sextet0(x), Sextet1(x, y));
  }

  lemma OneByte(x: Byte)
    ensures Decode64(Encode64([x])) == Some([x])
  {
    hide Digit, Value, First3, Second3, Third3, Decode64, Sextet0, Sextet1, Sextet2, Sextet3, Encode64;
    QuadDigits(x, 0, 0);
    BytesRoundTrip(x, 0, 0);
    EncodeOne(x);
    DecodeShort([Digit(Sextet0(x)), Digit(Sextet1(x, 0)), '=', '='], Sextet0(x), Sextet1(x, 0));
  }

  lemma EncodeThree(bytes: seq<Byte>)
    requires |bytes| >= 3
    ensures var x, y, z := bytes[0], bytes[1], bytes[2];
      Encode64(bytes) == [Digit(Sextet0(x)), Digit(Sextet1(x, y)), Digit(Sextet2(y, z)), Digit(Sextet3(z))] + Encode64(bytes[3..])
  {
    hide Digit, Sextet0, Sextet1, Sextet2, Sextet3;
  }

  lemma EncodeOne(x: Byte)
    ensures Encode64([x]) == [Digit(Sextet0(x)), Digit(Sextet1(x, 0)), '=', '=']
  {
    hide Digit, Sextet0, Sextet1;
  }

  lemma QuadDigits(x: Byte, y: Byte, z: Byte)
    ensures Value(Digit(Sextet0(x))) == Some(Sextet0(x)) && Value(Digit(Sextet1(x, y))) == Some(Sextet1(x, y))
    ensures Value(Digit(Sextet2(y, z))) == Some(Sextet2(y, z)) && Value(Digit(Sextet3(z))) == Some(Sextet3(z))
    ensures Digit(Sextet2(y, z)) != '=' && Digit(Sextet3(z)) != '='
  {
    DigitRoundTrip(Sextet0(x));
    DigitRoundTrip(Sextet1(x, y));
    DigitRoundTrip(Sextet2(y, z));
    DigitRoundTrip(Sextet3(z));
  }

  // For every list of bytes, of whatever length, the padding that is stripped
  // is the padding that is put back.
  lemma TokenRoundTrip(bytes: seq<Byte>)
    ensures Decode64(Pad(StripPadding(Encode64(bytes)))) == Some(bytes)
  {
    EncodeShape(bytes);
    Decode64Encode64(bytes);
  }

  // ----- the cursor -----

  // Texts of a time and of an id, as isoformat and str write them.
  datatype Cursor = Cursor(createdAt: string, id: string)

  const CREATED_KEY := "{\"created_at\": \""
  const ID_KEY := ", \"id\": \""

  function CursorText(c: Cursor): string {
    CREATED_KEY + Escape(c.createdAt) + "\"" + (ID_KEY + Escape(c.id) + "\"" + "}")
  }

  function ReadCursorText(s: string): Option<Cursor> {
    if !(CREATED_KEY <= s) then None
    else
      var created := ReadString(s[|CREATED_KEY|..]);
      if created.None? || !(ID_KEY <= created.value.1) then None
      else
        var id := ReadString(created.value.1[|ID_KEY|..]);
        if id.None? || id.value.1 != "}" then None
        else Some(Cursor(created.value.0, id.value.0))
  }

  // encode_cursor
  function EncodeCursor(c: Cursor): string {
    StripPadding(Encode64(Encode(CursorText(c))))
  }

  // decode_cursor of a token that is given; None is the 422
  function DecodeCursor(token: string): Option<Cursor> {
    var bytes := Decode64(Pad(token));
    if bytes.None? then None else ReadCursorText(Decode(bytes.value))
  }

  lemma ReadBehind(key: string, s: string, rest: string)
    ensures key <= key + Escape(s) + "\"" + rest
    ensures ReadString((key + Escape(s) + "\"" + rest)[|key|..]) == Some((s, rest))
  {
    ReadQuoted(s, rest);
    var text := Escape(s) + "\"" + rest;
    hide Escape, ReadString;
    assert key + Escape(s) + "\"" + rest == key + text;
    assert (key + text)[|key|..] == text;
  }

  // A token decodes to the cursor it was made from.
  lemma CursorRoundTrip(c: Cursor)
    ensures DecodeCursor(EncodeCursor(c)) == Some(c)
  {
    TokenRoundTrip(Encode(CursorText(c)));
    DecodeEncode(CursorText(c));
    hide Encode64, Decode64, StripPadding, Pad, Encode, Decode;
    CursorTextReads(c);
    hide CursorText, ReadCursorText;
  }

  lemma CursorTextReads(c: Cursor)
    ensures ReadCursorText(CursorText(c)) == Some(c)
  {
    var rest := ID_KEY + Escape(c.id) + "\"" + "}";
    hide Escape, ReadString;
    ReadBehind(CREATED_KEY, c.createdAt, rest);
    ReadBehind(ID_KEY, c.id, "}");
  }
}
