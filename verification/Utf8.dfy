// UTF-8 as section 3 of RFC 3629 defines it, a decoder that drops what it
// cannot decode, and cutting a text at a number of bytes.
module Utf8 {

  type Byte = b: int | 0 <= b < 256

  function EncodeChar(c: char): (bytes: seq<Byte>)
    ensures 1 <= |bytes| <= 4
  {
    var n := c as int;
    if n < 0x80 then [n]
    else if n < 0x800 then [0xC0 + n / 64, 0x80 + n % 64]
    else if n < 0x1_0000 then [0xE0 + n / 4096, 0x80 + n / 64 % 64, 0x80 + n % 64]
    else [0xF0 + n / 262144, 0x80 + n / 4096 % 64, 0x80 + n / 64 % 64, 0x80 + n % 64]
  }

  function Encode(s: string): seq<Byte> {
    if s == [] then [] else EncodeChar(s[0]) + Encode(s[1..])
  }

  predicate Continuation(bytes: seq<Byte>, i: nat) {
    i < |bytes| && 0x80 <= bytes[i] < 0xC0
  }

  // A code point that some encoding of the given length stands for: no
  // overlong form, no surrogate.
  predicate Scalar(n: int, length: nat) {
    && (match length case 2 => 0x80 <= n < 0x800 case 3 => 0x800 <= n < 0x1_0000 case _ => 0x1_0000 <= n)
    && (0 <= n < 0xD800 || 0xE000 <= n < 0x11_0000)
  }

  // The character at the front and the number of its bytes; 0 when the front
  // is not the encoding of a character.
  function First(bytes: seq<Byte>): (r: (char, nat))
    ensures r.1 <= |bytes|
  {
    if bytes == [] then ('?', 0)
    else if bytes[0] < 0x80 then (bytes[0] as char, 1)
    else if bytes[0] < 0xC0 then ('?', 0)
    else if bytes[0] < 0xE0 then
      if !Continuation(bytes, 1) then ('?', 0)
      else
        var n := (bytes[0] as int - 0xC0) * 64 + (bytes[1] as int - 0x80);
        if Scalar(n, 2) then (n as char, 2) else ('?', 0)
    else if bytes[0] < 0xF0 then
      if !Continuation(bytes, 1) || !Continuation(bytes, 2) then ('?', 0)
      else
        var n := (bytes[0] as int - 0xE0) * 4096 + (bytes[1] as int - 0x80) * 64 + (bytes[2] as int - 0x80);
        if Scalar(n, 3) then (n as char, 3) else ('?', 0)
    else
      if !Continuation(bytes, 1) || !Continuation(bytes, 2) || !Continuation(bytes, 3) then ('?', 0)
      else
        var n := (bytes[0] as int - 0xF0) * 262144 + (bytes[1] as int - 0x80) * 4096 + (bytes[2] as int - 0x80) * 64 + (bytes[3] as int - 0x80);
        if Scalar(n, 4) then (n as char, 4) else ('?', 0)
  }

  // Decoding with errors ignored: a byte that starts no character is dropped.
  function Decode(bytes: seq<Byte>): string {
    if bytes == [] then []
    else
      var (c, length) := First(bytes);
      if length == 0 then Decode(bytes[1..]) else [c] + Decode(bytes[length..])
  }

  // _truncate_utf8
  function Truncate(s: string, maximum: nat): string {
    var bytes := Encode(s);
    if |bytes| <= maximum then s else Decode(bytes[..maximum])
  }

  // ----- facts -----

  lemma Digits(n: nat)
    ensures n == n / 64 * 64 + n % 64
    ensures n / 64 == n / 4096 * 64 + n / 64 % 64
    ensures n / 4096 == n / 262144 * 64 + n / 4096 % 64
  {
    assert n / 4096 == n / 64 / 64 && n / 262144 == n / 4096 / 64;
  }

  lemma FirstOfTwo(c: char, rest: seq<Byte>)
    requires 0x80 <= c as int < 0x800
    ensures First(EncodeChar(c) + rest) == (c, 2)
  {
    var n := c as int;
    var bytes := EncodeChar(c) + rest;
    assert bytes[0] == 0xC0 + n / 64 && bytes[1] == 0x80 + n % 64;
    Digits(n);
  }

  lemma FirstOfThree(c: char, rest: seq<Byte>)
    requires 0x800 <= c as int < 0x1_0000
    ensures First(EncodeChar(c) + rest) == (c, 3)
  {
    var n := c as int;
    var bytes := EncodeChar(c) + rest;
    Digits(n);
    var high, middle, low := n / 4096, n / 64 % 64, n % 64;
    assert n == high * 4096 + middle * 64 + low && high < 16;
    assert bytes[0] == 0xE0 + high && bytes[1] == 0x80 + middle && bytes[2] == 0x80 + low;
  }

  lemma FirstOfFour(c: char, rest: seq<Byte>)
    requires 0x1_0000 <= c as int
    ensures First(EncodeChar(c) + rest) == (c, 4)
  {
    var n := c as int;
    var bytes := EncodeChar(c) + rest;
    Digits(n);
    var top, high, middle, low := n / 262144, n / 4096 % 64, n / 64 % 64, n % 64;
    assert n == top * 262144 + high * 4096 + middle * 64 + low && top < 5;
    assert bytes[0] == 0xF0 + top && bytes[1] == 0x80 + high && bytes[2] == 0x80 + middle && bytes[3] == 0x80 + low;
  }

  lemma FirstOfChar(c: char, rest: seq<Byte>)
    ensures First(EncodeChar(c) + rest) == (c, |EncodeChar(c)|)
  {
    if c as int < 0x80 {
    } else if c as int < 0x800 {
      FirstOfTwo(c, rest);
    } else if c as int < 0x1_0000 {
      FirstOfThree(c, rest);
    } else {
      FirstOfFour(c, rest);
    }
  }

  lemma DecodeChar(c: char, rest: seq<Byte>)
    ensures Decode(EncodeChar(c) + rest) == [c] + Decode(rest)
  {
    FirstOfChar(c, rest);
    hide First, EncodeChar;
    assert (EncodeChar(c) + rest)[|EncodeChar(c)|..] == rest;
  }

  // Bytes none of which starts a character decode to nothing.
  lemma {:induction false} DecodeContinuations(bytes: seq<Byte>)
    requires forall i :: 0 <= i < |bytes| ==> Continuation(bytes, i)
    ensures Decode(bytes) == []
  {
    if bytes != [] {
      assert Continuation(bytes, 0);
      forall i | 0 <= i < |bytes[1..]| ensures Continuation(bytes[1..], i) {
        assert Continuation(bytes, i + 1);
      }
      DecodeContinuations(bytes[1..]);
    }
  }

  // A character that is cut in the middle decodes to nothing.
  lemma DecodeCutChar(c: char, length: nat)
    requires length < |EncodeChar(c)|
    ensures Decode(EncodeChar(c)[..length]) == []
  {
    if length > 0 {
      var bytes := EncodeChar(c)[..length];
      assert First(bytes).1 == 0;
      assert forall i :: 0 <= i < |bytes[1..]| ==> Continuation(bytes[1..], i);
      DecodeContinuations(bytes[1..]);
    }
  }

  lemma {:induction false} EncodeAppend(a: string, b: string)
    ensures Encode(a + b) == Encode(a) + Encode(b)
  {
    hide EncodeChar;
    if a == [] {
      assert a + b == b;
    } else {
      assert (a + b)[1..] == a[1..] + b;
      EncodeAppend(a[1..], b);
    }
  }

  // Every text survives a round trip.
  lemma {:induction false} DecodeEncode(s: string)
    ensures Decode(Encode(s)) == s
  {
    if s != [] {
      DecodeChar(s[0], Encode(s[1..]));
      DecodeEncode(s[1..]);
    }
  }

  lemma {:induction false} CutIsLongestPrefix(s: string, maximum: nat)
    requires maximum < |Encode(s)|
    ensures var r := Decode(Encode(s)[..maximum]);
      && r <= s && |Encode(r)| <= maximum
      && forall j :: |r| < j <= |s| ==> |Encode(s[..j])| > maximum
  {
    hide EncodeChar, Decode;
    var head, tail := EncodeChar(s[0]), Encode(s[1..]);
    var r := Decode(Encode(s)[..maximum]);
    assert Encode(s) == head + tail;
    if |head| <= maximum {
      var rest := maximum - |head|;
      assert (head + tail)[..maximum] == head + tail[..rest];
      DecodeChar(s[0], tail[..rest]);
      CutIsLongestPrefix(s[1..], rest);
      var shorter := Decode(tail[..rest]);
      assert r == [s[0]] + shorter && r[1..] == shorter;
      forall j | |r| < j <= |s| ensures |Encode(s[..j])| > maximum {
        assert s[..j][1..] == s[1..][..j - 1];
      }
    } else {
      assert (head + tail)[..maximum] == head[..maximum];
      DecodeCutChar(s[0], maximum);
      assert r == [];
      forall j | 0 < j <= |s| ensures |Encode(s[..j])| > maximum {
        assert s[..j][0] == s[0];
      }
    }
  }

  // Cutting keeps whole characters, and as many of them as fit.
  lemma TruncateIsLongestPrefix(s: string, maximum: nat)
    ensures var r := Truncate(s, maximum);
      && r <= s && |Encode(r)| <= maximum
      && forall j :: |r| < j <= |s| ==> |Encode(s[..j])| > maximum
  {
    if |Encode(s)| > maximum {
      CutIsLongestPrefix(s, maximum);
    }
  }
}
