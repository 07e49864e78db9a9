/** What the frame codec calls UTF-8 is the encoding of Unicode scalar values
    (RFC 3629, section 3). */
module Utf8 {
  import opened Basics
  import opened Frames

  type Scalar = c: int | 0 <= c < 0xD800 || 0xE000 <= c <= 0x10FFFF

  function Encode(c: Scalar): seq<byte>
  {
    if c < 0x80 then [c]
    else if c < 0x800 then [0xC0 + c / 64, 0x80 + c % 64]
    else if c < 0x10000 then [0xE0 + c / 4096, 0x80 + c / 64 % 64, 0x80 + c % 64]
    else [0xF0 + c / 262144, 0x80 + c / 4096 % 64, 0x80 + c / 64 % 64, 0x80 + c % 64]
  }

  function EncodeAll(text: seq<Scalar>): seq<byte>
  {
    if text == [] then [] else Encode(text[0]) + EncodeAll(text[1..])
  }

  lemma OneIsWide(c: Scalar, rest: seq<byte>)
    ensures Utf8Width(Encode(c) + rest) == |Encode(c)|
  {
    if c < 0x80 {
    } else if c < 0x800 {
      assert 2 <= c / 64 < 32;
    } else if c < 0x10000 {
      ThreeBytes(c);
    } else {
      FourBytes(c);
    }
  }

  lemma ThreeBytes(c: int)
    requires 0x800 <= c < 0xD800 || 0xE000 <= c < 0x10000
    ensures 0 <= c / 4096 < 16 && 0 <= c / 64 % 64 < 64
    ensures c / 4096 == 0 ==> c / 64 % 64 >= 0x20
    ensures c / 4096 == 13 ==> c / 64 % 64 < 0x20
  {
    assert c / 64 == c / 4096 * 64 + c / 64 % 64;
  }

  lemma FourBytes(c: int)
    requires 0x10000 <= c <= 0x10FFFF
    ensures 0 <= c / 262144 <= 4 && 0 <= c / 4096 % 64 < 64
    ensures c / 262144 == 0 ==> c / 4096 % 64 >= 0x10
    ensures c / 262144 == 4 ==> c / 4096 % 64 < 0x10
  {
    assert c / 4096 == c / 262144 * 64 + c / 4096 % 64;
  }

  lemma TwoIs(b: seq<byte>) returns (c: Scalar)
    requires |b| == 2 && 0xC2 <= b[0] <= 0xDF && 0x80 <= b[1] <= 0xBF
    ensures Encode(c) == b
  {
    c := (b[0] as int - 0xC0) * 64 + (b[1] as int - 0x80);
    assert c / 64 == b[0] as int - 0xC0 && c % 64 == b[1] as int - 0x80;
  }

  lemma Digits3(x: int, y: int, z: int)
    requires 0 <= x && 0 <= y < 64 && 0 <= z < 64
    ensures var c := x * 4096 + y * 64 + z; c / 4096 == x && c / 64 % 64 == y && c % 64 == z && c / 64 == x * 64 + y
  {
    var c := x * 4096 + y * 64 + z;
    assert c == (x * 64 + y) * 64 + z;
    assert c / 64 == x * 64 + y && c % 64 == z;
    assert (x * 64 + y) % 64 == y && (x * 64 + y) / 64 == x;
    assert c == x * 4096 + (y * 64 + z) && 0 <= y * 64 + z < 4096;
  }

  lemma ThreeIs(b: seq<byte>) returns (c: Scalar)
    requires |b| == 3 && 0xE0 <= b[0] <= 0xEF && 0x80 <= b[1] <= 0xBF && 0x80 <= b[2] <= 0xBF
    requires (b[0] == 0xE0 ==> b[1] >= 0xA0) && (b[0] == 0xED ==> b[1] <= 0x9F)
    ensures Encode(c) == b
  {
    var x, y, z := b[0] as int - 0xE0, b[1] as int - 0x80, b[2] as int - 0x80;
    c := x * 4096 + y * 64 + z;
    Digits3(x, y, z);
  }

  lemma FourIs(b: seq<byte>) returns (c: Scalar)
    requires |b| == 4 && 0xF0 <= b[0] <= 0xF4
    requires 0x80 <= b[1] <= 0xBF && 0x80 <= b[2] <= 0xBF && 0x80 <= b[3] <= 0xBF
    requires (b[0] == 0xF0 ==> b[1] >= 0x90) && (b[0] == 0xF4 ==> b[1] <= 0x8F)
    ensures Encode(c) == b
  {
    var w, x, y, z := b[0] as int - 0xF0, b[1] as int - 0x80, b[2] as int - 0x80, b[3] as int - 0x80;
    c := (w * 64 + x) * 4096 + y * 64 + z;
    Digits3(w * 64 + x, y, z);
    assert c == w * 262144 + (x * 4096 + y * 64 + z) && 0 <= x * 4096 + y * 64 + z < 262144;
    assert c / 262144 == w && (w * 64 + x) % 64 == x;
  }

  /** The first character of well-formed bytes. */
  lemma FirstIs(b: seq<byte>) returns (c: Scalar)
    requires Utf8Width(b) > 0
    ensures Encode(c) == b[..Utf8Width(b)]
  {
    var n := Utf8Width(b);
    if n == 1 {
      c := b[0];
    } else if n == 2 {
      c := TwoIs(b[..2]);
    } else if n == 3 {
      c := ThreeIs(b[..3]);
    } else {
      c := FourIs(b[..4]);
    }
  }

  lemma {:induction false} EncodedIsUtf8(text: seq<Scalar>)
    ensures IsUtf8(EncodeAll(text))
  {
    if text != [] {
      OneIsWide(text[0], EncodeAll(text[1..]));
      assert EncodeAll(text)[|Encode(text[0])|..] == EncodeAll(text[1..]);
      EncodedIsUtf8(text[1..]);
    }
  }

  lemma {:induction false} Utf8IsEncoded(b: seq<byte>) returns (text: seq<Scalar>)
    requires IsUtf8(b)
    ensures EncodeAll(text) == b
    decreases |b|
  {
    if b == [] {
      text := [];
    } else {
      var c := FirstIs(b);
      var rest := Utf8IsEncoded(b[Utf8Width(b)..]);
      text := [c] + rest;
      assert text[1..] == rest;
      assert b == b[..Utf8Width(b)] + b[Utf8Width(b)..];
    }
  }

  /** Main result: an id is taken for UTF-8 exactly if it encodes some text. */
  lemma Utf8Exactly(b: seq<byte>)
    ensures IsUtf8(b) <==> exists text :: EncodeAll(text) == b
  {
    if IsUtf8(b) {
      var text := Utf8IsEncoded(b);
    }
    if text :| EncodeAll(text) == b {
      EncodedIsUtf8(text);
    }
  }
}
