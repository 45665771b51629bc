/** The grammar and the decoder against the encoding of section 3 of RFC 3629: they accept the
    encodings of the scalar values and nothing else. */
module Utf8Encoding {
  import opened Prelude
  import opened Utf8

  /** Surrogates are not encoded. */
  predicate Scalar(c: int) {
    0 <= c <= 0x10FFFF && !(0xD800 <= c <= 0xDFFF)
  }

  /** Six payload bits in every byte but the first, most significant first. */
  function Encode(c: int): (s: seq<Byte>)
    requires Scalar(c)
    ensures 1 <= |s| <= 4
  {
    if c < 0x80 then [c]
    else if c < 0x800 then [0xC0 + c / 0x40, 0x80 + c % 0x40]
    else if c < 0x1_0000 then [0xE0 + c / 0x1000, 0x80 + c / 0x40 % 0x40, 0x80 + c % 0x40]
    else [0xF0 + c / 0x4_0000, 0x80 + c / 0x1000 % 0x40, 0x80 + c / 0x40 % 0x40, 0x80 + c % 0x40]
  }

  /** Every encoding is one character of the grammar, of the scalar value it encodes. */
  lemma EncodeWellFormed(c: int)
    requires Scalar(c)
    ensures WellFormed(Encode(c)) && Code(Encode(c)) == c
  {
    Digits(c);
  }

  lemma Digits(c: int)
    requires 0 <= c
    ensures c == c / 0x40 * 0x40 + c % 0x40
    ensures c / 0x40 == c / 0x1000 * 0x40 + c / 0x40 % 0x40
    ensures c / 0x1000 == c / 0x4_0000 * 0x40 + c / 0x1000 % 0x40
    ensures 0 <= c % 0x40 < 0x40 && 0 <= c / 0x40 % 0x40 < 0x40 && 0 <= c / 0x1000 % 0x40 < 0x40
  {
  }

  /** And every character of the grammar is the encoding of its value, which is a scalar value:
      no overlong forms, no surrogates, nothing above U+10FFFF. */
  lemma WellFormedEncodes(s: seq<Byte>)
    requires WellFormed(s)
    ensures Scalar(Code(s)) && Encode(Code(s)) == s
  {
    if |s| == 1 {
      assert s == [s[0]];
    } else if |s| == 2 {
      TwoBytes(s);
    } else if |s| == 3 {
      ThreeBytes(s);
    } else {
      FourBytes(s);
    }
  }

  lemma TwoBytes(s: seq<Byte>)
    requires WellFormed(s) && |s| == 2
    ensures Scalar(Code(s)) && Encode(Code(s)) == s
  {
    assert s == [s[0], s[1]];
    Packed(s[0] - 0xC0, s[1] - 0x80);
  }

  lemma ThreeBytes(s: seq<Byte>)
    requires WellFormed(s) && |s| == 3
    ensures Scalar(Code(s)) && Encode(Code(s)) == s
  {
    assert s == [s[0], s[1], s[2]];
    Packed((s[0] - 0xE0) * 0x40 + (s[1] - 0x80), s[2] - 0x80);
    Packed(s[0] - 0xE0, s[1] - 0x80);
    Digits(Code(s));
  }

  lemma FourBytes(s: seq<Byte>)
    requires WellFormed(s) && |s| == 4
    ensures Scalar(Code(s)) && Encode(Code(s)) == s
  {
    assert s == [s[0], s[1], s[2], s[3]];
    Packed(((s[0] - 0xF0) * 0x40 + (s[1] - 0x80)) * 0x40 + (s[2] - 0x80), s[3] - 0x80);
    Packed((s[0] - 0xF0) * 0x40 + (s[1] - 0x80), s[2] - 0x80);
    Packed(s[0] - 0xF0, s[1] - 0x80);
    Digits(Code(s));
  }

  lemma Packed(high: int, low: int)
    requires 0 <= high && 0 <= low < 0x40
    ensures (high * 0x40 + low) / 0x40 == high && (high * 0x40 + low) % 0x40 == low
  {
  }

  lemma Prefix(c: int, s: seq<Byte>)
    requires Scalar(c) && Encode(c) <= s
    ensures Decode(s) == Rune(c, |Encode(c)|)
  {
    hide Encode, Code;
    EncodeWellFormed(c);
    var w := Encode(c);
    assert s[0] == w[0] && Length(s[0]) == |w|;
    assert s[..|w|] == w;
  }

  /** The decoder returns the scalar value whose encoding the bytes begin with, and its length;
      if they begin with none, the replacement character, and one byte. */
  lemma DecodeIs(s: seq<Byte>)
    requires s != []
    ensures forall c :: Scalar(c) && Encode(c) <= s ==> Decode(s) == Rune(c, |Encode(c)|)
    ensures (forall c :: Scalar(c) ==> !(Encode(c) <= s)) ==> Decode(s) == Rune(0xFFFD, 1)
  {
    hide Encode, Code, Scalar;
    forall c | Scalar(c) && Encode(c) <= s
      ensures Decode(s) == Rune(c, |Encode(c)|)
    {
      Prefix(c, s);
    }
    var n := Length(s[0]);
    if 0 < n <= |s| && WellFormed(s[..n]) {
      WellFormedEncodes(s[..n]);
      assert Encode(Code(s[..n])) <= s;
    }
  }

  /** Bytes are held back exactly when they are a proper beginning of some encoding. */
  lemma PartialBegins(s: seq<Byte>)
    ensures Partial(s) <==> s != [] && exists c :: Scalar(c) && s < Encode(c)
  {
    hide Encode, Code, Scalar, Conforms;
    PartialIff(s);
    if Partial(s) {
      var t: seq<Byte> :| t != [] && WellFormed(s + t);
      WellFormedEncodes(s + t);
      assert s < Encode(Code(s + t));
    }
    if s != [] && exists c :: Scalar(c) && s < Encode(c) {
      var c :| Scalar(c) && s < Encode(c);
      EncodeWellFormed(c);
      var t := Encode(c)[|s|..];
      assert s + t == Encode(c);
    }
  }

  predicate Text(cs: seq<int>) {
    forall i :: 0 <= i < |cs| ==> Scalar(cs[i])
  }

  function EncodeAll(cs: seq<int>): seq<Byte>
    requires Text(cs)
  {
    if cs == [] then [] else Encode(cs[0]) + EncodeAll(cs[1..])
  }

  function Codes(rs: seq<Rune>): seq<int> {
    if rs == [] then [] else [rs[0].code] + Codes(rs[1..])
  }

  /** Decoding an encoded text gives the text back. */
  lemma {:induction false} TextRoundTrip(cs: seq<int>)
    requires Text(cs)
    ensures Codes(Runes(EncodeAll(cs))) == cs
  {
    hide Encode, Decode, Scalar;
    if cs != [] {
      var w, rest := Encode(cs[0]), EncodeAll(cs[1..]);
      Prefix(cs[0], w + rest);
      TextRoundTrip(cs[1..]);
      assert (w + rest)[|w|..] == rest;
      assert Runes(w + rest)[1..] == Runes(rest);
    }
  }
}
