/** UTF-8 as section 4 of RFC 3629 defines it, with Go's rule that a byte which starts no
    well-formed character decodes as an error of width one. */
module Utf8 {
  import opened Prelude

  /** A byte value. Integers outside 0..255 behave as bytes that lead and continue nothing. */
  type Byte = int

  // ---- section 4 of RFC 3629 ------------------------------------------------------------

  /** The length a lead byte announces; 0 for a byte that leads nothing. */
  function Length(lead: Byte): nat {
    if 0 <= lead <= 0x7F then 1
    else if 0xC2 <= lead <= 0xDF then 2
    else if 0xE0 <= lead <= 0xEF then 3
    else if 0xF0 <= lead <= 0xF4 then 4
    else 0
  }

  predicate Tail(b: Byte) {
    0x80 <= b <= 0xBF
  }

  predicate Second(lead: Byte, b: Byte) {
    if lead == 0xE0 then 0xA0 <= b <= 0xBF
    else if lead == 0xED then 0x80 <= b <= 0x9F
    else if lead == 0xF0 then 0x90 <= b <= 0xBF
    else if lead == 0xF4 then 0x80 <= b <= 0x8F
    else Tail(b)
  }

  /** The bytes present obey the grammar as far as they go. */
  predicate Conforms(s: seq<Byte>) {
    && s != []
    && |s| <= Length(s[0])
    && (|s| > 1 ==> Second(s[0], s[1]))
    && forall i :: 2 <= i < |s| ==> Tail(s[i])
  }

  /** One character of the grammar. */
  predicate WellFormed(s: seq<Byte>) {
    Conforms(s) && |s| == Length(s[0])
  }

  /** A character cut short. */
  predicate Partial(s: seq<Byte>) {
    Conforms(s) && |s| < Length(s[0])
  }

  /** Cut short means exactly: some continuation completes it. */
  lemma PartialIff(s: seq<Byte>)
    ensures Partial(s) <==> s != [] && exists t: seq<Byte> :: t != [] && WellFormed(s + t)
  {
    if Partial(s) {
      var t := Completion(s);
      assert WellFormed(s + t);
    }
    if s != [] && exists t: seq<Byte> :: t != [] && WellFormed(s + t) {
      var t: seq<Byte> :| t != [] && WellFormed(s + t);
      assert (s + t)[0] == s[0];
      assert |s| > 1 ==> (s + t)[1] == s[1];
      assert forall i :: 2 <= i < |s| ==> (s + t)[i] == s[i];
    }
  }

  function Completion(s: seq<Byte>): (t: seq<Byte>)
    requires Partial(s)
    ensures t != [] && WellFormed(s + t)
  {
    var second := if s[0] == 0xE0 then 0xA0 else if s[0] == 0xF0 then 0x90 else 0x80;
    var all := [s[0], second, 0x80, 0x80];
    all[|s|..Length(s[0])]
  }

  // ---- decoding ---------------------------------------------------------------------------

  datatype Rune = Rune(code: int, size: nat)

  const ERROR := Rune(0xFFFD, 1)

  function Code(s: seq<Byte>): int
    requires WellFormed(s)
  {
    match |s|
    case 1 => s[0]
    case 2 => (s[0] - 0xC0) * 0x40 + (s[1] - 0x80)
    case 3 => (s[0] - 0xE0) * 0x1000 + (s[1] - 0x80) * 0x40 + (s[2] - 0x80)
    case _ => (s[0] - 0xF0) * 0x4_0000 + (s[1] - 0x80) * 0x1000 + (s[2] - 0x80) * 0x40 + (s[3] - 0x80)
  }

  /** utf8.DecodeRune. */
  function Decode(s: seq<Byte>): (r: Rune)
    requires s != []
    ensures 1 <= r.size <= |s|
  {
    var n := Length(s[0]);
    if 0 < n <= |s| && WellFormed(s[..n]) then Rune(Code(s[..n]), n) else ERROR
  }

  /** utf8.FullRune: nothing to wait for. */
  predicate FullRune(s: seq<Byte>) {
    s != [] && !Partial(s)
  }

  /** A string decoded rune by rune, as a range loop does. */
  function Runes(s: seq<Byte>): seq<Rune> {
    if s == [] then [] else [Decode(s)] + Runes(s[Decode(s).size..])
  }

  /** Once nothing can complete the character at hand, later bytes do not change it. */
  lemma DecodeStable(s: seq<Byte>, t: seq<Byte>)
    requires FullRune(s)
    ensures Decode(s + t) == Decode(s)
  {
    var n := Length(s[0]);
    assert (s + t)[0] == s[0];
    if 0 < n <= |s| {
      assert (s + t)[..n] == s[..n];
    } else if 0 < n <= |s + t| && WellFormed((s + t)[..n]) {
      var w := (s + t)[..n];
      assert |s| > 1 ==> w[1] == s[1];
      assert forall i :: 2 <= i < |s| ==> w[i] == s[i];
      assert Partial(s);
    }
  }

  /** Cutting after the decoded bytes does not change them either. */
  lemma DecodeCut(s: seq<Byte>, k: nat)
    requires s != [] && Decode(s).size <= k <= |s|
    ensures Decode(s[..k]) == Decode(s)
  {
    var n := Length(s[0]);
    assert s[..k][0] == s[0];
    if 0 < n <= k {
      assert s[..k][..n] == s[..n];
    }
  }
}
