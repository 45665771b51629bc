/** provider/clibackend/clibackend.go: the streaming reader that never cuts a character. */
module CliBackend {
  import opened Prelude
  import opened Utf8

  type Chunk = seq<Byte>

  /** The length completeUTF8Prefix computes. */
  function Complete(s: Chunk): (k: nat)
    ensures k <= |s|
  {
    if FullRune(s) then Decode(s).size + Complete(s[Decode(s).size..]) else 0
  }

  method CompleteUtf8Prefix(b: Chunk) returns (i: nat)
    ensures i == Complete(b)
  {
    i := 0;
    while i < |b|
      invariant i <= |b|
      invariant Complete(b) == i + Complete(b[i..])
    {
      if !FullRune(b[i..]) {
        break;
      }
      ghost var rest := b[i..];
      var rune := Decode(b[i..]);
      i := i + rune.size;
      assert b[i..] == rest[rune.size..];
    }
  }

  /** What is held back is empty or one character cut short: at most three bytes. */
  lemma {:induction false} HeldBack(s: Chunk)
    ensures var held := s[Complete(s)..]; (held == [] || Partial(held)) && |held| <= 3
    decreases |s|
  {
    if FullRune(s) {
      var n := Decode(s).size;
      HeldBack(s[n..]);
      assert s[n..][Complete(s[n..])..] == s[Complete(s)..];
    }
  }

  /** The prefix ends on a boundary whatever comes next: decoding it by itself and going on from
      what is held back is decoding the whole. */
  lemma {:induction false} PrefixDecodesAlone(s: Chunk, t: Chunk)
    ensures Runes(s + t) == Runes(s[..Complete(s)]) + Runes(s[Complete(s)..] + t)
    decreases |s|
  {
    hide FullRune, Decode, Runes;
    var k := Complete(s);
    if FullRune(s) {
      var n := Decode(s).size;
      DecodeStable(s, t);
      DecodeCut(s, k);
      PrefixDecodesAlone(s[n..], t);
      RunesCons(s + t);
      RunesCons(s[..k]);
      assert (s + t)[n..] == s[n..] + t;
      assert s[..k][n..] == s[n..][..k - n];
      assert s[n..][k - n..] == s[k..];
      assert [Decode(s)] + (Runes(s[n..][..k - n]) + Runes(s[k..] + t))
          == [Decode(s)] + Runes(s[n..][..k - n]) + Runes(s[k..] + t);
    } else {
      assert s[..0] == [] && s[0..] == s;
      NoRunes();
    }
  }

  lemma RunesCons(s: Chunk)
    requires s != []
    ensures Decode(s).size <= |s| && Runes(s) == [Decode(s)] + Runes(s[Decode(s).size..])
  {
  }

  lemma NoRunes()
    ensures Runes([]) == []
  {
  }

  /** The runes a consumer sees that decodes every piece by itself. */
  function PieceRunes(pieces: seq<Chunk>): seq<Rune> {
    if pieces == [] then [] else PieceRunes(pieces[..|pieces| - 1]) + Runes(pieces[|pieces| - 1])
  }

  /** The pieces so far, together with the bytes held back, are a faithful cut of `input`. */
  ghost predicate Faithful(pieces: seq<Chunk>, pending: Chunk, input: Chunk) {
    && Flatten(pieces) + pending == input
    && (pending == [] || Partial(pending))
    && |pending| <= 3
    && forall t: Chunk :: Runes(input + t) == PieceRunes(pieces) + Runes(pending + t)
  }

  lemma FaithfulStart()
    ensures Faithful([], [], [])
  {
    assert forall t: Chunk :: [] + t == t;
  }

  /** The pieces after a read has left `s` to look at. */
  function Emitted(pieces: seq<Chunk>, s: Chunk): seq<Chunk> {
    if Complete(s) > 0 then pieces + [s[..Complete(s)]] else pieces
  }

  /** One read: append, emit the complete prefix if there is one, keep the rest. */
  lemma FaithfulRead(pieces: seq<Chunk>, pending: Chunk, input: Chunk, more: Chunk)
    requires Faithful(pieces, pending, input)
    ensures var s := pending + more; Faithful(Emitted(pieces, s), s[Complete(s)..], input + more)
  {
    hide Runes, Complete, Partial, Flatten, Emitted, PieceRunes;
    var s := pending + more;
    HeldBack(s);
    EmittedBytes(pieces, s);
    assert Flatten(pieces) + s == input + more;
    forall t: Chunk
      ensures Runes(input + more + t) == PieceRunes(Emitted(pieces, s)) + Runes(s[Complete(s)..] + t)
    {
      assert input + more + t == input + (more + t);
      assert Runes(input + (more + t)) == PieceRunes(pieces) + Runes(pending + (more + t));
      assert pending + (more + t) == s + t;
      EmittedRunes(pieces, s, t);
    }
  }

  lemma EmittedBytes(pieces: seq<Chunk>, s: Chunk)
    ensures Flatten(Emitted(pieces, s)) + s[Complete(s)..] == Flatten(pieces) + s
  {
    hide Complete, Flatten;
    var k := Complete(s);
    FlattenSnoc(pieces, s[..k]);
    assert s[..k] + s[k..] == s;
    assert Flatten(pieces) + s[..k] + s[k..] == Flatten(pieces) + (s[..k] + s[k..]);
  }

  lemma EmittedRunes(pieces: seq<Chunk>, s: Chunk, t: Chunk)
    ensures PieceRunes(pieces) + Runes(s + t) == PieceRunes(Emitted(pieces, s)) + Runes(s[Complete(s)..] + t)
  {
    hide Complete, Runes, PieceRunes;
    var k := Complete(s);
    PrefixDecodesAlone(s, t);
    PieceRunesSnoc(pieces, s[..k]);
    assert s[..0] == [];
    var a, b, c := PieceRunes(pieces), Runes(s[..k]), Runes(s[k..] + t);
    assert a + (b + c) == a + b + c;
    assert k == 0 ==> b == [] && a + b == a;
  }

  lemma PieceRunesSnoc(pieces: seq<Chunk>, piece: Chunk)
    ensures PieceRunes(pieces + [piece]) == PieceRunes(pieces) + Runes(piece)
    ensures Runes([]) == []
  {
    assert (pieces + [piece])[..|pieces|] == pieces;
  }

  /** The end of the output: whatever is held back is emitted as it is. */
  lemma FaithfulEnd(pieces: seq<Chunk>, pending: Chunk, input: Chunk)
    requires Faithful(pieces, pending, input)
    ensures var all := if pending == [] then pieces else pieces + [pending];
            Flatten(all) == input && PieceRunes(all) == Runes(input)
  {
    FlattenSnoc(pieces, pending);
    assert (pieces + [pending])[..|pieces|] == pieces;
    assert input + [] == input && pending + [] == pending;
    assert Runes(input + []) == PieceRunes(pieces) + Runes(pending + []);
    assert Flatten(pieces) + [] == Flatten(pieces);
  }

  /** The consumer took every piece so far. */
  ghost predicate Accepted(accept: seq<Chunk> -> bool, pieces: seq<Chunk>) {
    forall i :: 0 < i <= |pieces| ==> accept(pieces[..i])
  }

  lemma AcceptedSnoc(accept: seq<Chunk> -> bool, pieces: seq<Chunk>, piece: Chunk)
    requires Accepted(accept, pieces)
    ensures accept(pieces + [piece]) ==> Accepted(accept, pieces + [piece])
    ensures forall i :: 0 < i < |pieces + [piece]| ==> accept((pieces + [piece])[..i])
  {
    assert forall i :: 0 < i <= |pieces| ==> (pieces + [piece])[..i] == pieces[..i];
    assert (pieces + [piece])[..|pieces| + 1] == pieces + [piece];
  }

  // ---- the provider's two calls -------------------------------------------------------

  datatype ReadEnd = Eof | ReadError

  datatype Outcome = Answer(text: Chunk) | Rejected | ReadFailed | CommandFailed

  /** Complete: the whole standard output, trimmed. */
  function Blocking(arrivals: seq<Chunk>, exitOk: bool, trim: Chunk -> Chunk): Outcome {
    if exitOk then Answer(trim(Flatten(arrivals))) else CommandFailed
  }

  /** Stream: output arrives cut anywhere; `accept` is the consumer's callback on a text delta,
      told every piece so far, and `acceptDone` the same callback on the final done event, told
      all of them. The pieces handed over are returned beside the outcome: exactly what the
      blocking call comes to, unless reading failed or the callback refused an event. */
  method Stream(arrivals: seq<Chunk>, end: ReadEnd, exitOk: bool, accept: seq<Chunk> -> bool,
                acceptDone: seq<Chunk> -> bool, trim: Chunk -> Chunk)
      returns (pieces: seq<Chunk>, outcome: Outcome)
    ensures Flatten(pieces) <= Flatten(arrivals)
    ensures outcome.Answer? || outcome.CommandFailed? ==>
              && end == Eof
              && Flatten(pieces) == Flatten(arrivals)
              && PieceRunes(pieces) == Runes(Flatten(arrivals))
              && outcome == Blocking(arrivals, exitOk, trim) == (if exitOk then Answer(trim(Flatten(arrivals))) else CommandFailed)
    ensures outcome.ReadFailed? ==> end == ReadError && |Flatten(arrivals)| - |Flatten(pieces)| <= 3
    ensures outcome.Answer? ==> acceptDone(pieces)
    ensures outcome.Rejected? ==>
              || (pieces != [] && !accept(pieces))
              || (end == Eof && exitOk && !acceptDone(pieces)
                  && Flatten(pieces) == Flatten(arrivals) && PieceRunes(pieces) == Runes(Flatten(arrivals)))
    ensures forall i :: 0 < i < |pieces| ==> accept(pieces[..i])
  {
    hide Flatten, PieceRunes, Runes, Partial, Complete, Accepted;
    var full: Chunk := [];
    var pending: Chunk := [];
    pieces := [];
    Start(accept);
    var i := 0;
    while i < |arrivals|
      invariant i <= |arrivals|
      invariant Faithful(pieces, pending, Flatten(arrivals[..i]))
      invariant full == Flatten(pieces)
      invariant Accepted(accept, pieces)
    {
      FaithfulRead(pieces, pending, Flatten(arrivals[..i]), arrivals[i]);
      FlattenPrefix(arrivals, i);
      FlattenPrefix(arrivals, i + 1);
      if |arrivals[i]| > 0 {
        pending := pending + arrivals[i];
        var k := CompleteUtf8Prefix(pending);
        if k > 0 {
          FlattenSnoc(pieces, pending[..k]);
          AcceptedSnoc(accept, pieces, pending[..k]);
          full := full + pending[..k];
          pieces := pieces + [pending[..k]];
          if !accept(pieces) {
            outcome := Rejected;
            return;
          }
          pending := pending[k..];
        }
      } else {
        assert pending + arrivals[i] == pending;
        StillPending(pending);
      }
      i := i + 1;
    }
    assert arrivals[..i] == arrivals;
    FaithfulEnd(pieces, pending, Flatten(arrivals));
    AcceptedSnoc(accept, pieces, pending);
    AcceptedBefore(accept, pieces);
    if end == ReadError {
      outcome := ReadFailed;
      return;
    }
    if |pending| > 0 {
      FlattenSnoc(pieces, pending);
      full := full + pending;
      pieces := pieces + [pending];
      if !accept(pieces) {
        outcome := Rejected;
        return;
      }
    }
    if !exitOk {
      outcome := CommandFailed;
      return;
    }
    if !acceptDone(pieces) {
      outcome := Rejected;
      return;
    }
    outcome := Answer(trim(full));
  }

  lemma Start(accept: seq<Chunk> -> bool)
    ensures Faithful([], [], Flatten([])) && Flatten<Byte>([]) == [] && Accepted(accept, [])
  {
    FaithfulStart();
  }

  lemma AcceptedBefore(accept: seq<Chunk> -> bool, pieces: seq<Chunk>)
    requires Accepted(accept, pieces)
    ensures forall i :: 0 < i < |pieces| ==> accept(pieces[..i])
  {
  }

  /** Bytes already held back stay held back when nothing arrives. */
  lemma StillPending(pending: Chunk)
    requires pending == [] || Partial(pending)
    ensures Complete(pending) == 0
  {
  }

  lemma FlattenPrefix(arrivals: seq<Chunk>, i: nat)
    requires i <= |arrivals|
    ensures Flatten(arrivals[..i]) <= Flatten(arrivals)
    ensures i > 0 ==> Flatten(arrivals[..i]) == Flatten(arrivals[..i - 1]) + arrivals[i - 1]
    ensures arrivals[..0] == []
  {
    hide Flatten;
    if i > 0 {
      Cut(arrivals, i);
      FlattenSnoc(arrivals[..i - 1], arrivals[i - 1]);
    }
    assert arrivals[..i] + arrivals[i..] == arrivals;
    FlattenAppend(arrivals[..i], arrivals[i..]);
  }

  lemma Cut(arrivals: seq<Chunk>, i: nat)
    requires 0 < i <= |arrivals|
    ensures arrivals[..i] == arrivals[..i - 1] + [arrivals[i - 1]]
  {
  }
}
