/** Interleaving invariance: the assembled message depends on each block's own events and on
    the message-level events, not on how they are interleaved. */
module AnthropicBlocks {
  import opened Prelude
  import opened Anthropic

  // ---- projections ------------------------------------------------------------------------

  function Own(f: Frame, i: int): seq<BlockEvent> {
    if f.Block? && f.index == i then [f.ev] else []
  }

  /** The events of one block, in order. */
  function Of(frames: seq<Frame>, i: int): seq<BlockEvent> {
    if frames == [] then [] else Own(frames[0], i) + Of(frames[1..], i)
  }

  function Top(f: Frame): seq<Frame> {
    if f.Block? then [] else [f]
  }

  /** The message-level events, failures included, in order. */
  function MessageLevel(frames: seq<Frame>): seq<Frame> {
    if frames == [] then [] else Top(frames[0]) + MessageLevel(frames[1..])
  }

  /** One block by itself. */
  function Fold(acc: Option<Acc>, evs: seq<BlockEvent>): Option<Acc>
    decreases |evs|
  {
    if evs == [] then acc else Fold(BlockStep(acc, evs[0]), evs[1..])
  }

  /** The message-level part of the state by itself. */
  function FoldMessages(st: State, fs: seq<Frame>): State
    decreases |fs|
  {
    if fs == [] then st else FoldMessages(OnMessage(st, fs[0]), fs[1..])
  }

  /** The first failure or undecodable event, if any. */
  function FirstError(fs: seq<Frame>): Option<Error> {
    if fs == [] then None
    else if fs[0].Failure? then Some(Vendor)
    else if fs[0].Malformed? then Some(Decode)
    else FirstError(fs[1..])
  }

  // ---- the state is the fold of its projections ---------------------------------------------

  /** maxIdx is the highest non-negative index in use, or -1. */
  ghost predicate Topped(st: State) {
    && -1 <= st.maxIdx && (st.maxIdx >= 0 ==> st.maxIdx in st.blocks)
    && forall i :: i in st.blocks ==> i <= st.maxIdx || i < 0
  }

  predicate SameMessage(s: State, t: State) {
    s.stop == t.stop && s.usage == t.usage && s.sawStop == t.sawStop
  }

  lemma FrameTopped(st: State, f: Frame)
    requires Topped(st)
    ensures Topped(OnFrame(st, f))
  {
    hide Extend, BlockEvents, Stop;
  }

  lemma {:induction false} MessagesAlike(s: State, t: State, fs: seq<Frame>)
    requires SameMessage(s, t)
    ensures SameMessage(FoldMessages(s, fs), FoldMessages(t, fs))
    decreases |fs|
  {
    if fs != [] {
      hide Stop;
      MessagesAlike(OnMessage(s, fs[0]), OnMessage(t, fs[0]), fs[1..]);
    }
  }

  /** A scan fails exactly with the first message-level error; otherwise every block is the
      fold of its own events and the rest is the fold of the message-level ones. */
  lemma {:induction false} ScanProjects(st: State, frames: seq<Frame>, end: StreamEnd)
    requires Topped(st)
    ensures var out := Scan(st, frames, end);
            if FirstError(MessageLevel(frames)).Some? then out.1 == FirstError(MessageLevel(frames))
            else
              && Topped(out.0)
              && (forall i :: At(out.0.blocks, i) == Fold(At(st.blocks, i), Of(frames, i)))
              && SameMessage(out.0, FoldMessages(st, MessageLevel(frames)))
              && out.1 == (if end == ReadError then Some(Read)
                           else if !out.0.sawStop && out.0.stop.None? then Some(Truncated) else None)
    decreases |frames|
  {
    hide Topped, BlockStep, BlockEvents, OnMessage;
    if frames != [] && !frames[0].Failure? && !frames[0].Malformed? {
      var f, rest := frames[0], frames[1..];
      var st' := OnFrame(st, f);
      FrameTopped(st, f);
      ScanProjects(st', rest, end);
      if f.Block? {
        assert MessageLevel(frames) == [] + MessageLevel(rest) == MessageLevel(rest);
        BlockOnly(st, f.index, f.ev);
        MessagesAlike(st', st, MessageLevel(rest));
        forall i
          ensures Fold(At(st.blocks, i), Of(frames, i)) == Fold(At(st'.blocks, i), Of(rest, i))
        {
          if i == f.index {
            assert Of(frames, i) == [f.ev] + Of(rest, i);
            assert ([f.ev] + Of(rest, i))[1..] == Of(rest, i);
          } else {
            assert Of(frames, i) == [] + Of(rest, i) == Of(rest, i);
          }
        }
      } else {
        assert MessageLevel(frames) == [f] + MessageLevel(rest);
        assert ([f] + MessageLevel(rest))[1..] == MessageLevel(rest);
        MessageOnly(st, f);
        forall i
          ensures Of(frames, i) == Of(rest, i)
        {
          assert [] + Of(rest, i) == Of(rest, i);
        }
      }
    } else if frames != [] {
      assert MessageLevel(frames) == [frames[0]] + MessageLevel(frames[1..]);
    }
  }

  lemma BlockOnly(st: State, i: int, ev: BlockEvent)
    ensures var st' := OnBlock(st, i, ev);
            SameMessage(st', st) && forall j :: At(st'.blocks, j) == if j == i then BlockStep(At(st.blocks, i), ev) else At(st.blocks, j)
  {
    hide Extend, BlockEvents;
  }

  lemma MessageOnly(st: State, f: Frame)
    ensures OnMessage(st, f).blocks == st.blocks
  {
    hide Stop;
  }

  // ---- interleaving invariance --------------------------------------------------------------

  lemma {:induction false} SameAssembly(s: State, t: State, i: int, valid: Bytes -> bool)
    requires forall j :: At(s.blocks, j) == At(t.blocks, j)
    requires s.maxIdx == t.maxIdx
    ensures Assemble(s.blocks, i, s.maxIdx, valid) == Assemble(t.blocks, i, t.maxIdx, valid)
    decreases s.maxIdx - i
  {
    hide ContentOf;
    if i <= s.maxIdx {
      assert At(s.blocks, i) == At(t.blocks, i);
      SameAssembly(s, t, i + 1, valid);
    }
  }

  lemma SameTop(s: State, t: State)
    requires Topped(s) && Topped(t) && forall j :: At(s.blocks, j) == At(t.blocks, j)
    ensures s.maxIdx == t.maxIdx
  {
    assert At(s.blocks, s.maxIdx) == At(t.blocks, s.maxIdx);
    assert At(s.blocks, t.maxIdx) == At(t.blocks, t.maxIdx);
  }

  /** Streams whose blocks fold alike and whose message-level events are the same assemble the
      same response, or fail the same way. */
  lemma FoldsDecide(xs: seq<Frame>, ys: seq<Frame>, end: StreamEnd, valid: Bytes -> bool)
    requires forall i :: Fold(None, Of(xs, i)) == Fold(None, Of(ys, i))
    requires MessageLevel(xs) == MessageLevel(ys)
    ensures Streamed(xs, end, valid).0 == Streamed(ys, end, valid).0
  {
    hide Topped, Scan, Assemble, Fold, FoldMessages, FirstError, Of, MessageLevel;
    StartTopped();
    ScanProjects(START, xs, end);
    ScanProjects(START, ys, end);
    var s, t := Scan(START, xs, end).0, Scan(START, ys, end).0;
    if FirstError(MessageLevel(xs)).None? {
      forall j
        ensures At(s.blocks, j) == At(t.blocks, j)
      {
        assert At(s.blocks, j) == Fold(At(START.blocks, j), Of(xs, j));
        assert At(t.blocks, j) == Fold(At(START.blocks, j), Of(ys, j));
        assert At(START.blocks, j) == None;
      }
      SameTop(s, t);
      SameAssembly(s, t, 0, valid);
    }
  }

  lemma StartTopped()
    ensures Topped(START)
  {
  }

  /** Any interleaving of the same blocks and the same message-level events gives the same
      response. */
  lemma InterleavingInvariance(xs: seq<Frame>, ys: seq<Frame>, end: StreamEnd, valid: Bytes -> bool)
    requires forall i :: Of(xs, i) == Of(ys, i)
    requires MessageLevel(xs) == MessageLevel(ys)
    ensures Streamed(xs, end, valid).0 == Streamed(ys, end, valid).0
  {
    FoldsDecide(xs, ys, end, valid);
  }

  // ---- a start that arrives late ------------------------------------------------------------

  function Pieces(ds: seq<Delta>): seq<BlockEvent> {
    seq(|ds|, k requires 0 <= k < |ds| => Piece(ds[k]))
  }

  lemma {:induction false} FoldAppend(acc: Option<Acc>, xs: seq<BlockEvent>, ys: seq<BlockEvent>)
    ensures Fold(acc, xs + ys) == Fold(Fold(acc, xs), ys)
    decreases |xs|
  {
    hide BlockStep;
    if xs == [] {
      assert xs + ys == ys;
    } else {
      assert (xs + ys)[1..] == xs[1..] + ys;
      FoldAppend(BlockStep(acc, xs[0]), xs[1..], ys);
    }
  }

  /** The deltas lost when they come before the start: those ahead of the first text or
      thinking delta, which is the one that recovers the block. */
  function Lost(ds: seq<Delta>): (lost: seq<Delta>)
    ensures |lost| <= |ds| && (|lost| < |ds| ==> Recovered(ds[|lost|]).Some?)
  {
    if ds == [] || Recovered(ds[0]).Some? then [] else [ds[0]] + Lost(ds[1..])
  }

  function ExtendAll(acc: Acc, ds: seq<Delta>): Acc
    decreases |ds|
  {
    if ds == [] then acc else ExtendAll(Extend(acc, ds[0]), ds[1..])
  }

  // What one delta, and a run of deltas, adds to each of the three strings.

  function Text1(d: Delta): Bytes {
    if d.TextDelta? || d.ThinkingDelta? then d.text else ""
  }

  function Signature1(d: Delta): Bytes {
    if d.SignatureDelta? then d.text else ""
  }

  function Json1(d: Delta): Bytes {
    if d.JsonDelta? then d.text else ""
  }

  function TextIn(ds: seq<Delta>): Bytes {
    if ds == [] then "" else Text1(ds[0]) + TextIn(ds[1..])
  }

  function SignatureIn(ds: seq<Delta>): Bytes {
    if ds == [] then "" else Signature1(ds[0]) + SignatureIn(ds[1..])
  }

  function JsonIn(ds: seq<Delta>): Bytes {
    if ds == [] then "" else Json1(ds[0]) + JsonIn(ds[1..])
  }

  lemma {:induction false} ExtendAllIs(acc: Acc, ds: seq<Delta>)
    ensures ExtendAll(acc, ds) == Acc(acc.typ, acc.text + TextIn(ds), acc.signature + SignatureIn(ds), acc.id, acc.name, acc.json + JsonIn(ds))
    decreases |ds|
  {
    if ds == [] {
      assert acc.text + "" == acc.text && acc.signature + "" == acc.signature && acc.json + "" == acc.json;
    } else {
      var acc' := Extend(acc, ds[0]);
      ExtendAllIs(acc', ds[1..]);
      Assoc(acc.text, Text1(ds[0]), TextIn(ds[1..]));
      Assoc(acc.signature, Signature1(ds[0]), SignatureIn(ds[1..]));
      Assoc(acc.json, Json1(ds[0]), JsonIn(ds[1..]));
    }
  }

  lemma Assoc(a: Bytes, b: Bytes, c: Bytes)
    ensures a + b + c == a + (b + c) && a + "" == a
  {
  }

  lemma {:induction false} FoldPieces(acc: Acc, ds: seq<Delta>)
    ensures Fold(Some(acc), Pieces(ds)) == Some(ExtendAll(acc, ds))
    decreases |ds|
  {
    hide Extend;
    if ds != [] {
      assert Pieces(ds)[1..] == Pieces(ds[1..]);
      FoldPieces(Extend(acc, ds[0]), ds[1..]);
    }
  }

  /** Deltas alone: what comes after the lost ones, on a recovered block. */
  lemma {:induction false} FoldUnstarted(ds: seq<Delta>)
    ensures var kept := ds[|Lost(ds)|..];
            ds == Lost(ds) + kept &&
            Fold(None, Pieces(ds)) == if kept == [] then None else Some(ExtendAll(Recovered(kept[0]).value, kept))
    decreases |ds|
  {
    hide Extend;
    if ds != [] {
      assert Pieces(ds)[1..] == Pieces(ds[1..]);
      if Recovered(ds[0]).Some? {
        FoldPieces(Extend(Recovered(ds[0]).value, ds[0]), ds[1..]);
      } else {
        FoldUnstarted(ds[1..]);
        assert ds == [ds[0]] + ds[1..];
      }
    }
  }

  lemma {:induction false} TextAppend(xs: seq<Delta>, ys: seq<Delta>)
    ensures TextIn(xs + ys) == TextIn(xs) + TextIn(ys)
  {
    hide Text1;
    if xs == [] {
      assert xs + ys == ys;
    } else {
      assert (xs + ys)[1..] == xs[1..] + ys;
      TextAppend(xs[1..], ys);
    }
  }

  lemma {:induction false} SignatureAppend(xs: seq<Delta>, ys: seq<Delta>)
    ensures SignatureIn(xs + ys) == SignatureIn(xs) + SignatureIn(ys)
  {
    hide Signature1;
    if xs == [] {
      assert xs + ys == ys;
    } else {
      assert (xs + ys)[1..] == xs[1..] + ys;
      SignatureAppend(xs[1..], ys);
    }
  }

  lemma {:induction false} JsonAppend(xs: seq<Delta>, ys: seq<Delta>)
    ensures JsonIn(xs + ys) == JsonIn(xs) + JsonIn(ys)
  {
    hide Json1;
    if xs == [] {
      assert xs + ys == ys;
    } else {
      assert (xs + ys)[1..] == xs[1..] + ys;
      JsonAppend(xs[1..], ys);
    }
  }

  lemma TextsAppend(xs: seq<Delta>, ys: seq<Delta>)
    ensures SignatureIn(xs + ys) == SignatureIn(xs) + SignatureIn(ys) && JsonIn(xs + ys) == JsonIn(xs) + JsonIn(ys)
    ensures TextIn(xs + ys) == TextIn(xs) + TextIn(ys)
  {
    TextAppend(xs, ys);
    SignatureAppend(xs, ys);
    JsonAppend(xs, ys);
  }

  lemma {:induction false} LostHasNoText(ds: seq<Delta>)
    ensures TextIn(Lost(ds)) == ""
  {
    if ds != [] && Recovered(ds[0]).None? {
      LostHasNoText(ds[1..]);
      assert ([ds[0]] + Lost(ds[1..]))[1..] == Lost(ds[1..]);
    }
  }

  /** A start past some of its own deltas builds the same block, whatever the block's type, if
      and only if the deltas ahead of the first text or thinking delta carry nothing. */
  lemma LateStartIff(start: BlockEvent, ds: seq<Delta>)
    requires start.Start?
    ensures Fold(None, Pieces(ds) + [start]) == Fold(None, [start] + Pieces(ds)) <==>
            SignatureIn(Lost(ds)) == "" && JsonIn(Lost(ds)) == ""
  {
    hide Extend;
    var lost, kept := Lost(ds), ds[|Lost(ds)|..];
    FoldUnstarted(ds);
    FoldAppend(None, Pieces(ds), [start]);
    FoldAppend(None, [start], Pieces(ds));
    assert [start][1..] == [];
    var begun := Acc(start.typ, "", "", start.id, start.name, "");
    assert Fold(None, [start]) == Some(begun);
    FoldPieces(begun, ds);
    ExtendAllIs(begun, ds);
    TextsAppend(lost, kept);
    LostHasNoText(ds);
    var base := if kept == [] then Bare("") else Recovered(kept[0]).value;
    ExtendAllIs(base, kept);
    Suffixes(SignatureIn(lost), SignatureIn(kept));
    Suffixes(JsonIn(lost), JsonIn(kept));
    Suffixes("", TextIn(kept));
  }

  lemma Suffixes(a: Bytes, b: Bytes)
    ensures a + b == b <==> a == ""
    ensures "" + (a + b) == a + b && "" + b == b
  {
    if a + b == b {
      assert |a + b| == |a| + |b|;
    }
  }

  lemma {:induction false} OfAppend(xs: seq<Frame>, ys: seq<Frame>, i: int)
    ensures Of(xs + ys, i) == Of(xs, i) + Of(ys, i)
    ensures MessageLevel(xs + ys) == MessageLevel(xs) + MessageLevel(ys)
  {
    hide Own, Top;
    if xs == [] {
      assert xs + ys == ys;
    } else {
      assert (xs + ys)[1..] == xs[1..] + ys;
      OfAppend(xs[1..], ys, i);
    }
  }

  lemma OfOne(i: int, ev: BlockEvent, j: int)
    ensures Of([Block(i, ev)], j) == (if i == j then [ev] else []) && MessageLevel([Block(i, ev)]) == []
  {
    assert [Block(i, ev)][1..] == [];
  }

  /** Delaying a block's first start past some of its own deltas, with anything of other blocks
      and of the message in between, leaves the response as it was, provided the first of
      those deltas is a text or thinking delta. */
  lemma DelayedStart(pre: seq<Frame>, i: int, start: BlockEvent, mid: seq<Frame>, post: seq<Frame>, ds: seq<Delta>,
                     end: StreamEnd, valid: Bytes -> bool)
    requires start.Start? && Of(pre, i) == [] && Of(mid, i) == Pieces(ds)
    requires ds == [] || Recovered(ds[0]).Some?
    ensures Streamed(pre + [Block(i, start)] + mid + post, end, valid).0
         == Streamed(pre + mid + [Block(i, start)] + post, end, valid).0
  {
    hide Streamed, Of, MessageLevel, Fold, Pieces;
    var one := [Block(i, start)];
    var xs, ys := pre + one + mid + post, pre + mid + one + post;
    LateStartIff(start, ds);
    forall j
      ensures Fold(None, Of(xs, j)) == Fold(None, Of(ys, j)) && MessageLevel(xs) == MessageLevel(ys)
    {
      OfAppend(pre + one + mid, post, j);
      OfAppend(pre + one, mid, j);
      OfAppend(pre, one, j);
      OfAppend(pre + mid + one, post, j);
      OfAppend(pre + mid, one, j);
      OfAppend(pre, mid, j);
      OfOne(i, start, j);
      if j == i {
        assert Of(xs, i) == [start] + Pieces(ds) + Of(post, i);
        assert Of(ys, i) == Pieces(ds) + [start] + Of(post, i);
        FoldAppend(None, [start] + Pieces(ds), Of(post, i));
        FoldAppend(None, Pieces(ds) + [start], Of(post, i));
      } else {
        assert Of(xs, j) == Of(pre, j) + Of(mid, j) + Of(post, j);
        assert Of(ys, j) == Of(pre, j) + Of(mid, j) + Of(post, j);
      }
    }
    assert Fold(None, Of(xs, 0)) == Fold(None, Of(ys, 0));
    FoldsDecide(xs, ys, end, valid);
  }
}
