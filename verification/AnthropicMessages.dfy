/** The streamed message against the one the blocking call decodes, and the outcomes, the usage
    and the events of a stream in terms of its frames alone. */
module AnthropicMessages {
  import opened Prelude
  import opened Anthropic
  import opened AnthropicBlocks

  // ---- the blocking call ------------------------------------------------------------------

  datatype ReplyBlock = ReplyBlock(typ: Bytes, text: Bytes, thinking: Bytes, signature: Bytes, id: Bytes, name: Bytes, input: Bytes)

  datatype Reply = Reply(blocks: seq<ReplyBlock>, reason: Bytes, input: int, output: int, cacheWrite: int, cacheRead: int)

  function WholeBlock(b: ReplyBlock): seq<Content> {
    if b.typ == "text" then [Text(b.text)]
    else if b.typ == "thinking" then [Thinking(b.thinking, b.signature)]
    else if b.typ == "tool_use" then [ToolUse(b.id, b.name, b.input)]
    else []
  }

  function WholeContent(blocks: seq<ReplyBlock>): seq<Content> {
    if blocks == [] then [] else WholeBlock(blocks[0]) + WholeContent(blocks[1..])
  }

  /** toResponse. */
  function Complete(r: Reply): Response {
    Response(WholeContent(r.blocks), Some(Stop(r.reason)),
             Usage(r.input + r.cacheRead + r.cacheWrite, r.output, r.cacheRead, r.cacheWrite))
  }

  // ---- a stream that carries the reply ----------------------------------------------------

  /** Deltas that add up to a block; a tool call without arguments may send none. */
  predicate Adds(b: ReplyBlock, ds: seq<Delta>) {
    && (b.typ == "text" ==> TextIn(ds) == b.text)
    && (b.typ == "thinking" ==> TextIn(ds) == b.thinking && SignatureIn(ds) == b.signature)
    && (b.typ == "tool_use" ==> JsonIn(ds) == b.input || (JsonIn(ds) == "" && b.input == "{}"))
  }

  /** The start frame, unless it was lost and the first delta tells the type; the deltas; the end
      frame or not. */
  predicate CarriesBlock(b: ReplyBlock, ds: seq<Delta>, evs: seq<BlockEvent>) {
    && Adds(b, ds)
    && (|| evs == [Start(b.typ, b.id, b.name)] + Pieces(ds)
        || evs == [Start(b.typ, b.id, b.name)] + Pieces(ds) + [End]
        || (ds != [] && evs == Pieces(ds) && ((b.typ == "text" && ds[0].TextDelta?) || (b.typ == "thinking" && ds[0].ThinkingDelta?))))
  }

  /** The blocks under their indices, cut in any way and interleaved in any way. */
  predicate CarriesBlocks(blocks: seq<ReplyBlock>, cuts: seq<seq<Delta>>, frames: seq<Frame>) {
    && |cuts| == |blocks|
    && (forall k :: 0 <= k < |blocks| ==> CarriesBlock(blocks[k], cuts[k], Of(frames, k)))
    && forall f :: f in frames && f.Block? ==> 0 <= f.index < |blocks|
  }

  // ---- one block --------------------------------------------------------------------------

  /** What the stream makes of a block. */
  function CutBlock(b: ReplyBlock, ds: seq<Delta>, valid: Bytes -> bool): seq<Content> {
    if b.typ == "text" then (if b.text == "" then [] else [Text(b.text)])
    else if b.typ == "thinking" then [Thinking(b.thinking, b.signature)]
    else if b.typ == "tool_use" then
      [ToolUse(b.id, b.name, if JsonIn(ds) != "" && valid(JsonIn(ds)) then b.input else "{}")]
    else []
  }

  lemma BlockFold(b: ReplyBlock, ds: seq<Delta>, evs: seq<BlockEvent>, valid: Bytes -> bool)
    requires CarriesBlock(b, ds, evs)
    ensures Fold(None, evs).Some? && ContentOf(Fold(None, evs).value, valid) == CutBlock(b, ds, valid)
  {
    hide Extend, ExtendAll, Fold, Pieces;
    var start := Start(b.typ, b.id, b.name);
    if evs == [start] + Pieces(ds) || evs == [start] + Pieces(ds) + [End] {
      var begun := Acc(b.typ, "", "", b.id, b.name, "");
      StartFold(start);
      FoldAppend(None, [start], Pieces(ds));
      FoldPieces(begun, ds);
      ExtendAllIs(begun, ds);
      Suffixes("", TextIn(ds));
      Suffixes("", SignatureIn(ds));
      Suffixes("", JsonIn(ds));
      FoldAppend(None, [start] + Pieces(ds), [End]);
      EndFold(Fold(None, [start] + Pieces(ds)));
    } else {
      HeadlessFold(b, ds);
    }
  }

  lemma StartFold(start: BlockEvent)
    requires start.Start?
    ensures Fold(None, [start]) == Some(Acc(start.typ, "", "", start.id, start.name, ""))
  {
    assert [start][1..] == [];
  }

  lemma EndFold(acc: Option<Acc>)
    ensures Fold(acc, [End]) == acc
  {
    assert [End][1..] == [];
  }

  lemma HeadlessFold(b: ReplyBlock, ds: seq<Delta>)
    requires ds != [] && ((b.typ == "text" && ds[0].TextDelta?) || (b.typ == "thinking" && ds[0].ThinkingDelta?))
    ensures Fold(None, Pieces(ds)) == Some(Acc(b.typ, TextIn(ds), SignatureIn(ds), "", "", JsonIn(ds)))
  {
    hide Extend, ExtendAll, Pieces;
    FoldUnstarted(ds);
    assert Lost(ds) == [] && ds[0..] == ds;
    ExtendAllIs(Bare(b.typ), ds);
    Suffixes("", TextIn(ds));
    Suffixes("", SignatureIn(ds));
    Suffixes("", JsonIn(ds));
  }

  // ---- the content ------------------------------------------------------------------------

  function CutContent(blocks: seq<ReplyBlock>, cuts: seq<seq<Delta>>, valid: Bytes -> bool): seq<Content>
    requires |cuts| == |blocks|
  {
    if blocks == [] then [] else CutBlock(blocks[0], cuts[0], valid) + CutContent(blocks[1..], cuts[1..], valid)
  }

  predicate Held(held: map<int, Acc>, k: int, b: ReplyBlock, ds: seq<Delta>, valid: Bytes -> bool) {
    k in held && ContentOf(held[k], valid) == CutBlock(b, ds, valid)
  }

  lemma {:induction false} Assembled(held: map<int, Acc>, n: nat, blocks: seq<ReplyBlock>, cuts: seq<seq<Delta>>, valid: Bytes -> bool)
    requires |cuts| == |blocks| && n <= |blocks|
    requires forall k :: n <= k < |blocks| ==> Held(held, k, blocks[k], cuts[k], valid)
    ensures Assemble(held, n, |blocks| - 1, valid) == CutContent(blocks[n..], cuts[n..], valid)
    decreases |blocks| - n
  {
    hide ContentOf, CutBlock;
    if n < |blocks| {
      assert Held(held, n, blocks[n], cuts[n], valid);
      Assembled(held, n + 1, blocks, cuts, valid);
      assert blocks[n..][1..] == blocks[n + 1..] && cuts[n..][1..] == cuts[n + 1..];
    }
  }

  lemma {:induction false} NoneOf(frames: seq<Frame>, i: int)
    requires forall f :: f in frames && f.Block? ==> f.index != i
    ensures Of(frames, i) == []
  {
    if frames != [] {
      assert frames[0] in frames;
      NoneOf(frames[1..], i);
    }
  }

  /** The state a successful stream ends in. */
  lemma Ends(frames: seq<Frame>, end: StreamEnd, valid: Bytes -> bool)
    requires Streamed(frames, end, valid).0.Ok?
    ensures var st := Scan(START, frames, end).0;
            && Topped(st) && FirstError(MessageLevel(frames)) == None && end == Eof
            && (forall i :: At(st.blocks, i) == Fold(None, Of(frames, i)))
            && SameMessage(st, FoldMessages(START, MessageLevel(frames)))
            && Streamed(frames, end, valid).0.value == Response(Assemble(st.blocks, 0, st.maxIdx, valid), st.stop, st.usage)
            && Streamed(frames, end, valid).1 == st.events + [Finished(st.usage)]
  {
    hide Topped, Scan, Assemble, Fold, FoldMessages, FirstError, Of, MessageLevel;
    StartTopped();
    ScanProjects(START, frames, end);
    assert forall i :: At(START.blocks, i) == None;
  }

  /** The content of any stream that carries the blocks. */
  lemma ContentIs(blocks: seq<ReplyBlock>, cuts: seq<seq<Delta>>, frames: seq<Frame>, end: StreamEnd, valid: Bytes -> bool)
    requires CarriesBlocks(blocks, cuts, frames) && Streamed(frames, end, valid).0.Ok?
    ensures Streamed(frames, end, valid).0.value.content == CutContent(blocks, cuts, valid)
  {
    hide Streamed, Scan, Assemble, Fold, FoldMessages, FirstError, Of, MessageLevel, CarriesBlock, ContentOf, CutBlock;
    Ends(frames, end, valid);
    var st := Scan(START, frames, end).0;
    forall k | 0 <= k < |blocks|
      ensures Held(st.blocks, k, blocks[k], cuts[k], valid)
    {
      assert At(st.blocks, k) == Fold(None, Of(frames, k));
      BlockFold(blocks[k], cuts[k], Of(frames, k), valid);
    }
    forall k | 0 <= k < |blocks|
      ensures k in st.blocks
    {
      assert Held(st.blocks, k, blocks[k], cuts[k], valid);
    }
    OnlyThese(frames, |blocks|, st);
    Assembled(st.blocks, 0, blocks, cuts, valid);
    assert blocks[0..] == blocks && cuts[0..] == cuts;
  }

  lemma OnlyThese(frames: seq<Frame>, n: nat, st: State)
    requires Topped(st) && forall i :: At(st.blocks, i) == Fold(None, Of(frames, i))
    requires forall f :: f in frames && f.Block? ==> 0 <= f.index < n
    requires forall k :: 0 <= k < n ==> k in st.blocks
    ensures st.maxIdx == n - 1
  {
    hide Of;
    if st.maxIdx >= n {
      NotThere(frames, st, st.maxIdx);
      assert false;
    }
    if n > 0 {
      assert n - 1 in st.blocks;
    }
  }

  lemma NotThere(frames: seq<Frame>, st: State, i: int)
    requires forall j :: At(st.blocks, j) == Fold(None, Of(frames, j))
    requires forall f :: f in frames && f.Block? ==> f.index != i
    ensures i !in st.blocks
  {
    hide Of;
    NoneOf(frames, i);
    assert At(st.blocks, i) == Fold(None, Of(frames, i));
  }

  /** A block that comes out of the stream as the blocking call decodes it. */
  predicate Alike(b: ReplyBlock, valid: Bytes -> bool) {
    && (b.typ == "text" ==> b.text != "")
    && (b.typ == "tool_use" ==> b.input == "{}" || (b.input != "" && valid(b.input)))
  }

  lemma AlikeIff(b: ReplyBlock, ds: seq<Delta>, valid: Bytes -> bool)
    requires Adds(b, ds)
    ensures |CutBlock(b, ds, valid)| <= |WholeBlock(b)|
    ensures CutBlock(b, ds, valid) == WholeBlock(b) <==> Alike(b, valid)
    ensures |CutBlock(b, ds, valid)| < |WholeBlock(b)| ==> !Alike(b, valid)
  {
  }

  lemma {:induction false} ContentIff(blocks: seq<ReplyBlock>, cuts: seq<seq<Delta>>, valid: Bytes -> bool)
    requires |cuts| == |blocks| && forall k :: 0 <= k < |blocks| ==> Adds(blocks[k], cuts[k])
    ensures |CutContent(blocks, cuts, valid)| <= |WholeContent(blocks)|
    ensures CutContent(blocks, cuts, valid) == WholeContent(blocks) <==> forall k :: 0 <= k < |blocks| ==> Alike(blocks[k], valid)
    decreases |blocks|
  {
    hide Adds, CutBlock, WholeBlock, Alike;
    if blocks != [] {
      var b := blocks[0];
      AlikeIff(b, cuts[0], valid);
      ContentIff(blocks[1..], cuts[1..], valid);
      SameSplit(CutBlock(b, cuts[0], valid), CutContent(blocks[1..], cuts[1..], valid), WholeBlock(b), WholeContent(blocks[1..]));
      AllCons(blocks, valid);
    }
  }

  lemma SameSplit(a: seq<Content>, x: seq<Content>, b: seq<Content>, y: seq<Content>)
    requires |a| <= |b| && |x| <= |y|
    ensures a + x == b + y <==> a == b && x == y
  {
    if a + x == b + y {
      assert |a| == |b|;
      assert a == (a + x)[..|a|] && b == (b + y)[..|b|] && x == (a + x)[|a|..] && y == (b + y)[|b|..];
    }
  }

  lemma AllCons(blocks: seq<ReplyBlock>, valid: Bytes -> bool)
    requires blocks != []
    ensures (forall k :: 0 <= k < |blocks| ==> Alike(blocks[k], valid))
            <==> Alike(blocks[0], valid) && forall k :: 0 <= k < |blocks| - 1 ==> Alike(blocks[1..][k], valid)
  {
    hide Alike;
    if Alike(blocks[0], valid) && forall k :: 0 <= k < |blocks| - 1 ==> Alike(blocks[1..][k], valid) {
      forall k | 0 <= k < |blocks|
        ensures Alike(blocks[k], valid)
      {
        if k > 0 {
          assert blocks[k] == blocks[1..][k - 1];
        }
      }
    }
  }

  // ---- stop reason and usage --------------------------------------------------------------

  lemma {:induction false} MessagesAppend(st: State, a: seq<Frame>, b: seq<Frame>)
    ensures FoldMessages(st, a + b) == FoldMessages(FoldMessages(st, a), b)
    decreases |a|
  {
    hide OnMessage;
    if a == [] {
      assert a + b == b;
    } else {
      assert (a + b)[1..] == a[1..] + b;
      MessagesAppend(OnMessage(st, a[0]), a[1..], b);
    }
  }

  lemma OneMessage(st: State, f: Frame)
    ensures FoldMessages(st, [f]) == OnMessage(st, f)
  {
    assert [f][1..] == [];
  }

  lemma {:induction false} StopKept(st: State, fs: seq<Frame>)
    requires forall i :: 0 <= i < |fs| ==> !(fs[i].MessageDelta? && fs[i].stop != "")
    ensures FoldMessages(st, fs).stop == st.stop
    decreases |fs|
  {
    if fs != [] {
      StopKept(OnMessage(st, fs[0]), fs[1..]);
    }
  }

  lemma {:induction false} OutputKept(st: State, fs: seq<Frame>)
    requires forall i :: 0 <= i < |fs| ==> !(fs[i].MessageDelta? && fs[i].output > 0)
    ensures FoldMessages(st, fs).usage.output == st.usage.output
    decreases |fs|
  {
    hide Stop;
    if fs != [] {
      OutputKept(OnMessage(st, fs[0]), fs[1..]);
    }
  }

  lemma {:induction false} InputKept(st: State, fs: seq<Frame>)
    requires forall i :: 0 <= i < |fs| ==> !fs[i].MessageStart?
    ensures FoldMessages(st, fs).usage.(output := st.usage.output) == st.usage
    decreases |fs|
  {
    hide Stop;
    if fs != [] {
      InputKept(OnMessage(st, fs[0]), fs[1..]);
    }
  }

  /** The stop reason of a response is that of the last message delta that has one. */
  lemma StopTold(frames: seq<Frame>, end: StreamEnd, valid: Bytes -> bool, before: seq<Frame>, m: Frame, after: seq<Frame>)
    requires Streamed(frames, end, valid).0.Ok? && MessageLevel(frames) == before + [m] + after
    requires m.MessageDelta? && m.stop != "" && forall i :: 0 <= i < |after| ==> !(after[i].MessageDelta? && after[i].stop != "")
    ensures var stop := Streamed(frames, end, valid).0.value.stop;
            && (m.stop == "end_turn" || m.stop == "stop_sequence" <==> stop == Some(EndTurn))
            && (m.stop == "tool_use" <==> stop == Some(ToolUseStop))
            && (m.stop == "max_tokens" <==> stop == Some(MaxTokens))
            && stop != None
  {
    hide Streamed, Scan, Assemble, Fold, FoldMessages, FirstError, Of, MessageLevel, Topped;
    Ends(frames, end, valid);
    MessagesAppend(START, before + [m], after);
    MessagesAppend(START, before, [m]);
    OneMessage(FoldMessages(START, before), m);
    StopKept(FoldMessages(START, before + [m]), after);
  }

  /** The output tokens are the last positive count. */
  lemma OutputTold(frames: seq<Frame>, end: StreamEnd, valid: Bytes -> bool, before: seq<Frame>, m: Frame, after: seq<Frame>)
    requires Streamed(frames, end, valid).0.Ok? && MessageLevel(frames) == before + [m] + after
    requires m.MessageDelta? && m.output > 0 && forall i :: 0 <= i < |after| ==> !(after[i].MessageDelta? && after[i].output > 0)
    ensures Streamed(frames, end, valid).0.value.usage.output == m.output
  {
    hide Streamed, Scan, Assemble, Fold, FoldMessages, FirstError, Of, MessageLevel, Topped, Stop;
    Ends(frames, end, valid);
    MessagesAppend(START, before + [m], after);
    MessagesAppend(START, before, [m]);
    OneMessage(FoldMessages(START, before), m);
    OutputKept(FoldMessages(START, before + [m]), after);
  }

  /** The input tokens of the last message start, cached ones included. */
  lemma InputTold(frames: seq<Frame>, end: StreamEnd, valid: Bytes -> bool, before: seq<Frame>, m: Frame, after: seq<Frame>)
    requires Streamed(frames, end, valid).0.Ok? && MessageLevel(frames) == before + [m] + after
    requires m.MessageStart? && forall i :: 0 <= i < |after| ==> !after[i].MessageStart?
    ensures var usage := Streamed(frames, end, valid).0.value.usage;
            && usage.input == m.input + m.cacheWrite + m.cacheRead
            && usage.cacheRead == m.cacheRead && usage.cacheWrite == m.cacheWrite
  {
    hide Streamed, Scan, Assemble, Fold, FoldMessages, FirstError, Of, MessageLevel, Topped;
    Ends(frames, end, valid);
    MessagesAppend(START, before + [m], after);
    MessagesAppend(START, before, [m]);
    OneMessage(FoldMessages(START, before), m);
    InputKept(FoldMessages(START, before + [m]), after);
  }

  lemma {:induction false} QuietKept(st: State, fs: seq<Frame>)
    requires forall i :: 0 <= i < |fs| ==> fs[i].Ignored? || fs[i].MessageStop?
    ensures SameMessage(FoldMessages(st, fs), st.(sawStop := FoldMessages(st, fs).sawStop))
    ensures FoldMessages(st, fs).sawStop <==> st.sawStop || exists i :: 0 <= i < |fs| && fs[i].MessageStop?
    decreases |fs|
  {
    if fs != [] {
      QuietKept(OnMessage(st, fs[0]), fs[1..]);
      if exists i :: 0 <= i < |fs| && fs[i].MessageStop? {
        var i :| 0 <= i < |fs| && fs[i].MessageStop?;
        assert i > 0 ==> fs[1..][i - 1].MessageStop?;
      }
    }
  }

  // ---- streaming and blocking -------------------------------------------------------------

  /** The message-level frames of a complete stream: one start, one delta, and stops or ignored
      ones anywhere. */
  predicate CarriesMessage(r: Reply, a: seq<Frame>, b: seq<Frame>, c: seq<Frame>, fs: seq<Frame>) {
    && fs == a + [MessageStart(r.input, r.cacheWrite, r.cacheRead)] + b + [MessageDelta(r.reason, r.output)] + c
    && r.reason != "" && r.output >= 0
    && forall f :: f in a + b + c ==> f.Ignored? || f.MessageStop?
  }

  lemma QuietParts(a: seq<Frame>, b: seq<Frame>, c: seq<Frame>)
    requires forall f :: f in a + b + c ==> f.Ignored? || f.MessageStop?
    ensures forall i :: 0 <= i < |a| ==> a[i].Ignored? || a[i].MessageStop?
    ensures forall i :: 0 <= i < |b| ==> b[i].Ignored? || b[i].MessageStop?
    ensures forall i :: 0 <= i < |c| ==> c[i].Ignored? || c[i].MessageStop?
  {
    forall i | 0 <= i < |a|
      ensures a[i].Ignored? || a[i].MessageStop?
    {
      assert a[i] in a + b + c;
    }
    forall i | 0 <= i < |b|
      ensures b[i].Ignored? || b[i].MessageStop?
    {
      assert b[i] in a + b + c;
    }
    forall i | 0 <= i < |c|
      ensures c[i].Ignored? || c[i].MessageStop?
    {
      assert c[i] in a + b + c;
    }
  }

  lemma MessageFold(r: Reply, a: seq<Frame>, b: seq<Frame>, c: seq<Frame>, fs: seq<Frame>)
    requires CarriesMessage(r, a, b, c, fs)
    ensures var st := FoldMessages(START, fs);
            && st.stop == Some(Stop(r.reason))
            && st.usage == Usage(r.input + r.cacheRead + r.cacheWrite, r.output, r.cacheRead, r.cacheWrite)
  {
    hide Stop, FoldMessages;
    QuietParts(a, b, c);
    var start, delta := MessageStart(r.input, r.cacheWrite, r.cacheRead), MessageDelta(r.reason, r.output);
    var s1 := FoldMessages(START, a);
    QuietKept(START, a);
    MessagesAppend(START, a, [start]);
    OneMessage(s1, start);
    var s2 := OnMessage(s1, start);
    MessagesAppend(START, a + [start], b);
    QuietKept(s2, b);
    var s3 := FoldMessages(s2, b);
    MessagesAppend(START, a + [start] + b, [delta]);
    OneMessage(s3, delta);
    var s4 := OnMessage(s3, delta);
    MessagesAppend(START, a + [start] + b + [delta], c);
    QuietKept(s4, c);
  }

  lemma {:induction false} NoErrors(fs: seq<Frame>)
    requires forall i :: 0 <= i < |fs| ==> !fs[i].Failure? && !fs[i].Malformed?
    ensures FirstError(fs) == None
  {
    if fs != [] {
      NoErrors(fs[1..]);
    }
  }

  lemma MessageNoErrors(r: Reply, a: seq<Frame>, b: seq<Frame>, c: seq<Frame>, fs: seq<Frame>)
    requires CarriesMessage(r, a, b, c, fs)
    ensures FirstError(fs) == None
  {
    QuietParts(a, b, c);
    var start, delta := MessageStart(r.input, r.cacheWrite, r.cacheRead), MessageDelta(r.reason, r.output);
    forall i | 0 <= i < |fs|
      ensures !fs[i].Failure? && !fs[i].Malformed?
    {
      assert fs[i] in a || fs[i] == start || fs[i] in b || fs[i] == delta || fs[i] in c;
    }
    NoErrors(fs);
  }

  /** A stream with no error and a stop reason gives a response. */
  lemma Succeeds(frames: seq<Frame>, valid: Bytes -> bool)
    requires FirstError(MessageLevel(frames)) == None
    requires var m := FoldMessages(START, MessageLevel(frames)); m.sawStop || m.stop.Some?
    ensures Streamed(frames, Eof, valid).0.Ok?
  {
    hide Topped, Scan, Assemble, Fold, FoldMessages, FirstError, Of, MessageLevel;
    StartTopped();
    ScanProjects(START, frames, Eof);
  }

  /** A reply cut into a stream in any way, its blocks interleaved in any way, comes out as the
      blocking call decodes it exactly when no text block of it is empty and every tool input is
      valid. Stop reason and usage always do. */
  lemma StreamIsComplete(r: Reply, cuts: seq<seq<Delta>>, frames: seq<Frame>, a: seq<Frame>, b: seq<Frame>, c: seq<Frame>,
                         valid: Bytes -> bool)
    requires CarriesBlocks(r.blocks, cuts, frames) && CarriesMessage(r, a, b, c, MessageLevel(frames))
    ensures var out := Streamed(frames, Eof, valid).0;
            && out.Ok? && out.value.stop == Complete(r).stop && out.value.usage == Complete(r).usage
            && (out.value == Complete(r) <==> forall k :: 0 <= k < |r.blocks| ==> Alike(r.blocks[k], valid))
  {
    hide Streamed, Scan, Assemble, Fold, FoldMessages, FirstError, Of, MessageLevel, CarriesBlock, CutBlock, WholeContent, CutContent, Alike,
         CarriesMessage, Topped, Stop, ContentOf;
    MessageFold(r, a, b, c, MessageLevel(frames));
    MessageNoErrors(r, a, b, c, MessageLevel(frames));
    Succeeds(frames, valid);
    Ends(frames, Eof, valid);
    ContentIs(r.blocks, cuts, frames, Eof, valid);
    CutsAdd(r.blocks, cuts, frames);
    ContentIff(r.blocks, cuts, valid);
  }

  lemma CutsAdd(blocks: seq<ReplyBlock>, cuts: seq<seq<Delta>>, frames: seq<Frame>)
    requires CarriesBlocks(blocks, cuts, frames)
    ensures forall k :: 0 <= k < |blocks| ==> Adds(blocks[k], cuts[k])
  {
    hide Adds, Pieces, Of;
  }

  // ---- outcomes ---------------------------------------------------------------------------

  lemma {:induction false} ErrorFirst(before: seq<Frame>, f: Frame, after: seq<Frame>)
    requires f.Failure? || f.Malformed?
    requires forall i :: 0 <= i < |before| ==> !before[i].Failure? && !before[i].Malformed?
    ensures FirstError(MessageLevel(before + [f] + after)) == Some(if f.Failure? then Vendor else Decode)
  {
    var all := before + [f] + after;
    if before == [] {
      assert all[0] == f;
      assert ([f] + MessageLevel(all[1..]))[0] == f;
    } else {
      assert all[1..] == before[1..] + [f] + after;
      ErrorFirst(before[1..], f, after);
      if !before[0].Block? {
        assert ([before[0]] + MessageLevel(all[1..]))[1..] == MessageLevel(all[1..]);
      } else {
        assert [] + MessageLevel(all[1..]) == MessageLevel(all[1..]);
      }
    }
  }

  /** The first error event or undecodable frame decides the call. */
  lemma ErrorDecides(before: seq<Frame>, f: Frame, after: seq<Frame>, end: StreamEnd, valid: Bytes -> bool)
    requires f.Failure? || f.Malformed?
    requires forall i :: 0 <= i < |before| ==> !before[i].Failure? && !before[i].Malformed?
    ensures Streamed(before + [f] + after, end, valid).0 == Err(if f.Failure? then Vendor else Decode)
  {
    hide Topped, Scan, Assemble, Fold, FoldMessages, FirstError, Of, MessageLevel;
    StartTopped();
    ErrorFirst(before, f, after);
    ScanProjects(START, before + [f] + after, end);
  }

  lemma {:induction false} LevelOf(frames: seq<Frame>)
    ensures forall f :: f in MessageLevel(frames) <==> f in frames && !f.Block?
  {
    if frames != [] {
      LevelOf(frames[1..]);
      assert forall f :: f in frames <==> f == frames[0] || f in frames[1..];
    }
  }

  lemma {:induction false} Terminal(st: State, fs: seq<Frame>)
    ensures var t := FoldMessages(st, fs);
            (t.sawStop || t.stop.Some?) <==>
            (st.sawStop || st.stop.Some? || exists f :: f in fs && (f.MessageStop? || (f.MessageDelta? && f.stop != "")))
    decreases |fs|
  {
    hide Stop;
    if fs != [] {
      Terminal(OnMessage(st, fs[0]), fs[1..]);
      assert forall f :: f in fs <==> f == fs[0] || f in fs[1..];
    }
  }

  /** Without one: the read error if there was one; otherwise a response exactly if a stop reason
      or a message stop came. */
  lemma Outcome(frames: seq<Frame>, end: StreamEnd, valid: Bytes -> bool)
    requires forall f :: f in frames ==> !f.Failure? && !f.Malformed?
    ensures var out := Streamed(frames, end, valid).0;
            if end == ReadError then out == Err(Read)
            else if exists f :: f in frames && (f.MessageStop? || (f.MessageDelta? && f.stop != "")) then out.Ok?
            else out == Err(Truncated)
  {
    hide Topped, Scan, Assemble, Fold, FoldMessages, FirstError, Of, MessageLevel;
    StartTopped();
    LevelOf(frames);
    NoErrors(MessageLevel(frames));
    ScanProjects(START, frames, end);
    Terminal(START, MessageLevel(frames));
  }

  // ---- events -----------------------------------------------------------------------------

  function TextOf(ev: Event): Bytes {
    if ev.TextEvent? then ev.text else ""
  }

  function ThoughtOf(ev: Event): Bytes {
    if ev.ThinkingEvent? then ev.text else ""
  }

  function TextsIn(evs: seq<Event>): Bytes {
    if evs == [] then "" else TextOf(evs[0]) + TextsIn(evs[1..])
  }

  function ThoughtsIn(evs: seq<Event>): Bytes {
    if evs == [] then "" else ThoughtOf(evs[0]) + ThoughtsIn(evs[1..])
  }

  function SentText(frames: seq<Frame>): Bytes {
    if frames == [] then ""
    else
      var f := frames[0];
      (if f.Block? && f.ev.Piece? && f.ev.delta.TextDelta? then f.ev.delta.text else "") + SentText(frames[1..])
  }

  function SentThoughts(frames: seq<Frame>): Bytes {
    if frames == [] then ""
    else
      var f := frames[0];
      (if f.Block? && f.ev.Piece? && f.ev.delta.ThinkingDelta? then f.ev.delta.text else "") + SentThoughts(frames[1..])
  }

  lemma {:induction false} TextsJoin(a: seq<Event>, b: seq<Event>)
    ensures TextsIn(a + b) == TextsIn(a) + TextsIn(b)
  {
    hide TextOf;
    if a == [] {
      assert a + b == b;
    } else {
      assert (a + b)[1..] == a[1..] + b;
      TextsJoin(a[1..], b);
    }
  }

  lemma {:induction false} ThoughtsJoin(a: seq<Event>, b: seq<Event>)
    ensures ThoughtsIn(a + b) == ThoughtsIn(a) + ThoughtsIn(b)
  {
    hide ThoughtOf;
    if a == [] {
      assert a + b == b;
    } else {
      assert (a + b)[1..] == a[1..] + b;
      ThoughtsJoin(a[1..], b);
    }
  }

  lemma TextsAppended(a: seq<Event>, b: seq<Event>)
    ensures TextsIn(a + b) == TextsIn(a) + TextsIn(b) && ThoughtsIn(a + b) == ThoughtsIn(a) + ThoughtsIn(b)
  {
    TextsJoin(a, b);
    ThoughtsJoin(a, b);
  }

  lemma OneEvent(ev: Event)
    ensures TextsIn([ev]) == TextOf(ev) && ThoughtsIn([ev]) == ThoughtOf(ev)
  {
    assert [ev][1..] == [];
  }

  lemma FrameTold(st: State, f: Frame)
    requires !f.Failure? && !f.Malformed?
    ensures TextsIn(OnFrame(st, f).events) == TextsIn(st.events) + SentText([f])
    ensures ThoughtsIn(OnFrame(st, f).events) == ThoughtsIn(st.events) + SentThoughts([f])
  {
    hide BlockStep, Stop, TextsIn, ThoughtsIn, BlockEvents, TextOf, ThoughtOf, SentText, SentThoughts;
    var more := if f.Block? then BlockEvents(At(st.blocks, f.index), f.ev) else [];
    assert OnFrame(st, f).events == st.events + more;
    TextsAppended(st.events, more);
    FrameSays(st, f);
  }

  lemma FrameSays(st: State, f: Frame)
    ensures var more := if f.Block? then BlockEvents(At(st.blocks, f.index), f.ev) else [];
            TextsIn(more) == SentText([f]) && ThoughtsIn(more) == SentThoughts([f])
  {
    assert [f][1..] == [];
    var more := if f.Block? then BlockEvents(At(st.blocks, f.index), f.ev) else [];
    if more != [] {
      assert more == [more[0]];
      OneEvent(more[0]);
    }
  }

  lemma SentCons(f: Frame, frames: seq<Frame>)
    ensures SentText([f] + frames) == SentText([f]) + SentText(frames)
    ensures SentThoughts([f] + frames) == SentThoughts([f]) + SentThoughts(frames)
  {
    assert [f][1..] == [] && ([f] + frames)[1..] == frames;
  }

  lemma {:induction false} ScanTold(st: State, frames: seq<Frame>, end: StreamEnd)
    requires forall f :: f in frames ==> !f.Failure? && !f.Malformed?
    ensures TextsIn(Scan(st, frames, end).0.events) == TextsIn(st.events) + SentText(frames)
    ensures ThoughtsIn(Scan(st, frames, end).0.events) == ThoughtsIn(st.events) + SentThoughts(frames)
    decreases |frames|
  {
    hide OnFrame, TextsIn, ThoughtsIn, SentText, SentThoughts;
    if frames == [] {
      NothingSent(st.events);
    } else {
      var f, rest := frames[0], frames[1..];
      assert f in frames && forall g :: g in rest ==> g in frames;
      FrameTold(st, f);
      ScanTold(OnFrame(st, f), rest, end);
      assert frames == [f] + rest;
      SentCons(f, rest);
    }
  }

  lemma NothingSent(evs: seq<Event>)
    ensures SentText([]) == "" && SentThoughts([]) == ""
    ensures TextsIn(evs) + "" == TextsIn(evs) && ThoughtsIn(evs) + "" == ThoughtsIn(evs)
  {
  }

  /** The text events join to all text sent, in order of arrival, and the thinking events to all
      thinking sent, whether or not the stream then ends well. */
  lemma TextTold(frames: seq<Frame>, end: StreamEnd, valid: Bytes -> bool)
    requires forall f :: f in frames ==> !f.Failure? && !f.Malformed?
    ensures TextsIn(Streamed(frames, end, valid).1) == SentText(frames)
    ensures ThoughtsIn(Streamed(frames, end, valid).1) == SentThoughts(frames)
  {
    hide Scan, TextsIn, ThoughtsIn, SentText, SentThoughts, Assemble;
    assert TextOf(Finished(Scan(START, frames, end).0.usage)) + "" == "";
    ScanTold(START, frames, end);
    var st := Scan(START, frames, end).0;
    TextsAppended(st.events, [Finished(st.usage)]);
    OneEvent(Finished(st.usage));
    NothingTold();
    NothingSent(st.events);
    assert "" + SentText(frames) == SentText(frames) && "" + SentThoughts(frames) == SentThoughts(frames);
  }

  lemma NothingTold()
    ensures TextsIn([]) == "" && ThoughtsIn([]) == ""
  {
  }

  /** A response is announced once, last, with its usage. */
  lemma DoneLast(frames: seq<Frame>, end: StreamEnd, valid: Bytes -> bool)
    requires Streamed(frames, end, valid).0.Ok?
    ensures var (out, evs) := Streamed(frames, end, valid);
            && evs != [] && evs[|evs| - 1] == Finished(out.value.usage)
            && forall i :: 0 <= i < |evs| - 1 ==> !evs[i].Finished?
  {
    hide Scan, Assemble;
    NoneFinished(START, frames, end);
  }

  lemma {:induction false} NoneFinished(st: State, frames: seq<Frame>, end: StreamEnd)
    requires forall i :: 0 <= i < |st.events| ==> !st.events[i].Finished?
    ensures forall i :: 0 <= i < |Scan(st, frames, end).0.events| ==> !Scan(st, frames, end).0.events[i].Finished?
    decreases |frames|
  {
    hide BlockStep, Stop;
    if frames != [] && !frames[0].Failure? && !frames[0].Malformed? {
      NoneFinished(OnFrame(st, frames[0]), frames[1..], end);
    }
  }

  // ---- one tool call ----------------------------------------------------------------------

  function Argued(i: int, args: seq<Bytes>): seq<Frame> {
    seq(|args|, k requires 0 <= k < |args| => Block(i, Piece(JsonDelta(args[k]))))
  }

  function ArgsTold(args: seq<Bytes>): seq<Event> {
    seq(|args|, k requires 0 <= k < |args| => ToolArgs(args[k]))
  }

  lemma {:induction false} ArgsScan(st: State, i: int, args: seq<Bytes>, more: seq<Frame>, end: StreamEnd) returns (out: State)
    requires i in st.blocks
    ensures Scan(st, Argued(i, args) + more, end) == Scan(out, more, end) && out.events == st.events + ArgsTold(args)
    ensures i in out.blocks && out.blocks[i].typ == st.blocks[i].typ && out.blocks[i].id == st.blocks[i].id
    decreases |args|
  {
    hide Scan;
    if args == [] {
      out := st;
      assert Argued(i, args) + more == more && st.events + [] == st.events;
    } else {
      var f := Block(i, Piece(JsonDelta(args[0])));
      var rest := args[1..];
      assert Argued(i, args) + more == [f] + (Argued(i, rest) + more);
      ScanOne(st, f, Argued(i, rest) + more, end);
      var st1 := OnFrame(st, f);
      assert st1.events == st.events + [ToolArgs(args[0])];
      out := ArgsScan(st1, i, rest, more, end);
      assert ArgsTold(args) == [ToolArgs(args[0])] + ArgsTold(rest);
    }
  }

  lemma ScanOne(st: State, f: Frame, more: seq<Frame>, end: StreamEnd)
    requires !f.Failure? && !f.Malformed?
    ensures Scan(st, [f] + more, end) == Scan(OnFrame(st, f), more, end)
  {
    hide OnFrame;
    assert ([f] + more)[1..] == more;
  }

  /** A tool call sent in one go, wherever in a stream, is told as a start, its argument
      fragments as they are cut, and a stop under the id of the start. */
  lemma ToolTold(st: State, i: int, id: Bytes, name: Bytes, args: seq<Bytes>, more: seq<Frame>, end: StreamEnd) returns (out: State)
    ensures Scan(st, [Block(i, Start("tool_use", id, name))] + Argued(i, args) + [Block(i, End)] + more, end) == Scan(out, more, end)
    ensures out.events == st.events + ([ToolStart(id, name)] + ArgsTold(args) + [ToolStop(id)])
  {
    hide Scan, ArgsTold;
    var start, stop := Block(i, Start("tool_use", id, name)), Block(i, End);
    assert [start] + Argued(i, args) + [stop] + more == [start] + (Argued(i, args) + ([stop] + more));
    ScanOne(st, start, Argued(i, args) + ([stop] + more), end);
    var st1 := OnFrame(st, start);
    var st2 := ArgsScan(st1, i, args, [stop] + more, end);
    ScanOne(st2, stop, more, end);
    out := OnFrame(st2, stop);
  }
}
