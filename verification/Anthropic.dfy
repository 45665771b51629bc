/** provider/anthropic/anthropic.go: the streaming decoder, its method proved against functions
    on the decoded events. */
module Anthropic {
  import opened Prelude

  // ---- decoded input ----------------------------------------------------------------------

  datatype Delta = TextDelta(text: Bytes) | ThinkingDelta(text: Bytes) | SignatureDelta(text: Bytes) | JsonDelta(text: Bytes) | OtherDelta

  datatype BlockEvent =
    | Start(typ: Bytes, id: Bytes, name: Bytes)
    | Piece(delta: Delta)
    | End

  /** One server-sent event after decoding. `Ignored` covers empty data, unknown types and an
      undecodable message_start. */
  datatype Frame =
    | Block(index: int, ev: BlockEvent)
    | MessageStart(input: int, cacheWrite: int, cacheRead: int)
    | MessageDelta(stop: Bytes, output: int)
    | MessageStop
    | Failure
    | Malformed
    | Ignored

  datatype StreamEnd = Eof | ReadError

  // ---- output -----------------------------------------------------------------------------

  datatype StopReason = EndTurn | ToolUseStop | MaxTokens | OtherStop

  datatype Usage = Usage(input: int, output: int, cacheRead: int, cacheWrite: int)

  datatype Content = Text(text: Bytes) | Thinking(text: Bytes, signature: Bytes) | ToolUse(id: Bytes, name: Bytes, input: Bytes)

  datatype Response = Response(content: seq<Content>, stop: Option<StopReason>, usage: Usage)

  datatype Event =
    | TextEvent(text: Bytes)
    | ThinkingEvent(text: Bytes)
    | ToolStart(id: Bytes, name: Bytes)
    | ToolArgs(args: Bytes)
    | ToolStop(id: Bytes)
    | Finished(usage: Usage)

  datatype Error = Decode | Vendor | Read | Truncated | Rejected

  function Stop(reason: Bytes): StopReason {
    if reason == "end_turn" || reason == "stop_sequence" then EndTurn
    else if reason == "tool_use" then ToolUseStop
    else if reason == "max_tokens" then MaxTokens
    else OtherStop
  }

  // ---- one block --------------------------------------------------------------------------

  datatype Acc = Acc(typ: Bytes, text: Bytes, signature: Bytes, id: Bytes, name: Bytes, json: Bytes)

  function Bare(typ: Bytes): Acc {
    Acc(typ, "", "", "", "", "")
  }

  /** The accumulator a delta starts when the start frame was lost. */
  function Recovered(d: Delta): Option<Acc> {
    match d
    case TextDelta(_) => Some(Bare("text"))
    case ThinkingDelta(_) => Some(Bare("thinking"))
    case _ => None
  }

  function Extend(acc: Acc, d: Delta): Acc {
    match d
    case TextDelta(t) => acc.(text := acc.text + t)
    case ThinkingDelta(t) => acc.(text := acc.text + t)
    case SignatureDelta(t) => acc.(signature := acc.signature + t)
    case JsonDelta(t) => acc.(json := acc.json + t)
    case OtherDelta => acc
  }

  function BlockStep(acc: Option<Acc>, ev: BlockEvent): Option<Acc> {
    match ev
    case Start(typ, id, name) =>
      var a := if acc.Some? then acc.value else Bare("");
      Some(a.(typ := typ, id := id, name := name))
    case Piece(d) =>
      var a := if acc.Some? then acc else Recovered(d);
      if a.Some? then Some(Extend(a.value, d)) else None
    case End => acc
  }

  function BlockEvents(acc: Option<Acc>, ev: BlockEvent): seq<Event> {
    match ev
    case Start(typ, id, name) => if typ == "tool_use" then [ToolStart(id, name)] else []
    case Piece(d) =>
      if acc.None? && Recovered(d).None? then []
      else
        (match d
         case TextDelta(t) => [TextEvent(t)]
         case ThinkingDelta(t) => [ThinkingEvent(t)]
         case JsonDelta(t) => [ToolArgs(t)]
         case _ => [])
    case End => if acc.Some? && acc.value.typ == "tool_use" then [ToolStop(acc.value.id)] else []
  }

  /** blockAcc.content; `valid` stands for json.Valid. */
  function ContentOf(acc: Acc, valid: Bytes -> bool): seq<Content> {
    if acc.typ == "text" then (if acc.text == "" then [] else [Text(acc.text)])
    else if acc.typ == "thinking" then [Thinking(acc.text, acc.signature)]
    else if acc.typ == "tool_use" then [ToolUse(acc.id, acc.name, if acc.json == "" || !valid(acc.json) then "{}" else acc.json)]
    else []
  }

  // ---- the stream -------------------------------------------------------------------------

  datatype State = State(blocks: map<int, Acc>, maxIdx: int, stop: Option<StopReason>, usage: Usage, sawStop: bool, events: seq<Event>)

  const START := State(map[], -1, None, Usage(0, 0, 0, 0), false, [])

  function At(blocks: map<int, Acc>, i: int): Option<Acc> {
    if i in blocks then Some(blocks[i]) else None
  }

  function OnBlock(st: State, i: int, ev: BlockEvent): State {
    var acc := BlockStep(At(st.blocks, i), ev);
    var st' := st.(events := st.events + BlockEvents(At(st.blocks, i), ev));
    if acc.None? then st'
    else st'.(blocks := st.blocks[i := acc.value], maxIdx := if i in st.blocks && !ev.Start? then st.maxIdx else Max(st.maxIdx, i))
  }

  function OnMessage(st: State, f: Frame): State {
    match f
    case MessageStart(input, cacheWrite, cacheRead) =>
      st.(usage := Usage(input + cacheRead + cacheWrite, st.usage.output, cacheRead, cacheWrite))
    case MessageDelta(stop, output) =>
      st.(stop := if stop == "" then st.stop else Some(Stop(stop)),
          usage := if output > 0 then st.usage.(output := output) else st.usage)
    case MessageStop => st.(sawStop := true)
    case _ => st
  }

  function OnFrame(st: State, f: Frame): State {
    if f.Block? then OnBlock(st, f.index, f.ev) else OnMessage(st, f)
  }

  function Scan(st: State, frames: seq<Frame>, end: StreamEnd): (State, Option<Error>)
    decreases |frames|
  {
    if frames == [] then
      (st, if end == ReadError then Some(Read) else if !st.sawStop && st.stop.None? then Some(Truncated) else None)
    else if frames[0].Failure? then (st, Some(Vendor))
    else if frames[0].Malformed? then (st, Some(Decode))
    else Scan(OnFrame(st, frames[0]), frames[1..], end)
  }

  /** The blocks from index i up to the highest one, in index order. */
  function Assemble(blocks: map<int, Acc>, i: int, maxIdx: int, valid: Bytes -> bool): seq<Content>
    decreases maxIdx - i
  {
    if i > maxIdx then []
    else (if i in blocks then ContentOf(blocks[i], valid) else []) + Assemble(blocks, i + 1, maxIdx, valid)
  }

  /** Everything Stream returns and emits when the callback never objects. */
  function Streamed(frames: seq<Frame>, end: StreamEnd, valid: Bytes -> bool): (Result<Response, Error>, seq<Event>) {
    var (st, err) := Scan(START, frames, end);
    if err.Some? then (Err(err.value), st.events)
    else (Ok(Response(Assemble(st.blocks, 0, st.maxIdx, valid), st.stop, st.usage)), st.events + [Finished(st.usage)])
  }

  // ---- the method -------------------------------------------------------------------------

  type Callback = seq<Event> -> bool

  lemma {:induction false} ScanGrows(st: State, frames: seq<Frame>, end: StreamEnd)
    ensures st.events <= Scan(st, frames, end).0.events
    decreases |frames|
  {
    hide BlockStep, BlockEvents, Stop;
    if frames != [] && !frames[0].Failure? && !frames[0].Malformed? {
      ScanGrows(OnFrame(st, frames[0]), frames[1..], end);
    }
  }

  /** One block frame. */
  method HandleBlock(st: State, i: int, ev: BlockEvent, accept: Callback) returns (out: State, ok: bool)
    ensures ok ==> out == OnBlock(st, i, ev)
    ensures !ok ==> out.events == OnBlock(st, i, ev).events && !accept(out.events)
  {
    out, ok := st, true;
    match ev
    case Start(typ, id, name) =>
      var acc := if i in st.blocks then st.blocks[i] else Bare("");
      acc := acc.(typ := typ, id := id, name := name);
      out := out.(blocks := st.blocks[i := acc]);
      if i > out.maxIdx {
        out := out.(maxIdx := i);
      }
      if acc.typ == "tool_use" {
        out := out.(events := out.events + [ToolStart(acc.id, acc.name)]);
        ok := accept(out.events);
      } else {
        assert st.events + [] == st.events;
      }
    case Piece(d) =>
      var acc := if i in st.blocks then Some(st.blocks[i]) else None;
      if acc.None? {
        acc := Recovered(d);
        if acc.None? {
          assert st.events + [] == st.events;
          return;
        }
        if i > out.maxIdx {
          out := out.(maxIdx := i);
        }
      }
      out := out.(blocks := st.blocks[i := Extend(acc.value, d)]);
      assert st.events + [] == st.events;
      match d {
        case TextDelta(t) =>
          out := out.(events := out.events + [TextEvent(t)]);
          ok := accept(out.events);
        case ThinkingDelta(t) =>
          out := out.(events := out.events + [ThinkingEvent(t)]);
          ok := accept(out.events);
        case JsonDelta(t) =>
          out := out.(events := out.events + [ToolArgs(t)]);
          ok := accept(out.events);
        case _ =>
      }
    case End =>
      if i in st.blocks {
        assert st.blocks[i := st.blocks[i]] == st.blocks;
      }
      if i in st.blocks && st.blocks[i].typ == "tool_use" {
        out := out.(events := out.events + [ToolStop(st.blocks[i].id)]);
        ok := accept(out.events);
      } else {
        assert st.events + [] == st.events;
      }
  }

  /** Stream: returns what Streamed says, unless the callback refuses an event; then what was
      emitted is a prefix of it. */
  method Stream(frames: seq<Frame>, end: StreamEnd, valid: Bytes -> bool, accept: Callback)
      returns (r: Result<Response, Error>, emitted: seq<Event>)
    ensures r != Err(Rejected) ==> (r, emitted) == Streamed(frames, end, valid)
    ensures r == Err(Rejected) ==> emitted <= Streamed(frames, end, valid).1 && !accept(emitted)
  {
    hide OnBlock, OnMessage, Assemble, ContentOf;
    var st := START;
    var k := 0;
    while k < |frames|
      invariant k <= |frames|
      invariant Scan(st, frames[k..], end) == Scan(START, frames, end)
    {
      var f := frames[k];
      assert frames[k..][0] == f && frames[k..][1..] == frames[k + 1..];
      if f.Failure? {
        return Err(Vendor), st.events;
      }
      if f.Malformed? {
        return Err(Decode), st.events;
      }
      if f.Block? {
        ScanGrows(OnFrame(st, f), frames[k + 1..], end);
        var out, ok := HandleBlock(st, f.index, f.ev, accept);
        if !ok {
          return Err(Rejected), out.events;
        }
        st := out;
      } else {
        st := OnMessage(st, f);
      }
      k := k + 1;
    }
    assert frames[k..] == [];
    if end == ReadError {
      return Err(Read), st.events;
    }
    if !st.sawStop && st.stop.None? {
      return Err(Truncated), st.events;
    }
    var content: seq<Content> := [];
    assert content + Assemble(st.blocks, 0, st.maxIdx, valid) == Assemble(st.blocks, 0, st.maxIdx, valid);
    var i := 0;
    while i <= st.maxIdx
      invariant content + Assemble(st.blocks, i, st.maxIdx, valid) == Assemble(st.blocks, 0, st.maxIdx, valid)
      decreases st.maxIdx - i
    {
      AssembleStep(content, st.blocks, i, st.maxIdx, valid);
      if i in st.blocks {
        content := content + ContentOf(st.blocks[i], valid);
      }
      i := i + 1;
    }
    AssembleEnd(content, st.blocks, i, st.maxIdx, valid);
    var events := st.events + [Finished(st.usage)];
    if !accept(events) {
      return Err(Rejected), events;
    }
    return Ok(Response(content, st.stop, st.usage)), events;
  }

  lemma AssembleOne(blocks: map<int, Acc>, i: int, maxIdx: int, valid: Bytes -> bool)
    requires i <= maxIdx
    ensures Assemble(blocks, i, maxIdx, valid)
         == (if i in blocks then ContentOf(blocks[i], valid) else []) + Assemble(blocks, i + 1, maxIdx, valid)
  {
  }

  lemma AssembleStep(content: seq<Content>, blocks: map<int, Acc>, i: int, maxIdx: int, valid: Bytes -> bool)
    requires i <= maxIdx
    ensures content + Assemble(blocks, i, maxIdx, valid)
         == (if i in blocks then content + ContentOf(blocks[i], valid) else content) + Assemble(blocks, i + 1, maxIdx, valid)
  {
    AssembleOne(blocks, i, maxIdx, valid);
    hide ContentOf, Assemble;
    Regroup(content, if i in blocks then ContentOf(blocks[i], valid) else [], Assemble(blocks, i + 1, maxIdx, valid));
    assert content + [] == content;
  }

  lemma Regroup(a: seq<Content>, b: seq<Content>, c: seq<Content>)
    ensures a + (b + c) == a + b + c
  {
  }

  lemma AssembleEnd(content: seq<Content>, blocks: map<int, Acc>, i: int, maxIdx: int, valid: Bytes -> bool)
    requires i > maxIdx
    ensures content + Assemble(blocks, i, maxIdx, valid) == content
  {
  }
}
