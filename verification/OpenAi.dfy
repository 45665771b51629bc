/** provider/openai/openai.go: the streaming decoder, its method proved against functions on
    the decoded frames. */
module OpenAi {
  import opened Prelude
  import opened Decimal

  // ---- decoded input ----------------------------------------------------------------------

  /** One tool_calls entry of a chunk; empty strings are absent fields. */
  datatype ToolDelta = ToolDelta(at: Option<int>, id: Bytes, name: Bytes, args: Bytes)

  datatype Choice = Choice(content: Bytes, tools: seq<ToolDelta>, finish: Bytes)

  /** One server-sent event after JSON decoding. */
  datatype Frame = Empty | DoneMark | Malformed | Failure | Chunk(usage: Option<int>, choice: Option<Choice>)

  datatype StreamEnd = Eof | ReadError

  // ---- output -----------------------------------------------------------------------------

  datatype StopReason = EndTurn | ToolUseStop | MaxTokens | OtherStop

  datatype Content = Text(text: Bytes) | ToolUse(id: Bytes, name: Bytes, input: Bytes)

  datatype Response = Response(content: seq<Content>, stop: StopReason, usage: int)

  /** The callback's events. A tool event's index is kept for the statements below; it is not
      part of what the callback receives. */
  datatype Event =
    | TextDelta(text: Bytes)
    | ToolStart(index: int, id: Bytes, name: Bytes)
    | ToolArgs(index: int, args: Bytes)
    | ToolStop(index: int, id: Bytes)
    | Finished(usage: int)

  datatype Error = Decode | Vendor | Read | Truncated | Rejected

  function Stop(finish: Bytes): StopReason {
    if finish == "stop" then EndTurn
    else if finish == "tool_calls" then ToolUseStop
    else if finish == "length" then MaxTokens
    else OtherStop
  }

  function Input(args: Bytes): Bytes {
    if args == "" then "{}" else args
  }

  /** fmt.Sprintf("call_%d", idx). */
  function SyntheticId(index: int): (id: Bytes)
    ensures id != ""
  {
    "call_" + (if index < 0 then "-" + Format(-index) else Format(index))
  }

  // ---- accumulators -----------------------------------------------------------------------

  datatype Acc = Acc(id: Bytes, name: Bytes, args: Bytes, started: bool)

  const NO_ACC := Acc("", "", "", false)

  datatype State = State(text: Bytes, tools: map<int, Acc>, order: seq<int>, stop: Option<StopReason>, usage: int, events: seq<Event>)

  const START := State("", map[], [], None, 0, [])

  /** A missing index means the first call. */
  function Index(d: ToolDelta): int {
    match d.at
    case None => 0
    case Some(i) => i
  }

  /** What one entry does to its own accumulator. */
  function AccStep(index: int, acc: Acc, d: ToolDelta): Acc {
    var id := if d.id != "" && !acc.started then d.id else acc.id;
    var name := if d.name != "" then d.name else acc.name;
    var args := acc.args + d.args;
    if !acc.started && name != "" then Acc(if id == "" then SyntheticId(index) else id, name, args, true)
    else Acc(id, name, args, acc.started)
  }

  /** And the events it emits. */
  function AccEvents(index: int, acc: Acc, d: ToolDelta): seq<Event> {
    var acc' := AccStep(index, acc, d);
    if acc'.started && !acc.started then
      [ToolStart(index, acc'.id, acc'.name)] + (if acc'.args != "" then [ToolArgs(index, acc'.args)] else [])
    else if acc.started && d.args != "" then [ToolArgs(index, d.args)]
    else []
  }

  function At(tools: map<int, Acc>, index: int): Acc {
    if index in tools then tools[index] else NO_ACC
  }

  function OnDelta(st: State, d: ToolDelta): State {
    var i := Index(d);
    st.(tools := st.tools[i := AccStep(i, At(st.tools, i), d)],
        order := if i in st.tools then st.order else st.order + [i],
        events := st.events + AccEvents(i, At(st.tools, i), d))
  }

  function OnDeltas(st: State, ds: seq<ToolDelta>): State
    decreases |ds|
  {
    if ds == [] then st else OnDeltas(OnDelta(st, ds[0]), ds[1..])
  }

  function OnContent(st: State, content: Bytes): State {
    if content == "" then st
    else st.(text := st.text + content, events := st.events + [TextDelta(content)])
  }

  function OnChoice(st: State, c: Choice): State {
    var st' := OnDeltas(OnContent(st, c.content), c.tools);
    if c.finish == "" then st' else st'.(stop := Some(Stop(c.finish)))
  }

  function OnChunk(st: State, f: Frame): State
    requires f.Chunk?
  {
    var st' := if f.usage.Some? then st.(usage := f.usage.value) else st;
    if f.choice.Some? then OnChoice(st', f.choice.value) else st'
  }

  /** The loop over the frames: the state it stops in, and the error it stops with, if any. */
  function Scan(st: State, frames: seq<Frame>, end: StreamEnd): (State, Option<Error>)
    decreases |frames|
  {
    if frames == [] then (st, if end == Eof then None else Some(Read))
    else
      match frames[0]
      case Empty => Scan(st, frames[1..], end)
      case DoneMark => (st, None)
      case Malformed => (st, Some(Decode))
      case Failure => (st, Some(Vendor))
      case Chunk(_, _) => Scan(OnChunk(st, frames[0]), frames[1..], end)
  }

  // ---- assembly ---------------------------------------------------------------------------

  function Uses(tools: map<int, Acc>, order: seq<int>): seq<Content>
  {
    if order == [] then []
    else
      var acc := At(tools, order[0]);
      (if acc.name == "" then []
       else [ToolUse(if acc.id == "" then SyntheticId(order[0]) else acc.id, acc.name, Input(acc.args))])
      + Uses(tools, order[1..])
  }

  function Stops(tools: map<int, Acc>, order: seq<int>): seq<Event>
  {
    if order == [] then []
    else
      var acc := At(tools, order[0]);
      (if acc.name == "" then [] else [ToolStop(order[0], if acc.id == "" then SyntheticId(order[0]) else acc.id)])
      + Stops(tools, order[1..])
  }

  function TextPart(text: Bytes): seq<Content> {
    if text == "" then [] else [Text(text)]
  }

  /** Everything Stream returns and emits when the callback never objects. */
  function Streamed(frames: seq<Frame>, end: StreamEnd): (Result<Response, Error>, seq<Event>) {
    var (st, err) := Scan(START, frames, end);
    if err.Some? then (Err(err.value), st.events)
    else if st.stop.None? then (Err(Truncated), st.events)
    else (Ok(Response(TextPart(st.text) + Uses(st.tools, st.order), st.stop.value, st.usage)),
          st.events + Stops(st.tools, st.order) + [Finished(st.usage)])
  }

  // ---- the method -------------------------------------------------------------------------

  /** The callback is told everything emitted so far and may refuse the last event. */
  type Callback = seq<Event> -> bool

  /** One tool entry against its accumulator. On refusal the events emitted are a prefix of
      the events the entry would emit. */
  method HandleTool(idx: int, was: Acc, tc: ToolDelta, before: seq<Event>, accept: Callback)
      returns (acc: Acc, events: seq<Event>, ok: bool)
    ensures ok ==> acc == AccStep(idx, was, tc) && events == before + AccEvents(idx, was, tc)
    ensures !ok ==> before <= events <= before + AccEvents(idx, was, tc) && !accept(events)
  {
    hide SyntheticId;
    acc, events, ok := was, before, true;
    if tc.id != "" && !acc.started {
      acc := acc.(id := tc.id);
    }
    if tc.name != "" {
      acc := acc.(name := tc.name);
    }
    if tc.args != "" {
      acc := acc.(args := acc.args + tc.args);
    } else {
      assert acc.args + tc.args == acc.args;
    }
    if !acc.started && acc.name != "" {
      acc := acc.(started := true);
      if acc.id == "" {
        acc := acc.(id := SyntheticId(idx));
      }
      assert acc == AccStep(idx, was, tc);
      events := events + [ToolStart(idx, acc.id, acc.name)];
      if !accept(events) {
        return acc, events, false;
      }
      if |acc.args| > 0 {
        events := events + [ToolArgs(idx, acc.args)];
        ok := accept(events);
      }
    } else if acc.started && tc.args != "" {
      events := events + [ToolArgs(idx, tc.args)];
      ok := accept(events);
    }
  }

  /** The tool entries of one chunk. */
  method HandleTools(st: State, ds: seq<ToolDelta>, accept: Callback) returns (out: State, ok: bool)
    ensures ok ==> out == OnDeltas(st, ds)
    ensures !ok ==> st.events <= out.events <= OnDeltas(st, ds).events && !accept(out.events)
  {
    hide AccStep, AccEvents, OnDeltas;
    out, ok := st, true;
    DeltasNil(st);
    EventsGrow(st, ds);
    var k := 0;
    while k < |ds|
      invariant k <= |ds|
      invariant OnDeltas(out, ds[k..]) == OnDeltas(st, ds)
      invariant st.events <= out.events
    {
      var tc := ds[k];
      DeltasCons(out, ds, k);
      EventsGrow(OnDelta(out, tc), ds[k + 1..]);
      var idx := 0;
      if tc.at.Some? {
        idx := tc.at.value;
      }
      var was, order := NO_ACC, out.order;
      if idx in out.tools {
        was := out.tools[idx];
      } else {
        order := order + [idx];
      }
      var acc, events, taken := HandleTool(idx, was, tc, out.events, accept);
      if !taken {
        return out.(events := events), false;
      }
      out := out.(tools := out.tools[idx := acc], order := order, events := events);
      k := k + 1;
    }
    assert ds[k..] == [];
    DeltasNil(out);
  }

  lemma DeltasNil(st: State)
    ensures OnDeltas(st, []) == st
  {
  }

  lemma DeltasCons(st: State, ds: seq<ToolDelta>, k: nat)
    requires k < |ds|
    ensures OnDeltas(st, ds[k..]) == OnDeltas(OnDelta(st, ds[k]), ds[k + 1..])
  {
    assert ds[k..][1..] == ds[k + 1..];
  }

  /** One chunk: its usage, its text, its tool entries, its finish reason. */
  method HandleChunk(st: State, f: Frame, accept: Callback) returns (out: State, ok: bool)
    requires f.Chunk?
    ensures ok ==> out == OnChunk(st, f)
    ensures !ok ==> out.events <= OnChunk(st, f).events && !accept(out.events)
  {
    hide OnDeltas, Stop;
    out, ok := st, true;
    if f.usage.Some? {
      out := out.(usage := f.usage.value);
    }
    if f.choice.Some? {
      var ch := f.choice.value;
      EventsGrow(OnContent(out, ch.content), ch.tools);
      if ch.content != "" {
        out := out.(text := out.text + ch.content, events := out.events + [TextDelta(ch.content)]);
        if !accept(out.events) {
          return out, false;
        }
      }
      out, ok := HandleTools(out, ch.tools, accept);
      if ok && ch.finish != "" {
        out := out.(stop := Some(Stop(ch.finish)));
      }
    }
  }

  lemma {:induction false} EventsGrow(st: State, ds: seq<ToolDelta>)
    ensures st.events <= OnDeltas(st, ds).events
    decreases |ds|
  {
    if ds != [] {
      EventsGrow(OnDelta(st, ds[0]), ds[1..]);
    }
  }

  lemma {:induction false} ScanGrows(st: State, frames: seq<Frame>, end: StreamEnd)
    ensures st.events <= Scan(st, frames, end).0.events
    decreases |frames|
  {
    if frames != [] {
      match frames[0]
      case Empty => ScanGrows(st, frames[1..], end);
      case Chunk(_, c) =>
        if c.Some? {
          var st' := if frames[0].usage.Some? then st.(usage := frames[0].usage.value) else st;
          EventsGrow(OnContent(st', c.value.content), c.value.tools);
        }
        ScanGrows(OnChunk(st, frames[0]), frames[1..], end);
      case _ =>
    }
  }

  /** Stream: returns what Streamed says, unless the callback refuses an event; then what was
      emitted is a prefix of it. */
  method Stream(frames: seq<Frame>, end: StreamEnd, accept: Callback) returns (r: Result<Response, Error>, emitted: seq<Event>)
    ensures r != Err(Rejected) ==> (r, emitted) == Streamed(frames, end)
    ensures r == Err(Rejected) ==> emitted <= Streamed(frames, end).1 && !accept(emitted)
  {
    hide OnChunk, Stops, Uses;
    var st := START;
    var k := 0;
    while k < |frames|
      invariant k <= |frames|
      invariant Scan(st, frames[k..], end) == Scan(START, frames, end)
      decreases |frames| - k
    {
      var f := frames[k];
      assert frames[k..][0] == f && frames[k..][1..] == frames[k + 1..];
      match f {
        case Empty =>
        case DoneMark => break;
        case Malformed => return Err(Decode), st.events;
        case Failure => return Err(Vendor), st.events;
        case Chunk(_, _) =>
          ScanGrows(OnChunk(st, f), frames[k + 1..], end);
          var out, ok := HandleChunk(st, f, accept);
          if !ok {
            return Err(Rejected), out.events;
          }
          st := out;
      }
      k := k + 1;
    }
    assert k == |frames| || frames[k].DoneMark?;
    if k == |frames| && end == ReadError {
      assert frames[k..] == [];
      return Err(Read), st.events;
    }
    assert Scan(START, frames, end) == (st, None);
    if st.stop.None? {
      return Err(Truncated), st.events;
    }
    var content, events, ok := HandleStops(st, accept);
    if !ok {
      return Err(Rejected), events;
    }
    events := events + [Finished(st.usage)];
    if !accept(events) {
      return Err(Rejected), events;
    }
    return Ok(Response(content, st.stop.value, st.usage)), events;
  }

  /** The final loop: one ToolUse and one stop event for every named accumulator, in order. */
  method HandleStops(st: State, accept: Callback) returns (content: seq<Content>, events: seq<Event>, ok: bool)
    ensures ok ==> content == TextPart(st.text) + Uses(st.tools, st.order)
    ensures ok ==> events == st.events + Stops(st.tools, st.order)
    ensures !ok ==> events <= st.events + Stops(st.tools, st.order) && !accept(events)
  {
    content := if |st.text| > 0 then [Text(st.text)] else [];
    events := st.events;
    var k := 0;
    while k < |st.order|
      invariant k <= |st.order|
      invariant content + Uses(st.tools, st.order[k..]) == TextPart(st.text) + Uses(st.tools, st.order)
      invariant events + Stops(st.tools, st.order[k..]) == st.events + Stops(st.tools, st.order)
    {
      var idx := st.order[k];
      assert st.order[k..][0] == idx && st.order[k..][1..] == st.order[k + 1..];
      var acc := At(st.tools, idx);
      if acc.name != "" {
        if acc.id == "" {
          acc := acc.(id := SyntheticId(idx));
        }
        var use, stop := ToolUse(acc.id, acc.name, Input(acc.args)), ToolStop(idx, acc.id);
        Shift(content, use, Uses(st.tools, st.order[k + 1..]));
        Shift(events, stop, Stops(st.tools, st.order[k + 1..]));
        content := content + [use];
        events := events + [stop];
        if !accept(events) {
          return content, events, false;
        }
      } else {
        Skip(content, Uses(st.tools, st.order[k + 1..]));
        Skip(events, Stops(st.tools, st.order[k + 1..]));
      }
      k := k + 1;
    }
    assert st.order[k..] == [];
    return content, events, true;
  }

  lemma Shift<T>(a: seq<T>, x: T, b: seq<T>)
    ensures a + ([x] + b) == a + [x] + b && a + [x] <= a + ([x] + b)
  {
  }

  lemma Skip<T>(a: seq<T>, b: seq<T>)
    ensures a + ([] + b) == a + b
  {
  }
}
