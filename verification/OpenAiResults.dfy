/** What comes out of a stream, in terms of what went in: the arguments of every call, the text,
    the stop reason, the usage, and which error a broken stream ends with. */
module OpenAiResults {
  import opened Prelude
  import opened Decimal
  import opened OpenAi
  import opened OpenAiFragments
  import opened OpenAiProtocol

  // ---- arguments --------------------------------------------------------------------------

  /** The indices that are ever named. */
  function Named(ds: seq<ToolDelta>, order: seq<int>): seq<int> {
    if order == [] then []
    else (if SeenName(Of(ds, order[0])) then [order[0]] else []) + Named(ds, order[1..])
  }

  lemma {:induction false} CallsAt(ds: seq<ToolDelta>, order: seq<int>)
    ensures |Calls(ds, order)| == |Named(ds, order)|
    ensures forall k :: 0 <= k < |Named(ds, order)| ==>
              var i := Named(ds, order)[k];
              var own := Of(ds, i);
              SeenName(own) && Calls(ds, order)[k] == ToolUse(CallId(i, own), LastName(own), Input(ArgsText(own)))
  {
    hide SeenName, Of, CallId, LastName, ArgsText, Input;
    if order != [] {
      CallsAt(ds, order[1..]);
    }
  }

  /** The call an index's events announced, with all the argument text they carried; an empty
      object stands in for no text at all. */
  predicate CallFrom(c: Content, t: seq<Event>) {
    && c.ToolUse? && t != [] && t[0].ToolStart? && c.id == t[0].id
    && (if ArgsOf(t) != "" then c.input == ArgsOf(t) else c.input == "{}")
  }

  lemma ArgsInside(i: int, ds: seq<ToolDelta>, t: seq<Event>)
    requires Exchange(i, ds, t) && SeenName(ds)
    ensures ArgsOf(t) == ArgsText(ds)
  {
    hide SeenName, CallId, FirstName, ArgsText;
    var n := |t| - 1;
    assert t[..n] == [t[0]] + t[1..n];
    StartHasNoArgs(t[0], t[1..n]);
  }

  lemma {:induction false} StartHasNoArgs(start: Event, evs: seq<Event>)
    requires start.ToolStart?
    ensures ArgsOf([start] + evs) == ArgsOf(evs)
    decreases |evs|
  {
    var all := [start] + evs;
    if evs == [] {
      assert all == [start] && all[..0] == [];
    } else {
      assert all[..|all| - 1] == [start] + evs[..|evs| - 1];
      StartHasNoArgs(start, evs[..|evs| - 1]);
    }
  }

  lemma CallIsFrom(i: int, own: seq<ToolDelta>, t: seq<Event>)
    requires Exchange(i, own, t) && SeenName(own)
    ensures CallFrom(ToolUse(CallId(i, own), LastName(own), Input(ArgsText(own))), t)
  {
    ArgsInside(i, own, t);
    hide SeenName, CallId, FirstName, LastName, ArgsText, ArgsOf, ArgsOnly;
  }

  /** The call assembled for every named index. */
  ghost predicate CallsFrom(content: seq<Content>, ds: seq<ToolDelta>, evs: seq<Event>, named: seq<int>) {
    && |content| == |named|
    && forall k :: 0 <= k < |named| ==>
         && CallFrom(content[k], ToolEvents(evs, named[k])) && content[k].input != ""
         && content[k].name == LastName(Of(ds, named[k]))
  }

  lemma CallsAreFrom(ds: seq<ToolDelta>, evs: seq<Event>, order: seq<int>)
    requires forall i :: Exchange(i, Of(ds, i), ToolEvents(evs, i))
    ensures CallsFrom(Calls(ds, order), ds, evs, Named(ds, order))
  {
    hide Calls, Named, ToolEvents, Of, Exchange, CallFrom, SeenName, LastName, CallId, Input;
    var calls, named := Calls(ds, order), Named(ds, order);
    CallsAt(ds, order);
    forall k | 0 <= k < |named|
      ensures CallFrom(calls[k], ToolEvents(evs, named[k])) && calls[k].input != "" && calls[k].name == LastName(Of(ds, named[k]))
    {
      CallIsFrom(named[k], Of(ds, named[k]), ToolEvents(evs, named[k]));
      NotEmpty(calls[k], ToolEvents(evs, named[k]));
    }
  }

  /** On every successful stream: the content is the text, if any, and then one call for every
      named index, in order of first appearance; the call's input is the concatenation of the
      argument events emitted for it, or "{}" when there were none, and so never empty. */
  lemma ArgumentsKept(frames: seq<Frame>, end: StreamEnd) returns (calls: seq<Content>)
    requires Streamed(frames, end).0.Ok?
    ensures var cs := Choices(frames);
            var ds := DeltasOf(cs);
            var (r, evs) := Streamed(frames, end);
            && r.value.content == (if TextOf(cs) == "" then [] else [Text(TextOf(cs))]) + calls
            && CallsFrom(calls, ds, evs, Named(ds, FirstSeen(ds)))
  {
    hide Streamed, Calls, Named, ToolEvents, FirstSeen, DeltasOf, Choices, Of, Exchange, CallsFrom;
    ToolProtocol(frames, end);
    var ds := DeltasOf(Choices(frames));
    calls := Calls(ds, FirstSeen(ds));
    CallsAreFrom(ds, Streamed(frames, end).1, FirstSeen(ds));
  }

  lemma NotEmpty(c: Content, t: seq<Event>)
    requires CallFrom(c, t)
    ensures c.ToolUse? && c.input != ""
  {
  }

  /** The blocking call treats arguments the same way. */
  lemma {:induction false} WholeInputs(calls: seq<Call>)
    ensures |WholeCalls(calls)| == |calls|
    ensures forall k :: 0 <= k < |calls| ==>
              var c := WholeCalls(calls)[k];
              && c.ToolUse? && c.id == calls[k].id && c.name == calls[k].name
              && (if calls[k].args != "" then c.input == calls[k].args else c.input == "{}")
  {
    if calls != [] {
      WholeInputs(calls[1..]);
    }
  }

  /** Ids that are made up never collide, so every result finds its call. */
  lemma MadeUpIdsDiffer(i: int, j: int)
    requires i != j
    ensures SyntheticId(i) != SyntheticId(j) && "call_" <= SyntheticId(i)
  {
    hide Format, Parse;
    var a, b := SyntheticId(i)[5..], SyntheticId(j)[5..];
    if i >= 0 && j >= 0 {
      ParseFormat(i);
      ParseFormat(j);
    } else if i < 0 && j < 0 {
      assert a[1..] == Format(-i) && b[1..] == Format(-j);
      ParseFormat(-i);
      ParseFormat(-j);
    } else {
      assert a[0] != b[0];
    }
  }

  // ---- text -------------------------------------------------------------------------------

  function TextsOf(evs: seq<Event>): Bytes {
    if evs == [] then ""
    else TextsOf(evs[..|evs| - 1]) + if evs[|evs| - 1].TextDelta? then evs[|evs| - 1].text else ""
  }

  predicate Textless(evs: seq<Event>) {
    forall k :: 0 <= k < |evs| ==> !evs[k].TextDelta? && !evs[k].Finished?
  }

  predicate Unfinished(evs: seq<Event>) {
    forall k :: 0 <= k < |evs| ==> !evs[k].Finished?
  }

  lemma {:induction false} TextlessTail(evs: seq<Event>, more: seq<Event>)
    requires Textless(more)
    ensures TextsOf(evs + more) == TextsOf(evs) && (Unfinished(evs) ==> Unfinished(evs + more))
    decreases |more|
  {
    if more == [] {
      assert evs + more == evs;
    } else {
      var front := more[..|more| - 1];
      TextlessTail(evs, front);
      assert (evs + more)[..|evs + more| - 1] == evs + front;
      assert TextsOf(evs + front) + "" == TextsOf(evs + front);
    }
  }

  lemma {:induction false} DeltasTextless(st: State, ds: seq<ToolDelta>)
    ensures TextsOf(OnDeltas(st, ds).events) == TextsOf(st.events) && OnDeltas(st, ds).text == st.text
    ensures Unfinished(st.events) ==> Unfinished(OnDeltas(st, ds).events)
    decreases |ds|
  {
    if ds != [] {
      var d := ds[0];
      DeltasTextless(OnDelta(st, d), ds[1..]);
      TextlessTail(st.events, AccEvents(Index(d), At(st.tools, Index(d)), d));
    }
  }

  /** The text events so far join to the text so far. */
  predicate TextTold(st: State) {
    TextsOf(st.events) == st.text && Unfinished(st.events)
  }

  lemma ContentTold(st: State, content: Bytes)
    requires TextTold(st)
    ensures TextTold(OnContent(st, content))
  {
    assert (st.events + [TextDelta(content)])[..|st.events|] == st.events;
  }

  lemma DeltasTold(st: State, ds: seq<ToolDelta>)
    requires TextTold(st)
    ensures TextTold(OnDeltas(st, ds))
  {
    DeltasTextless(st, ds);
  }

  lemma SameTold(st: State, st': State)
    requires TextTold(st) && st'.events == st.events && st'.text == st.text
    ensures TextTold(st')
  {
  }

  lemma ChunkTold(st: State, f: Frame)
    requires TextTold(st) && f.Chunk?
    ensures TextTold(OnChunk(st, f))
  {
    hide TextTold, OnDeltas, OnContent, Stop;
    var st1 := if f.usage.Some? then st.(usage := f.usage.value) else st;
    SameTold(st, st1);
    if f.choice.Some? {
      var c := f.choice.value;
      ContentTold(st1, c.content);
      DeltasTold(OnContent(st1, c.content), c.tools);
      SameTold(OnDeltas(OnContent(st1, c.content), c.tools), OnChunk(st, f));
    }
  }

  lemma {:induction false} ScanTold(st: State, frames: seq<Frame>, end: StreamEnd)
    requires TextTold(st)
    ensures TextTold(Scan(st, frames, end).0)
    decreases |frames|
  {
    hide TextTold, OnChunk;
    if frames != [] {
      match frames[0]
      case Empty => ScanTold(st, frames[1..], end);
      case Chunk(_, _) =>
        ChunkTold(st, frames[0]);
        ScanTold(OnChunk(st, frames[0]), frames[1..], end);
      case _ =>
    }
  }

  lemma {:induction false} StopsTextless(tools: map<int, Acc>, order: seq<int>)
    ensures Textless(Stops(tools, order))
  {
    hide SyntheticId;
    if order != [] {
      StopsTextless(tools, order[1..]);
    }
  }

  /** On every successful stream the text events join to the response's text, and a done event
      with the response's usage comes last and nowhere else. */
  lemma TextAndDone(frames: seq<Frame>, end: StreamEnd)
    requires Streamed(frames, end).0.Ok?
    ensures var (r, evs) := Streamed(frames, end);
            && TextsOf(evs) == TextOf(Choices(frames))
            && evs != [] && evs[|evs| - 1] == Finished(r.value.usage) && Unfinished(evs[..|evs| - 1])
  {
    var st := Scan(START, frames, end).0;
    var body := st.events + Stops(st.tools, st.order);
    ScanTold(START, frames, end);
    StopsTextless(st.tools, st.order);
    TextlessTail(st.events, Stops(st.tools, st.order));
    assert (body + [Finished(st.usage)])[..|body|] == body;
    assert TextsOf(body) + "" == TextsOf(body);
    hide Tracks, Scan, Choices, TextOf, DeltasOf, StopAfter;
    StartTracks();
    ScanTracks(START, frames, end, "", [], None);
    TextTracked(st, TextOf(Choices(frames)), DeltasOf(Choices(frames)), StopAfter(None, Choices(frames)));
  }

  lemma TextTracked(st: State, text: Bytes, ds: seq<ToolDelta>, stop: Option<StopReason>)
    requires Tracks(st, "" + text, [] + ds, stop)
    ensures st.text == text
  {
  }

  // ---- stop reason and usage --------------------------------------------------------------

  /** The last finish reason that is not empty. */
  function LastFinish(cs: seq<Choice>): Bytes {
    if cs == [] then "" else if cs[|cs| - 1].finish != "" then cs[|cs| - 1].finish else LastFinish(cs[..|cs| - 1])
  }

  lemma {:induction false} StopAfterSnoc(before: Option<StopReason>, cs: seq<Choice>, c: Choice)
    ensures StopAfter(before, cs + [c]) == if c.finish == "" then StopAfter(before, cs) else Some(Stop(c.finish))
    decreases |cs|
  {
    hide Stop;
    if cs == [] {
      assert cs + [c] == [c] && [c][1..] == [];
    } else {
      assert (cs + [c])[1..] == cs[1..] + [c];
      StopAfterSnoc(if cs[0].finish == "" then before else Some(Stop(cs[0].finish)), cs[1..], c);
    }
  }

  lemma {:induction false} StopIsLast(cs: seq<Choice>)
    ensures StopAfter(None, cs) == if LastFinish(cs) == "" then None else Some(Stop(LastFinish(cs)))
    decreases |cs|
  {
    hide Stop;
    if cs != [] {
      var front := cs[..|cs| - 1];
      StopIsLast(front);
      StopAfterSnoc(None, front, cs[|cs| - 1]);
      assert front + [cs[|cs| - 1]] == cs;
    }
  }

  /** The last usage reported before the end. */
  function LastUsage(usage: int, frames: seq<Frame>): int
    decreases |frames|
  {
    if frames == [] || frames[0].DoneMark? || frames[0].Malformed? || frames[0].Failure? then usage
    else LastUsage(if frames[0].Chunk? && frames[0].usage.Some? then frames[0].usage.value else usage, frames[1..])
  }

  lemma {:induction false} DeltasKeepUsage(st: State, ds: seq<ToolDelta>)
    ensures OnDeltas(st, ds).usage == st.usage
    decreases |ds|
  {
    if ds != [] {
      DeltasKeepUsage(OnDelta(st, ds[0]), ds[1..]);
    }
  }

  lemma {:induction false} UsageIsLast(st: State, frames: seq<Frame>, end: StreamEnd)
    ensures Scan(st, frames, end).0.usage == LastUsage(st.usage, frames)
    decreases |frames|
  {
    hide OnDeltas;
    if frames != [] {
      match frames[0]
      case Empty => UsageIsLast(st, frames[1..], end);
      case Chunk(usage, choice) =>
        if choice.Some? {
          var st1 := if usage.Some? then st.(usage := usage.value) else st;
          DeltasKeepUsage(OnContent(st1, choice.value.content), choice.value.tools);
        }
        UsageIsLast(OnChunk(st, frames[0]), frames[1..], end);
      case _ =>
    }
  }

  /** A stream is fine up to its first bad frame or done mark. */
  predicate Readable(frames: seq<Frame>, n: nat) {
    && n <= |frames| && (forall j :: 0 <= j < n ==> frames[j].Empty? || frames[j].Chunk?)
    && (n < |frames| ==> !frames[n].Empty? && !frames[n].Chunk?)
  }

  lemma {:induction false} ScanEnds(st: State, frames: seq<Frame>, end: StreamEnd, n: nat)
    requires Readable(frames, n)
    ensures Scan(st, frames, end).1 ==
            if n == |frames| then (if end == Eof then None else Some(Read))
            else if frames[n].Malformed? then Some(Decode)
            else if frames[n].Failure? then Some(Vendor)
            else None
    decreases n
  {
    hide OnChunk;
    if n > 0 {
      assert forall j :: 0 <= j < n - 1 ==> frames[1..][j] == frames[j + 1];
      ScanEnds(if frames[0].Chunk? then OnChunk(st, frames[0]) else st, frames[1..], end, n - 1);
    }
  }

  /** How a stream ends: an undecodable event, an error event and a failing read are errors; a
      done mark or the end of the stream is a success exactly if some chunk gave a finish
      reason, and then the last one given decides the stop reason, the last usage the usage. */
  lemma StreamOutcome(frames: seq<Frame>, end: StreamEnd, n: nat)
    requires Readable(frames, n)
    ensures var r := Streamed(frames, end).0;
            var finish := LastFinish(Choices(frames));
            && (n < |frames| && frames[n].Malformed? ==> r == Err(Decode))
            && (n < |frames| && frames[n].Failure? ==> r == Err(Vendor))
            && (n == |frames| && end == ReadError ==> r == Err(Read))
            && ((if n < |frames| then frames[n].DoneMark? else end == Eof) ==>
                  if finish == "" then r == Err(Truncated)
                  else
                    && r.Ok? && r.value.usage == LastUsage(0, frames)
                    && (r.value.stop == EndTurn <==> finish == "stop")
                    && (r.value.stop == ToolUseStop <==> finish == "tool_calls")
                    && (r.value.stop == MaxTokens <==> finish == "length"))
  {
    ScanEnds(START, frames, end, n);
    UsageIsLast(START, frames, end);
    StopIsLast(Choices(frames));
    hide Scan, Choices, LastFinish, LastUsage, StopAfter, Uses, Stops, Tracks, TextOf, DeltasOf;
    if Scan(START, frames, end).1.None? {
      StartTracks();
      ScanTracks(START, frames, end, "", [], None);
      StopTracked(Scan(START, frames, end).0, "" + TextOf(Choices(frames)), [] + DeltasOf(Choices(frames)),
                  StopAfter(None, Choices(frames)));
    }
  }

  lemma StopTracked(st: State, text: Bytes, ds: seq<ToolDelta>, stop: Option<StopReason>)
    requires Tracks(st, text, ds, stop)
    ensures st.stop == stop
  {
  }
}
