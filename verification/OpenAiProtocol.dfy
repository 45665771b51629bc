/** The tool events Stream emits and the calls it assembles for arbitrary chunks, said in terms
    of the entries the chunks carry: one start, the argument deltas, one stop for every index
    that is ever named, nothing for the others. */
module OpenAiProtocol {
  import opened Prelude
  import opened OpenAi
  import opened OpenAiFragments

  predicate About(e: Event, i: int) {
    (e.ToolStart? || e.ToolArgs? || e.ToolStop?) && e.index == i
  }

  function Own(e: Event, i: int): seq<Event> {
    if About(e, i) then [e] else []
  }

  /** The tool events of one index, in order. */
  function ToolEvents(evs: seq<Event>, i: int): seq<Event> {
    if evs == [] then [] else Own(evs[0], i) + ToolEvents(evs[1..], i)
  }

  lemma {:induction false} ToolEventsAppend(xs: seq<Event>, ys: seq<Event>, i: int)
    ensures ToolEvents(xs + ys, i) == ToolEvents(xs, i) + ToolEvents(ys, i)
  {
    hide Own;
    if xs == [] {
      assert xs + ys == ys;
    } else {
      assert (xs + ys)[1..] == xs[1..] + ys;
      ToolEventsAppend(xs[1..], ys, i);
    }
  }

  lemma ToolEventsOne(e: Event, i: int)
    ensures ToolEvents([e], i) == Own(e, i)
  {
    assert [e][1..] == [];
    assert Own(e, i) + [] == Own(e, i);
  }

  /** The argument text carried by a run of delta events. */
  function ArgsOf(evs: seq<Event>): Bytes {
    if evs == [] then ""
    else ArgsOf(evs[..|evs| - 1]) + (if evs[|evs| - 1].ToolArgs? then evs[|evs| - 1].args else "")
  }

  predicate ArgsOnly(evs: seq<Event>, i: int) {
    forall k :: 0 <= k < |evs| ==> evs[k].ToolArgs? && evs[k].index == i
  }

  // ---- what the entries of one index say ---------------------------------------------------

  function LastId(ds: seq<ToolDelta>): Bytes {
    if ds == [] then "" else if ds[|ds| - 1].id != "" then ds[|ds| - 1].id else LastId(ds[..|ds| - 1])
  }

  function FirstName(ds: seq<ToolDelta>): Bytes {
    if ds == [] then "" else if FirstName(ds[..|ds| - 1]) != "" then FirstName(ds[..|ds| - 1]) else ds[|ds| - 1].name
  }

  function LastName(ds: seq<ToolDelta>): Bytes {
    if ds == [] then "" else if ds[|ds| - 1].name != "" then ds[|ds| - 1].name else LastName(ds[..|ds| - 1])
  }

  /** The id a named call goes by: the last one given up to the entry that first names it, or
      a made-up one. */
  function CallId(i: int, ds: seq<ToolDelta>): Bytes {
    if ds == [] then ""
    else if SeenName(ds[..|ds| - 1]) then CallId(i, ds[..|ds| - 1])
    else if LastId(ds) == "" then SyntheticId(i) else LastId(ds)
  }

  lemma {:induction false} FoldIs(i: int, ds: seq<ToolDelta>)
    ensures Fold(i, ds) == if SeenName(ds) then Acc(CallId(i, ds), LastName(ds), ArgsText(ds), true)
                           else Acc(LastId(ds), "", ArgsText(ds), false)
    ensures SeenName(ds) ==> CallId(i, ds) != "" && LastName(ds) != "" && FirstName(ds) != ""
    ensures !SeenName(ds) ==> FirstName(ds) == ""
    decreases |ds|
  {
    hide SyntheticId, SeenName, SeenId;
    if ds == [] {
      NothingSeen();
    } else {
      FoldIs(i, ds[..|ds| - 1]);
      SeenSnoc(ds);
    }
  }

  /** The events the entries of one index cause. */
  function Said(i: int, ds: seq<ToolDelta>): seq<Event> {
    if ds == [] then []
    else Said(i, ds[..|ds| - 1]) + AccEvents(i, Fold(i, ds[..|ds| - 1]), ds[|ds| - 1])
  }

  /** Nothing before a name is known, then one start under the id that is now fixed, then the
      arguments given so far. */
  predicate Tells(i: int, ds: seq<ToolDelta>, evs: seq<Event>) {
    if !SeenName(ds) then evs == []
    else
      && evs != [] && evs[0] == ToolStart(i, CallId(i, ds), FirstName(ds))
      && ArgsOnly(evs[1..], i) && ArgsOf(evs[1..]) == ArgsText(ds)
  }

  lemma ArgsSnoc(evs: seq<Event>, i: int, args: Bytes)
    requires ArgsOnly(evs, i)
    ensures ArgsOnly(evs + [ToolArgs(i, args)], i) && ArgsOf(evs + [ToolArgs(i, args)]) == ArgsOf(evs) + args
  {
    assert (evs + [ToolArgs(i, args)])[..|evs|] == evs;
  }

  /** The entry that first gives a name: the start, and the arguments buffered until then. */
  lemma Starts(i: int, ds: seq<ToolDelta>)
    requires ds != [] && !SeenName(ds[..|ds| - 1]) && SeenName(ds)
    ensures Tells(i, ds, AccEvents(i, Fold(i, ds[..|ds| - 1]), ds[|ds| - 1]))
  {
    hide SyntheticId, SeenName, SeenId, Fold;
    var front, d := ds[..|ds| - 1], ds[|ds| - 1];
    FoldIs(i, front);
    FoldIs(i, ds);
    SeenSnoc(ds);
    var evs := AccEvents(i, Fold(i, front), d);
    if ArgsText(ds) != "" {
      assert evs[1..] == [] + [ToolArgs(i, ArgsText(ds))];
      ArgsSnoc([], i, ArgsText(ds));
    } else {
      assert evs[1..] == [];
    }
  }

  /** A later entry: its arguments, if it has any. */
  lemma Continues(i: int, ds: seq<ToolDelta>, evs: seq<Event>)
    requires ds != [] && SeenName(ds[..|ds| - 1]) && Tells(i, ds[..|ds| - 1], evs)
    ensures Tells(i, ds, evs + AccEvents(i, Fold(i, ds[..|ds| - 1]), ds[|ds| - 1]))
  {
    hide SyntheticId, SeenName, SeenId, Fold, ArgsOnly, ArgsOf;
    var front, d := ds[..|ds| - 1], ds[|ds| - 1];
    FoldIs(i, front);
    SeenSnoc(ds);
    var more := AccEvents(i, Fold(i, front), d);
    if d.args == "" {
      assert evs + more == evs && ArgsText(front) + d.args == ArgsText(front);
    } else {
      assert (evs + more)[1..] == evs[1..] + [ToolArgs(i, d.args)];
      ArgsSnoc(evs[1..], i, d.args);
    }
  }

  lemma {:induction false} SaidTells(i: int, ds: seq<ToolDelta>)
    ensures Tells(i, ds, Said(i, ds))
    decreases |ds|
  {
    hide Tells, Fold, AccEvents, SeenName, SeenId;
    if ds == [] {
      NothingSeen();
      NothingTold(i);
    } else {
      var front := ds[..|ds| - 1];
      SaidTells(i, front);
      SeenSnoc(ds);
      if SeenName(front) {
        Continues(i, ds, Said(i, front));
      } else {
        Silent(i, front, Said(i, front));
        if SeenName(ds) {
          Starts(i, ds);
          assert [] + AccEvents(i, Fold(i, front), ds[|ds| - 1]) == AccEvents(i, Fold(i, front), ds[|ds| - 1]);
        } else {
          StillSilent(i, ds);
        }
      }
    }
  }

  lemma NothingTold(i: int)
    requires !SeenName([])
    ensures Tells(i, [], [])
  {
  }

  lemma Silent(i: int, ds: seq<ToolDelta>, evs: seq<Event>)
    requires !SeenName(ds)
    ensures Tells(i, ds, evs) <==> evs == []
  {
  }

  lemma StillSilent(i: int, ds: seq<ToolDelta>)
    requires ds != [] && !SeenName(ds) && !SeenName(ds[..|ds| - 1])
    ensures Tells(i, ds, [] + AccEvents(i, Fold(i, ds[..|ds| - 1]), ds[|ds| - 1]))
  {
    hide SyntheticId, SeenName, SeenId, Fold;
    FoldIs(i, ds[..|ds| - 1]);
    SeenSnoc(ds);
  }

  // ---- while the stream runs --------------------------------------------------------------

  /** Whatever the interleaving, each index has emitted what its own entries cause. */
  ghost predicate Says(st: State, ds: seq<ToolDelta>) {
    forall i :: ToolEvents(st.events, i) == Said(i, Of(ds, i))
  }

  lemma OwnEvents(i: int, acc: Acc, d: ToolDelta, j: int)
    ensures ToolEvents(AccEvents(i, acc, d), j) == if i == j then AccEvents(i, acc, d) else []
  {
    hide AccStep;
    var evs := AccEvents(i, acc, d);
    if |evs| == 1 {
      assert evs == [evs[0]];
      ToolEventsOne(evs[0], j);
    } else if |evs| == 2 {
      assert evs == [evs[0]] + [evs[1]];
      ToolEventsAppend([evs[0]], [evs[1]], j);
      ToolEventsOne(evs[0], j);
      ToolEventsOne(evs[1], j);
    }
  }

  lemma DeltaSays(st: State, d: ToolDelta, text: Bytes, ds: seq<ToolDelta>, stop: Option<StopReason>)
    requires Tracks(st, text, ds, stop) && Says(st, ds)
    ensures Says(OnDelta(st, d), ds + [d])
  {
    hide AccStep, AccEvents, ToolEvents, Fold, FirstSeen;
    var i := Index(d);
    var acc := At(st.tools, i);
    assert acc == Fold(i, Of(ds, i));
    forall j
      ensures ToolEvents(OnDelta(st, d).events, j) == Said(j, Of(ds + [d], j))
    {
      ToolEventsAppend(st.events, AccEvents(i, acc, d), j);
      OwnEvents(i, acc, d, j);
      OfSnoc(ds, d, j);
      if j == i {
        var own := Of(ds, i) + [d];
        assert own[..|own| - 1] == Of(ds, i);
      } else {
        assert ToolEvents(st.events, j) + [] == ToolEvents(st.events, j);
      }
    }
  }

  lemma {:induction false} DeltasSay(st: State, more: seq<ToolDelta>, text: Bytes, ds: seq<ToolDelta>, stop: Option<StopReason>)
    requires Tracks(st, text, ds, stop) && Says(st, ds)
    ensures Says(OnDeltas(st, more), ds + more)
    decreases |more|
  {
    hide Tracks, Says, OnDelta;
    if more == [] {
      assert ds + more == ds;
    } else {
      DeltaTracks(st, more[0], text, ds, stop);
      DeltaSays(st, more[0], text, ds, stop);
      DeltasSay(OnDelta(st, more[0]), more[1..], text, ds + [more[0]], stop);
      assert ds + [more[0]] + more[1..] == ds + more;
    }
  }

  lemma ContentSays(st: State, content: Bytes, ds: seq<ToolDelta>)
    requires Says(st, ds)
    ensures Says(OnContent(st, content), ds)
  {
    hide Said, Of;
    forall i
      ensures ToolEvents(OnContent(st, content).events, i) == Said(i, Of(ds, i))
    {
      ToolEventsAppend(st.events, [TextDelta(content)], i);
      ToolEventsOne(TextDelta(content), i);
      assert ToolEvents(st.events, i) + [] == ToolEvents(st.events, i);
    }
  }

  lemma SameEvents(st: State, st': State, ds: seq<ToolDelta>)
    requires Says(st, ds) && st'.events == st.events
    ensures Says(st', ds)
  {
  }

  lemma ChoiceSays(st: State, usage: int, c: Choice, text: Bytes, ds: seq<ToolDelta>, stop: Option<StopReason>)
    requires Tracks(st, text, ds, stop) && Says(st, ds)
    ensures Says(OnChoice(st.(usage := usage), c), ds + c.tools)
  {
    var st1 := st.(usage := usage);
    var with := OnContent(st1, c.content);
    assert Tracks(with, text + c.content, ds, stop) by {
      hide Fold, Of, FirstSeen;
      assert text + "" == text;
    }
    hide Tracks, Says, OnDeltas, OnContent, Stop;
    SameEvents(st, st1, ds);
    ContentSays(st1, c.content, ds);
    DeltasSay(with, c.tools, text + c.content, ds, stop);
    SameEvents(OnDeltas(with, c.tools), OnChoice(st1, c), ds + c.tools);
  }

  lemma {:induction false} ScanSays(st: State, frames: seq<Frame>, end: StreamEnd, text: Bytes, ds: seq<ToolDelta>, stop: Option<StopReason>)
    requires Tracks(st, text, ds, stop) && Says(st, ds) && Scan(st, frames, end).1.None?
    ensures Says(Scan(st, frames, end).0, ds + DeltasOf(Choices(frames)))
    decreases |frames|
  {
    hide Tracks, Says, OnChoice, Stop;
    if frames == [] || frames[0].DoneMark? {
      assert ds + [] == ds;
    } else if frames[0].Chunk? && frames[0].choice.Some? {
      var c := frames[0].choice.value;
      var usage := if frames[0].usage.Some? then frames[0].usage.value else st.usage;
      ChoiceTracks(st, usage, c, text, ds, stop);
      ChoiceSays(st, usage, c, text, ds, stop);
      ScanSays(OnChunk(st, frames[0]), frames[1..], end, text + c.content, ds + c.tools,
               if c.finish == "" then stop else Some(Stop(c.finish)));
      assert ([c] + Choices(frames[1..]))[1..] == Choices(frames[1..]);
      assert ds + c.tools + DeltasOf(Choices(frames[1..])) == ds + (c.tools + DeltasOf(Choices(frames[1..])));
    } else {
      if frames[0].Chunk? && frames[0].usage.Some? {
        UsageTracks(st, frames[0].usage.value, text, ds, stop);
        SameEvents(st, st.(usage := frames[0].usage.value), ds);
      }
      ScanSays(if frames[0].Chunk? then OnChunk(st, frames[0]) else st, frames[1..], end, text, ds, stop);
      assert [] + Choices(frames[1..]) == Choices(frames[1..]);
    }
  }

  lemma StartSays()
    ensures Says(START, [])
  {
  }

  predicate NoDup(order: seq<int>) {
    forall j, k :: 0 <= j < k < |order| ==> order[j] != order[k]
  }

  lemma {:induction false} FirstSeenNoDup(ds: seq<ToolDelta>)
    ensures NoDup(FirstSeen(ds))
    decreases |ds|
  {
    if ds != [] {
      FirstSeenNoDup(ds[..|ds| - 1]);
    }
  }

  // ---- the whole stream -------------------------------------------------------------------

  /** Nothing if the index is never named; otherwise exactly start, deltas, stop: the start and
      the stop under the call's id, the deltas joining to all its arguments. */
  predicate Exchange(i: int, ds: seq<ToolDelta>, t: seq<Event>) {
    if !SeenName(ds) then t == []
    else
      && |t| >= 2
      && t[0] == ToolStart(i, CallId(i, ds), FirstName(ds))
      && ArgsOnly(t[1..|t| - 1], i) && ArgsOf(t[1..|t| - 1]) == ArgsText(ds)
      && t[|t| - 1] == ToolStop(i, CallId(i, ds))
  }

  /** The calls of the entries, by index: the named ones, each once. */
  function Calls(ds: seq<ToolDelta>, order: seq<int>): seq<Content> {
    if order == [] then []
    else
      var own := Of(ds, order[0]);
      (if SeenName(own) then [ToolUse(CallId(order[0], own), LastName(own), Input(ArgsText(own)))] else [])
      + Calls(ds, order[1..])
  }

  /** The call an exchange announced: its id and its input. */
  function CallOf(evs: seq<Event>): (Bytes, Bytes) {
    if |evs| >= 2 && evs[0].ToolStart? then (evs[0].id, Input(ArgsOf(evs[1..|evs| - 1]))) else ("", "")
  }

  function CallIn(c: Content): seq<(Bytes, Bytes)> {
    if c.ToolUse? then [(c.id, c.input)] else []
  }

  /** The calls of a response: ids and inputs of its ToolUse blocks. */
  function CallsIn(content: seq<Content>): seq<(Bytes, Bytes)> {
    if content == [] then [] else CallIn(content[0]) + CallsIn(content[1..])
  }

  /** The calls announced by the events, index by index. */
  function Announced(evs: seq<Event>, order: seq<int>): seq<(Bytes, Bytes)> {
    if order == [] then []
    else
      (if ToolEvents(evs, order[0]) == [] then [] else [CallOf(ToolEvents(evs, order[0]))]) + Announced(evs, order[1..])
  }

  lemma {:induction false} StopsOf(tools: map<int, Acc>, order: seq<int>, i: int)
    requires NoDup(order)
    ensures ToolEvents(Stops(tools, order), i) ==
            if i in order && At(tools, i).name != ""
            then [ToolStop(i, if At(tools, i).id == "" then SyntheticId(i) else At(tools, i).id)] else []
  {
    hide SyntheticId;
    if order != [] {
      var acc := At(tools, order[0]);
      var rest := Stops(tools, order[1..]);
      var own: seq<Event> := if acc.name == "" then [] else [ToolStop(order[0], if acc.id == "" then SyntheticId(order[0]) else acc.id)];
      StopsOf(tools, order[1..], i);
      ToolEventsAppend(own, rest, i);
      if own != [] {
        ToolEventsOne(own[0], i);
      }
      if order[0] == i {
        assert i !in order[1..];
      }
    }
  }

  lemma Stopped(i: int, ds: seq<ToolDelta>, evs: seq<Event>)
    requires Tells(i, ds, evs)
    ensures Exchange(i, ds, if SeenName(ds) then evs + [ToolStop(i, CallId(i, ds))] else evs)
  {
    hide SeenName, CallId;
    if SeenName(ds) {
      var t := evs + [ToolStop(i, CallId(i, ds))];
      assert t[1..|t| - 1] == evs[1..];
    }
  }

  lemma {:induction false} NeverSeen(ds: seq<ToolDelta>, i: int)
    requires i !in FirstSeen(ds)
    ensures Of(ds, i) == []
    decreases |ds|
  {
    if ds != [] {
      NeverSeen(ds[..|ds| - 1], i);
    }
  }

  lemma StopsSay(st: State, text: Bytes, ds: seq<ToolDelta>, stop: Option<StopReason>, i: int)
    requires Tracks(st, text, ds, stop)
    ensures ToolEvents(Stops(st.tools, st.order), i) ==
            if SeenName(Of(ds, i)) then [ToolStop(i, CallId(i, Of(ds, i)))] else []
  {
    hide SyntheticId, Fold, SeenName, SeenId, ToolEvents, CallId, FirstName, LastName, LastId, Stops, ArgsText;
    assert At(st.tools, i) == Fold(i, Of(ds, i)) && st.order == FirstSeen(ds);
    FoldIs(i, Of(ds, i));
    FirstSeenNoDup(ds);
    StopsOf(st.tools, st.order, i);
    if i !in FirstSeen(ds) {
      NeverSeen(ds, i);
      NothingSeen();
    }
  }

  /** What index i has emitted by the end. */
  lemma Complete(st: State, usage: int, text: Bytes, ds: seq<ToolDelta>, stop: Option<StopReason>, i: int)
    requires Tracks(st, text, ds, stop) && Says(st, ds)
    ensures Exchange(i, Of(ds, i), ToolEvents(st.events + Stops(st.tools, st.order) + [Finished(usage)], i))
  {
    hide SeenName, ToolEvents, CallId, Exchange, Tells, Said, Of, FirstSeen, Tracks, Stops;
    var own, e := Of(ds, i), ToolEvents(st.events, i);
    var stops := ToolEvents(Stops(st.tools, st.order), i);
    StopsSay(st, text, ds, stop, i);
    ToolEventsAppend(st.events, Stops(st.tools, st.order), i);
    ToolEventsAppend(st.events + Stops(st.tools, st.order), [Finished(usage)], i);
    ToolEventsOne(Finished(usage), i);
    assert e == Said(i, own);
    SaidTells(i, own);
    Stopped(i, own, e);
    assert e + stops + [] == e + stops && e + [] == e;
  }

  lemma {:induction false} AssembledCalls(tools: map<int, Acc>, ds: seq<ToolDelta>, order: seq<int>)
    requires forall i :: At(tools, i) == Fold(i, Of(ds, i))
    ensures Uses(tools, order) == Calls(ds, order)
  {
    hide SyntheticId, Fold, SeenName, Of, CallId, LastName, LastId, ArgsText, Input, FirstName;
    if order != [] {
      assert At(tools, order[0]) == Fold(order[0], Of(ds, order[0]));
      FoldIs(order[0], Of(ds, order[0]));
      AssembledCalls(tools, ds, order[1..]);
    }
  }

  /** The calls assembled are the calls announced. */
  lemma {:induction false} CallsAnnounced(ds: seq<ToolDelta>, order: seq<int>, evs: seq<Event>)
    requires forall i :: Exchange(i, Of(ds, i), ToolEvents(evs, i))
    ensures CallsIn(Calls(ds, order)) == Announced(evs, order)
  {
    hide ToolEvents, CallId, Of, SeenName, LastName, FirstName, ArgsText, ArgsOf, ArgsOnly, Input;
    if order != [] {
      var own := Of(ds, order[0]);
      assert Exchange(order[0], own, ToolEvents(evs, order[0]));
      CallsAnnounced(ds, order[1..], evs);
      var call: seq<Content> :=
        if SeenName(own) then [ToolUse(CallId(order[0], own), LastName(own), Input(ArgsText(own)))] else [];
      CallsAppend(call, Calls(ds, order[1..]));
      assert call != [] ==> call[1..] == [];
    }
  }

  lemma {:induction false} CallsAppend(xs: seq<Content>, ys: seq<Content>)
    ensures CallsIn(xs + ys) == CallsIn(xs) + CallsIn(ys)
  {
    hide CallIn;
    if xs == [] {
      assert xs + ys == ys;
    } else {
      assert (xs + ys)[1..] == xs[1..] + ys;
      CallsAppend(xs[1..], ys);
    }
  }

  /** On every successful stream, with `ds` all the tool entries of its chunks: each index ever
      named has exactly one start, then deltas joining to all its arguments, then one stop under
      the start's id, and a nameless index has no event; the response is the text followed by
      one call for every named index, in order of first appearance, under that same id and with
      those arguments. */
  lemma ToolProtocol(frames: seq<Frame>, end: StreamEnd)
    requires Streamed(frames, end).0.Ok?
    ensures var ds := DeltasOf(Choices(frames));
            var (r, evs) := Streamed(frames, end);
            && (forall i :: Exchange(i, Of(ds, i), ToolEvents(evs, i)))
            && r.value.content == TextPart(TextOf(Choices(frames))) + Calls(ds, FirstSeen(ds))
            && NoDup(FirstSeen(ds))
            && CallsIn(r.value.content) == Announced(evs, FirstSeen(ds))
  {
    var st := Scan(START, frames, end).0;
    var cs, evs := Choices(frames), Streamed(frames, end).1;
    var text, ds, stop := TextOf(cs), DeltasOf(cs), StopAfter(None, cs);
    assert Tracks(st, text, ds, stop) && Says(st, ds) by {
      hide Scan, Tracks, Says, Choices, TextOf, DeltasOf, StopAfter;
      StartTracks();
      StartSays();
      ScanTracks(START, frames, end, "", [], None);
      ScanSays(START, frames, end, "", [], None);
      assert "" + text == text && [] + ds == ds;
    }
    hide Exchange, Scan, Says, Choices, TextOf, DeltasOf, StopAfter, Fold, Of, FirstSeen, Uses, Stops, Calls;
    forall i
      ensures Exchange(i, Of(ds, i), ToolEvents(evs, i))
    {
      Complete(st, st.usage, text, ds, stop, i);
    }
    FirstSeenNoDup(ds);
    AssembledCalls(st.tools, ds, st.order);
    CallsAnnounced(ds, FirstSeen(ds), evs);
    CallsAppend(TextPart(text), Calls(ds, FirstSeen(ds)));
    TextHasNoCalls(text);
    assert [] + CallsIn(Calls(ds, FirstSeen(ds))) == CallsIn(Calls(ds, FirstSeen(ds)));
  }

  lemma TextHasNoCalls(text: Bytes)
    ensures CallsIn(TextPart(text)) == []
  {
    assert [Text(text)][1..] == [];
  }
}
