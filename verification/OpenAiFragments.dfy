/** Fragmentation invariance: however a reply is cut into chunks, the streaming decoder
    assembles what the blocking call returns for the whole reply. */
module OpenAiFragments {
  import opened Prelude
  import opened OpenAi

  // ---- the whole reply --------------------------------------------------------------------

  datatype Call = Call(id: Bytes, name: Bytes, args: Bytes)

  /** A reply without audio: its text, its tool calls, its finish reason. */
  datatype Reply = Reply(text: Bytes, calls: seq<Call>, finish: Bytes)

  function WholeCalls(calls: seq<Call>): seq<Content> {
    if calls == [] then []
    else [ToolUse(calls[0].id, calls[0].name, Input(calls[0].args))] + WholeCalls(calls[1..])
  }

  /** Complete: the content and stop reason for the reply as one message. */
  function Whole(r: Reply): (seq<Content>, StopReason) {
    (TextPart(r.text) + WholeCalls(r.calls), Stop(r.finish))
  }

  // ---- the pieces of a stream -------------------------------------------------------------

  /** The choices of the chunks before the end of the stream or its done mark. */
  function Choices(frames: seq<Frame>): seq<Choice> {
    if frames == [] || frames[0].DoneMark? || frames[0].Malformed? || frames[0].Failure? then []
    else (if frames[0].Chunk? && frames[0].choice.Some? then [frames[0].choice.value] else []) + Choices(frames[1..])
  }

  function TextOf(cs: seq<Choice>): Bytes {
    if cs == [] then "" else cs[0].content + TextOf(cs[1..])
  }

  function DeltasOf(cs: seq<Choice>): seq<ToolDelta> {
    if cs == [] then [] else cs[0].tools + DeltasOf(cs[1..])
  }

  /** The last finish reason given, or the one before. */
  function StopAfter(before: Option<StopReason>, cs: seq<Choice>): Option<StopReason>
    decreases |cs|
  {
    if cs == [] then before
    else StopAfter(if cs[0].finish == "" then before else Some(Stop(cs[0].finish)), cs[1..])
  }

  /** The entries of one index. */
  function Of(ds: seq<ToolDelta>, i: int): seq<ToolDelta> {
    if ds == [] then []
    else Of(ds[..|ds| - 1], i) + (if Index(ds[|ds| - 1]) == i then [ds[|ds| - 1]] else [])
  }

  /** The indices in order of first appearance. */
  function FirstSeen(ds: seq<ToolDelta>): seq<int> {
    if ds == [] then []
    else
      var seen := FirstSeen(ds[..|ds| - 1]);
      if Index(ds[|ds| - 1]) in seen then seen else seen + [Index(ds[|ds| - 1])]
  }

  function Fold(i: int, ds: seq<ToolDelta>): Acc {
    if ds == [] then NO_ACC else AccStep(i, Fold(i, ds[..|ds| - 1]), ds[|ds| - 1])
  }

  // ---- the state is a function of the pieces ----------------------------------------------

  /** Whatever the interleaving, each accumulator has seen exactly its own entries. */
  ghost predicate Tracks(st: State, text: Bytes, ds: seq<ToolDelta>, stop: Option<StopReason>) {
    && st.text == text && st.stop == stop && st.order == FirstSeen(ds)
    && (forall i :: i in st.tools <==> i in FirstSeen(ds))
    && (forall i :: At(st.tools, i) == Fold(i, Of(ds, i)))
  }

  lemma DeltaTracks(st: State, d: ToolDelta, text: Bytes, ds: seq<ToolDelta>, stop: Option<StopReason>)
    requires Tracks(st, text, ds, stop)
    ensures Tracks(OnDelta(st, d), text, ds + [d], stop)
  {
    hide AccStep, AccEvents;
    var all := ds + [d];
    assert all[..|all| - 1] == ds;
    forall i
      ensures At(OnDelta(st, d).tools, i) == Fold(i, Of(all, i))
    {
      if i == Index(d) {
        var own := Of(ds, i) + [d];
        assert own[..|own| - 1] == Of(ds, i);
      } else {
        assert Of(all, i) == Of(ds, i) + [] == Of(ds, i);
      }
    }
  }

  lemma {:induction false} DeltasTrack(st: State, more: seq<ToolDelta>, text: Bytes, ds: seq<ToolDelta>, stop: Option<StopReason>)
    requires Tracks(st, text, ds, stop)
    ensures Tracks(OnDeltas(st, more), text, ds + more, stop)
    decreases |more|
  {
    hide Tracks, OnDelta;
    if more == [] {
      assert ds + more == ds;
    } else {
      DeltaTracks(st, more[0], text, ds, stop);
      DeltasTrack(OnDelta(st, more[0]), more[1..], text, ds + [more[0]], stop);
      assert ds + [more[0]] + more[1..] == ds + more;
    }
  }

  lemma ChoiceTracks(st: State, usage: int, c: Choice, text: Bytes, ds: seq<ToolDelta>, stop: Option<StopReason>)
    requires Tracks(st, text, ds, stop)
    ensures Tracks(OnChoice(st.(usage := usage), c), text + c.content, ds + c.tools,
                   if c.finish == "" then stop else Some(Stop(c.finish)))
  {
    hide OnDeltas, Fold, Of, FirstSeen, Stop;
    var with := OnContent(st.(usage := usage), c.content);
    assert text + "" == text;
    assert Tracks(with, text + c.content, ds, stop);
    DeltasTrack(with, c.tools, text + c.content, ds, stop);
  }

  lemma {:induction false} ScanTracks(st: State, frames: seq<Frame>, end: StreamEnd, text: Bytes, ds: seq<ToolDelta>, stop: Option<StopReason>)
    requires Tracks(st, text, ds, stop) && Scan(st, frames, end).1.None?
    ensures var cs := Choices(frames);
            Tracks(Scan(st, frames, end).0, text + TextOf(cs), ds + DeltasOf(cs), StopAfter(stop, cs))
    decreases |frames|
  {
    hide Tracks, OnChoice, Stop;
    if frames == [] || frames[0].DoneMark? {
      assert text + "" == text && ds + [] == ds;
    } else if frames[0].Chunk? && frames[0].choice.Some? {
      var c := frames[0].choice.value;
      var rest := Choices(frames[1..]);
      var usage := if frames[0].usage.Some? then frames[0].usage.value else st.usage;
      ChoiceTracks(st, usage, c, text, ds, stop);
      ScanTracks(OnChunk(st, frames[0]), frames[1..], end, text + c.content, ds + c.tools,
                 if c.finish == "" then stop else Some(Stop(c.finish)));
      assert ([c] + rest)[1..] == rest;
      assert text + c.content + TextOf(rest) == text + (c.content + TextOf(rest));
      assert ds + c.tools + DeltasOf(rest) == ds + (c.tools + DeltasOf(rest));
    } else {
      if frames[0].Chunk? && frames[0].usage.Some? {
        UsageTracks(st, frames[0].usage.value, text, ds, stop);
      }
      ScanTracks(if frames[0].Chunk? then OnChunk(st, frames[0]) else st, frames[1..], end, text, ds, stop);
      assert Choices(frames) == [] + Choices(frames[1..]) == Choices(frames[1..]);
    }
  }

  lemma UsageTracks(st: State, usage: int, text: Bytes, ds: seq<ToolDelta>, stop: Option<StopReason>)
    requires Tracks(st, text, ds, stop)
    ensures Tracks(st.(usage := usage), text, ds, stop)
  {
  }

  lemma StartTracks()
    ensures Tracks(START, "", [], None)
  {
  }

  // ---- one call cut into entries ----------------------------------------------------------

  function ArgsText(ds: seq<ToolDelta>): Bytes {
    if ds == [] then "" else ArgsText(ds[..|ds| - 1]) + ds[|ds| - 1].args
  }

  predicate SeenId(ds: seq<ToolDelta>) {
    exists k :: 0 <= k < |ds| && ds[k].id != ""
  }

  predicate SeenName(ds: seq<ToolDelta>) {
    exists k :: 0 <= k < |ds| && ds[k].name != ""
  }

  /** The id has come by the entry that first gives the name. */
  predicate IdInTime(ds: seq<ToolDelta>) {
    ds != [] && (if SeenName(ds[..|ds| - 1]) then IdInTime(ds[..|ds| - 1]) else SeenId(ds))
  }

  /** A cut of one call: the arguments in order, the id and the name each given in full at
      least once and never contradicted. */
  predicate CutOf(ds: seq<ToolDelta>, call: Call) {
    && ArgsText(ds) == call.args
    && SeenName(ds)
    && Consistent(ds, call)
  }

  predicate Consistent(ds: seq<ToolDelta>, call: Call) {
    forall k :: 0 <= k < |ds| ==> (ds[k].id == "" || ds[k].id == call.id) && (ds[k].name == "" || ds[k].name == call.name)
  }

  lemma SeenSnoc(ds: seq<ToolDelta>)
    requires ds != []
    ensures var n := |ds| - 1;
            && (SeenId(ds) <==> SeenId(ds[..n]) || ds[n].id != "")
            && (SeenName(ds) <==> SeenName(ds[..n]) || ds[n].name != "")
  {
    var n := |ds| - 1;
    if SeenId(ds) && ds[n].id == "" {
      var k :| 0 <= k < |ds| && ds[k].id != "";
      assert ds[..n][k].id != "";
    }
    if SeenName(ds) && ds[n].name == "" {
      var k :| 0 <= k < |ds| && ds[k].name != "";
      assert ds[..n][k].name != "";
    }
    if SeenId(ds[..n]) {
      var k :| 0 <= k < n && ds[..n][k].id != "";
      assert ds[k].id != "";
    }
    if SeenName(ds[..n]) {
      var k :| 0 <= k < n && ds[..n][k].name != "";
      assert ds[k].name != "";
    }
  }

  /** What a cut call is assembled into: itself, with the id replaced by a synthetic one when
      it came too late. */
  lemma {:induction false} FoldOfCut(i: int, ds: seq<ToolDelta>, call: Call)
    requires Consistent(ds, call) && call.id != "" && call.name != ""
    ensures Fold(i, ds) ==
            if SeenName(ds) then Acc(if IdInTime(ds) then call.id else SyntheticId(i), call.name, ArgsText(ds), true)
            else Acc(if SeenId(ds) then call.id else "", "", ArgsText(ds), false)
    decreases |ds|
  {
    hide SyntheticId, SeenId, SeenName;
    if ds == [] {
      NothingSeen();
    } else {
      var front, d := ds[..|ds| - 1], ds[|ds| - 1];
      assert Consistent(front, call) by {
        assert forall k :: 0 <= k < |front| ==> front[k] == ds[k];
      }
      FoldOfCut(i, front, call);
      SeenSnoc(ds);
      assert (d.id == "" || d.id == call.id) && (d.name == "" || d.name == call.name);
    }
  }

  lemma NothingSeen()
    ensures !SeenId([]) && !SeenName([])
  {
  }

  // ---- the theorem ------------------------------------------------------------------------

  /** The stream carries exactly this reply: its text, its calls (call k under index idxs[k],
      first appearing in order) and its finish reason, cut anywhere, and ends properly. */
  ghost predicate Carries(frames: seq<Frame>, end: StreamEnd, r: Reply, idxs: seq<int>) {
    var cs := Choices(frames);
    && Scan(START, frames, end).1.None?
    && TextOf(cs) == r.text
    && FirstSeen(DeltasOf(cs)) == idxs && |idxs| == |r.calls|
    && (forall k :: 0 <= k < |idxs| ==> CutOf(Of(DeltasOf(cs), idxs[k]), r.calls[k]))
    && r.finish != "" && StopAfter(None, cs) == Some(Stop(r.finish))
    && (forall k :: 0 <= k < |r.calls| ==> r.calls[k].id != "" && r.calls[k].name != "")
  }

  /** The id of call k survives: it came in time, or is the one the decoder would invent. */
  predicate IdKept(frames: seq<Frame>, r: Reply, idxs: seq<int>, k: nat)
    requires k < |idxs| == |r.calls|
  {
    IdInTime(Of(DeltasOf(Choices(frames)), idxs[k])) || r.calls[k].id == SyntheticId(idxs[k])
  }

  lemma {:induction false} UsesAt(tools: map<int, Acc>, order: seq<int>)
    requires forall k :: 0 <= k < |order| ==> At(tools, order[k]).name != "" && At(tools, order[k]).id != ""
    ensures |Uses(tools, order)| == |order|
    ensures forall k :: 0 <= k < |order| ==>
      Uses(tools, order)[k] == ToolUse(At(tools, order[k]).id, At(tools, order[k]).name, Input(At(tools, order[k]).args))
  {
    hide SyntheticId, Input;
    if order != [] {
      UsesAt(tools, order[1..]);
    }
  }

  lemma {:induction false} WholeAt(calls: seq<Call>)
    ensures |WholeCalls(calls)| == |calls|
    ensures forall k :: 0 <= k < |calls| ==>
      WholeCalls(calls)[k] == ToolUse(calls[k].id, calls[k].name, Input(calls[k].args))
  {
    hide Input;
    if calls != [] {
      WholeAt(calls[1..]);
    }
  }

  /** The assembled calls are the reply's calls exactly when the ids are. */
  lemma UsesAreCalls(tools: map<int, Acc>, order: seq<int>, calls: seq<Call>, ids: seq<Bytes>)
    requires |order| == |calls| == |ids|
    requires forall k :: 0 <= k < |order| ==>
      ids[k] != "" && calls[k].name != "" && At(tools, order[k]) == Acc(ids[k], calls[k].name, calls[k].args, true)
    ensures Uses(tools, order) == WholeCalls(calls) <==> forall k :: 0 <= k < |ids| ==> ids[k] == calls[k].id
  {
    hide Input;
    UsesAt(tools, order);
    WholeAt(calls);
    var u, w := Uses(tools, order), WholeCalls(calls);
    hide Uses, WholeCalls;
    if u == w {
      forall k | 0 <= k < |ids|
        ensures ids[k] == calls[k].id
      {
        assert u[k] == w[k];
      }
    }
    if forall k :: 0 <= k < |ids| ==> ids[k] == calls[k].id {
      assert forall k :: 0 <= k < |u| ==> u[k] == w[k];
    }
  }

  /** The id the decoder gives call k. */
  function GivenId(frames: seq<Frame>, r: Reply, idxs: seq<int>, k: nat): Bytes
    requires k < |idxs| == |r.calls|
  {
    if IdInTime(Of(DeltasOf(Choices(frames)), idxs[k])) then r.calls[k].id else SyntheticId(idxs[k])
  }

  lemma CallTracked(frames: seq<Frame>, end: StreamEnd, r: Reply, idxs: seq<int>, k: nat)
    requires Carries(frames, end, r, idxs) && k < |idxs|
    requires Tracks(Scan(START, frames, end).0, r.text, DeltasOf(Choices(frames)), Some(Stop(r.finish)))
    ensures var st := Scan(START, frames, end).0;
            At(st.tools, idxs[k]) == Acc(GivenId(frames, r, idxs, k), r.calls[k].name, r.calls[k].args, true)
    ensures GivenId(frames, r, idxs, k) != "" && r.calls[k].name != ""
  {
    hide Scan, Choices, DeltasOf, Stop, Of, Fold, FirstSeen, IdInTime, TextOf, StopAfter;
    var own := Of(DeltasOf(Choices(frames)), idxs[k]);
    assert CutOf(own, r.calls[k]);
    FoldOfCut(idxs[k], own, r.calls[k]);
  }

  lemma Tracked(frames: seq<Frame>, end: StreamEnd, r: Reply, idxs: seq<int>)
    requires Carries(frames, end, r, idxs)
    ensures Tracks(Scan(START, frames, end).0, r.text, DeltasOf(Choices(frames)), Some(Stop(r.finish)))
  {
    hide Tracks, Scan, Choices, DeltasOf, TextOf, StopAfter, Stop;
    StartTracks();
    ScanTracks(START, frames, end, "", [], None);
    assert "" + r.text == r.text;
    assert [] + DeltasOf(Choices(frames)) == DeltasOf(Choices(frames));
  }

  /** Every cut of a reply is assembled to the same stop reason, and to the same content as
      the whole reply if and only if no call's id came after its name. */
  lemma FragmentationInvariance(frames: seq<Frame>, end: StreamEnd, r: Reply, idxs: seq<int>)
    requires Carries(frames, end, r, idxs)
    ensures var got := Streamed(frames, end).0;
            && got.Ok? && got.value.stop == Whole(r).1
            && (got.value.content == Whole(r).0 <==> forall k :: 0 <= k < |idxs| ==> IdKept(frames, r, idxs, k))
  {
    var st := Scan(START, frames, end).0;
    Tracked(frames, end, r, idxs);
    var ids := seq(|idxs|, k requires 0 <= k < |idxs| => GivenId(frames, r, idxs, k));
    forall k | 0 <= k < |idxs|
      ensures At(st.tools, idxs[k]) == Acc(ids[k], r.calls[k].name, r.calls[k].args, true)
      ensures ids[k] != "" && r.calls[k].name != ""
      ensures ids[k] == r.calls[k].id <==> IdKept(frames, r, idxs, k)
    {
      CallTracked(frames, end, r, idxs, k);
    }
    assert st.order == idxs && st.text == r.text && st.stop == Some(Stop(r.finish));
    hide Scan, Choices, DeltasOf, TextOf, StopAfter, Stop, Of, Fold, FirstSeen, IdInTime, SyntheticId, Tracks, Carries,
         Uses, WholeCalls, Stops, IdKept, GivenId;
    UsesAreCalls(st.tools, idxs, r.calls, ids);
    SameTail(TextPart(r.text), Uses(st.tools, idxs), WholeCalls(r.calls));
  }

  lemma SameTail<T>(a: seq<T>, x: seq<T>, y: seq<T>)
    ensures a + x == a + y <==> x == y
  {
    if a + x == a + y {
      assert x == (a + x)[|a|..];
      assert y == (a + y)[|a|..];
    }
  }

  // ---- cuts exist -------------------------------------------------------------------------

  /** The whole reply as one chunk. */
  function Entries(calls: seq<Call>): seq<ToolDelta> {
    if calls == [] then []
    else
      var n := |calls| - 1;
      Entries(calls[..n]) + [ToolDelta(Some(n), calls[n].id, calls[n].name, calls[n].args)]
  }

  function Count(n: nat): seq<int> {
    if n == 0 then [] else Count(n - 1) + [n - 1]
  }

  function Entry(n: nat, call: Call): ToolDelta {
    ToolDelta(Some(n), call.id, call.name, call.args)
  }

  lemma OfSnoc(ds: seq<ToolDelta>, d: ToolDelta, i: int)
    ensures Of(ds + [d], i) == if Index(d) == i then Of(ds, i) + [d] else Of(ds, i)
  {
    assert (ds + [d])[..|ds|] == ds;
  }

  lemma FirstSeenSnoc(ds: seq<ToolDelta>, d: ToolDelta)
    ensures FirstSeen(ds + [d]) == if Index(d) in FirstSeen(ds) then FirstSeen(ds) else FirstSeen(ds) + [Index(d)]
  {
    assert (ds + [d])[..|ds|] == ds;
  }

  lemma {:induction false} Counted(n: nat)
    ensures |Count(n)| == n && forall k :: 0 <= k < n ==> Count(n)[k] == k
  {
    if n > 0 {
      Counted(n - 1);
    }
  }

  lemma EntriesSnoc(calls: seq<Call>)
    requires calls != []
    ensures var n := |calls| - 1; Entries(calls) == Entries(calls[..n]) + [Entry(n, calls[n])]
  {
  }

  lemma {:induction false} EntriesFirst(calls: seq<Call>)
    ensures FirstSeen(Entries(calls)) == Count(|calls|)
    decreases |calls|
  {
    hide FirstSeen;
    if calls == [] {
      assert FirstSeen([]) == [] by {
        NoneFirst();
      }
    } else {
      var n := |calls| - 1;
      EntriesFirst(calls[..n]);
      Counted(n);
      FirstSeenSnoc(Entries(calls[..n]), Entry(n, calls[n]));
    }
  }

  lemma NoneFirst()
    ensures FirstSeen([]) == []
  {
  }

  lemma {:induction false} EntriesOf(calls: seq<Call>, i: int)
    ensures Of(Entries(calls), i) == if 0 <= i < |calls| then [Entry(i, calls[i])] else []
    decreases |calls|
  {
    if calls != [] {
      hide Of;
      var n := |calls| - 1;
      EntriesOf(calls[..n], i);
      EntriesSnoc(calls);
      OfSnoc(Entries(calls[..n]), Entry(n, calls[n]), i);
    }
  }

  lemma EntriesSeen(calls: seq<Call>)
    ensures FirstSeen(Entries(calls)) == Count(|calls|) && |Count(|calls|)| == |calls|
    ensures forall k :: 0 <= k < |calls| ==> Count(|calls|)[k] == k
    ensures forall k :: 0 <= k < |calls| ==>
      Of(Entries(calls), k) == [ToolDelta(Some(k), calls[k].id, calls[k].name, calls[k].args)]
  {
    hide FirstSeen, Of, Entries, Count;
    Counted(|calls|);
    EntriesFirst(calls);
    forall k | 0 <= k < |calls|
      ensures Of(Entries(calls), k) == [ToolDelta(Some(k), calls[k].id, calls[k].name, calls[k].args)]
    {
      EntriesOf(calls, k);
    }
  }

  /** Every reply whose calls have ids and names is carried by some stream that keeps them. */
  lemma OneChunk(r: Reply)
    requires r.finish != "" && forall k :: 0 <= k < |r.calls| ==> r.calls[k].id != "" && r.calls[k].name != ""
    ensures var frames := [Chunk(None, Some(Choice(r.text, Entries(r.calls), r.finish)))];
            && Carries(frames, Eof, r, Count(|r.calls|))
            && forall k :: 0 <= k < |r.calls| == |Count(|r.calls|)| ==> IdKept(frames, r, Count(|r.calls|), k)
  {
    hide Stop, Fold, SyntheticId, FirstSeen, Of, Choices, DeltasOf, TextOf, Scan, StopAfter, IdInTime, CutOf, Entries;
    SingleChunk(Choice(r.text, Entries(r.calls), r.finish));
    EntriesSeen(r.calls);
    forall k | 0 <= k < |r.calls|
      ensures CutOf([ToolDelta(Some(k), r.calls[k].id, r.calls[k].name, r.calls[k].args)], r.calls[k])
      ensures IdInTime([ToolDelta(Some(k), r.calls[k].id, r.calls[k].name, r.calls[k].args)])
    {
      OneEntry(k, r.calls[k]);
    }
  }

  lemma SingleChunk(c: Choice)
    requires c.finish != ""
    ensures var frames := [Chunk(None, Some(c))];
            && Scan(START, frames, Eof).1.None?
            && TextOf(Choices(frames)) == c.content && DeltasOf(Choices(frames)) == c.tools
            && StopAfter(None, Choices(frames)) == Some(Stop(c.finish))
  {
    hide Stop, OnChunk;
    var frames := [Chunk(None, Some(c))];
    assert frames[1..] == [] && [c][1..] == [];
    assert Choices(frames) == [c] + [] == [c];
    assert TextOf([c]) == c.content + "" == c.content;
    assert DeltasOf([c]) == c.tools + [] == c.tools;
    assert Scan(START, frames, Eof).1 == Scan(OnChunk(START, frames[0]), [], Eof).1;
    assert StopAfter(None, [c]) == StopAfter(Some(Stop(c.finish)), []);
  }

  lemma OneEntry(k: int, call: Call)
    requires call.id != "" && call.name != ""
    ensures var ds := [ToolDelta(Some(k), call.id, call.name, call.args)]; CutOf(ds, call) && IdInTime(ds)
  {
    var ds := [ToolDelta(Some(k), call.id, call.name, call.args)];
    assert ds[..0] == [];
    assert ds[0].id != "" && ds[0].name != "";
    assert "" + call.args == call.args;
  }

  // ---- the failing case -------------------------------------------------------------------

  const NAMED := ToolDelta(Some(0), "", "f", "")
  const IDENTIFIED := ToolDelta(Some(0), "x", "", "")

  const LATE_ID := [Chunk(None, Some(Choice("", [NAMED, IDENTIFIED], "tool_calls")))]
  const WITH_ID := Reply("", [Call("x", "f", "")], "tool_calls")

  /** A concrete stream whose id comes one entry after its name: it carries a call with id "x",
      which the decoder returns under an id of its own. */
  lemma LateIdLost()
    ensures Carries(LATE_ID, Eof, WITH_ID, [0]) && Streamed(LATE_ID, Eof).0.Ok?
    ensures Streamed(LATE_ID, Eof).0.value.content != Whole(WITH_ID).0
  {
    hide Streamed, Whole, Carries, IdKept;
    LateCarries();
    FragmentationInvariance(LATE_ID, Eof, WITH_ID, [0]);
  }

  lemma LateCarries()
    ensures Carries(LATE_ID, Eof, WITH_ID, [0]) && !IdKept(LATE_ID, WITH_ID, [0], 0)
  {
    hide Stop, Scan, Choices, DeltasOf, TextOf, StopAfter, SyntheticId, FirstSeen, Of, CutOf, IdInTime;
    SingleChunk(Choice("", [NAMED, IDENTIFIED], "tool_calls"));
    LateEntries();
    OwnId();
  }

  lemma LateEntries()
    ensures var ds := [NAMED, IDENTIFIED];
            FirstSeen(ds) == [0] && Of(ds, 0) == ds && CutOf(ds, Call("x", "f", "")) && !IdInTime(ds)
  {
    hide FirstSeen, Of, CutOf, IdInTime;
    LateOrder();
    LateCut();
  }

  lemma LateOrder()
    ensures FirstSeen([NAMED, IDENTIFIED]) == [0] && Of([NAMED, IDENTIFIED], 0) == [NAMED, IDENTIFIED]
  {
    assert [NAMED, IDENTIFIED] == [] + [NAMED] + [IDENTIFIED] && [] + [NAMED] == [NAMED];
    OfSnoc([], NAMED, 0);
    OfSnoc([NAMED], IDENTIFIED, 0);
    FirstSeenSnoc([], NAMED);
    FirstSeenSnoc([NAMED], IDENTIFIED);
  }

  lemma LateCut()
    ensures CutOf([NAMED, IDENTIFIED], Call("x", "f", "")) && !IdInTime([NAMED, IDENTIFIED])
  {
    var one, ds := [NAMED], [NAMED, IDENTIFIED];
    assert ds[..1] == one && one[..0] == [];
    assert one[0].name != "" && ds[0].name != "";
    assert ArgsText(one) == ArgsText([]) + "" && ArgsText(ds) == ArgsText(one) + "";
    NothingSeen();
    assert SeenName(one) && !SeenId(one);
  }

  lemma OwnId()
    ensures SyntheticId(0) != "x"
  {
    assert |SyntheticId(0)| > 1;
  }
}
