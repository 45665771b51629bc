/** netbus/hub.go writeEvent and the heartbeat comment, read back by the scanner. */
module SseFrames {
  import opened Prelude
  import opened Decimal
  import opened Sse
  import opened SseLines

  /** One write on a subscription's response. */
  datatype Write = KeepAlive | Frame(id: nat, kind: Bytes, data: Bytes)

  /** kindSanitiser: drops every CR and LF. */
  function Sanitise(kind: Bytes): (k: Bytes)
    ensures Plain(k) && |k| <= |kind|
    ensures Plain(kind) ==> k == kind
  {
    if kind == [] then []
    else if kind[0] == '\r' || kind[0] == '\n' then Sanitise(kind[1..])
    else [kind[0]] + Sanitise(kind[1..])
  }

  function WriteBytes(w: Write): Bytes {
    match w
    case KeepAlive => ": keep-alive\n\n"
    case Frame(id, kind, data) =>
      "id: " + Format(id) + "\nevent: " + Sanitise(kind) + "\ndata: " + data + "\n\n"
  }

  function Wire(ws: seq<Write>): Bytes {
    if ws == [] then [] else WriteBytes(ws[0]) + Wire(ws[1..])
  }

  /** What the hub can write: an int64 id, JSON data without raw newlines, sizes under the cap. */
  predicate Writable(w: Write) {
    match w
    case KeepAlive => true
    case Frame(id, kind, data) =>
      id < INT64_LIMIT && Plain(data) && |data| + 6 <= MAX_EVENT_BYTES && |Sanitise(kind)| + 7 <= MAX_EVENT_BYTES
  }

  predicate AllWritable(ws: seq<Write>) {
    forall i :: 0 <= i < |ws| ==> Writable(ws[i])
  }

  function EventOf(w: Write): Event
    requires w.Frame?
  {
    Event(Sanitise(w.kind), w.data, Format(w.id), "")
  }

  function EventsOfOne(w: Write): seq<Event> {
    if w.Frame? then [EventOf(w)] else []
  }

  /** The events a reader should see: one per frame, none per comment. */
  function EventsOf(ws: seq<Write>): seq<Event> {
    if ws == [] then [] else EventsOfOne(ws[0]) + EventsOf(ws[1..])
  }

  // ---- the bytes as lines -------------------------------------------------------------

  function LinesOf(w: Write): seq<Bytes> {
    match w
    case KeepAlive => [": keep-alive", ""]
    case Frame(id, kind, data) => ["id: " + Format(id), "event: " + Sanitise(kind), "data: " + data, ""]
  }

  function AllLines(ws: seq<Write>): seq<Bytes> {
    if ws == [] then [] else LinesOf(ws[0]) + AllLines(ws[1..])
  }

  function LFs(n: nat): (ts: seq<Terminator>)
    ensures |ts| == n && forall i :: 0 <= i < n ==> ts[i] == LF
  {
    seq(n, i => LF)
  }

  /** Encode with LF everywhere, as a function of the lines alone. */
  function Text(lines: seq<Bytes>, tail: Bytes): Bytes {
    if lines == [] then tail else lines[0] + "\n" + Text(lines[1..], tail)
  }

  lemma {:induction false} TextIsEncode(lines: seq<Bytes>, tail: Bytes)
    ensures Text(lines, tail) == Encode(lines, LFs(|lines|), tail)
  {
    if lines != [] {
      assert LFs(|lines|)[1..] == LFs(|lines| - 1);
      TextIsEncode(lines[1..], tail);
    }
  }

  lemma {:induction false} TextAppend(xs: seq<Bytes>, ys: seq<Bytes>, tail: Bytes)
    ensures Text(xs + ys, tail) == Text(xs, Text(ys, tail))
  {
    if xs == [] {
      assert xs + ys == ys;
    } else {
      assert (xs + ys)[1..] == xs[1..] + ys;
      TextAppend(xs[1..], ys, tail);
    }
  }

  lemma TextTwo(a: Bytes, b: Bytes, tail: Bytes)
    ensures Text([a, b], tail) == a + "\n" + (b + "\n" + tail)
  {
    assert [a, b][1..] == [b] && [b][1..] == [];
    assert Text([b], tail) == b + "\n" + tail;
  }

  lemma FrameBytes(l0: Bytes, kind: Bytes, data: Bytes)
    ensures l0 + "\nevent: " + kind + "\ndata: " + data + "\n\n" ==
            (l0 + "\n") + ("event: " + kind + "\n") + ("data: " + data + "\n") + "\n"
  {
    assert "\nevent: " == "\n" + "event: " && "\ndata: " == "\n" + "data: " && "\n\n" == "\n" + "\n";
  }

  lemma Regroup(a: Bytes, b: Bytes, c: Bytes, d: Bytes, e: Bytes)
    ensures a + b + c + d + e == a + (b + (c + (d + e)))
  {
  }

  lemma WriteIsText(w: Write, rest: Bytes)
    ensures WriteBytes(w) + rest == Text(LinesOf(w), rest)
  {
    match w
    case KeepAlive =>
      TextTwo(": keep-alive", "", rest);
      assert ": keep-alive" + "\n" + ("" + "\n" + rest) == ": keep-alive\n\n" + rest;
    case Frame(id, kind, data) =>
      var l0, l1, l2 := "id: " + Format(id), "event: " + Sanitise(kind), "data: " + data;
      assert [l0, l1, l2, ""] == [l0, l1] + [l2, ""];
      TextAppend([l0, l1], [l2, ""], rest);
      TextTwo(l2, "", rest);
      TextTwo(l0, l1, Text([l2, ""], rest));
      FrameBytes("id: " + Format(id), Sanitise(kind), data);
      Regroup(l0 + "\n", l1 + "\n", l2 + "\n", "\n", rest);
  }

  lemma {:induction false} WireIsText(ws: seq<Write>)
    ensures Wire(ws) == Text(AllLines(ws), "")
  {
    if ws != [] {
      WireIsText(ws[1..]);
      WriteIsText(ws[0], Wire(ws[1..]));
      TextAppend(LinesOf(ws[0]), AllLines(ws[1..]), "");
    }
  }

  lemma PlainAppend(a: Bytes, b: Bytes)
    requires Plain(a) && Plain(b)
    ensures Plain(a + b)
  {
  }

  lemma LinesPlain(w: Write)
    requires Writable(w)
    ensures PlainLines(LinesOf(w))
    ensures forall i :: 0 <= i < |LinesOf(w)| ==> |LinesOf(w)[i]| <= MAX_EVENT_BYTES
  {
    if w.Frame? {
      assert forall c :: c in Format(w.id) ==> '0' <= c <= '9';
      Int64Length(w.id);
      PlainAppend("id: ", Format(w.id));
      PlainAppend("event: ", Sanitise(w.kind));
      PlainAppend("data: ", w.data);
    }
  }

  lemma {:induction false} AllLinesPlain(ws: seq<Write>)
    requires AllWritable(ws)
    ensures PlainLines(AllLines(ws))
    ensures AllLines(ws) != [] ==> AllLines(ws)[0] != "" && AllLines(ws)[0][0] != BOM[0]
  {
    if ws != [] {
      LinesPlain(ws[0]);
      AllLinesPlain(ws[1..]);
      assert AllLines(ws)[0] == LinesOf(ws[0])[0];
      assert AllLines(ws)[0][0] == ':' || AllLines(ws)[0][0] == 'i';
    }
  }

  // ---- reading fields -----------------------------------------------------------------

  lemma {:induction false} CutAt(name: Bytes, value: Bytes)
    requires ':' !in name
    ensures Cut(name + ":" + value) == (name, value)
  {
    var line := name + ":" + value;
    if name == [] {
      assert line == ":" + value;
      assert line[1..] == value;
    } else {
      CutAt(name[1..], value);
      assert line[1..] == name[1..] + ":" + value;
      assert [line[0]] + name[1..] == name;
    }
  }

  lemma FieldOf(acc: Acc, name: Bytes, value: Bytes)
    requires name != [] && ':' !in name
    ensures Cut(name + ": " + value) == (name, " " + value)
    ensures TrimSpacePrefix(" " + value) == value
  {
    assert name + ": " + value == name + ":" + (" " + value);
    CutAt(name, " " + value);
  }

  lemma IdLine(acc: Acc, id: nat)
    ensures Content(acc, "id: " + Format(id)) == Ok(acc.(ev := acc.ev.(id := Format(id))))
  {
    FieldOf(acc, "id", Format(id));
    assert "id" + ": " == "id: ";
    assert '\0' !in Format(id);
  }

  lemma EventLine(acc: Acc, kind: Bytes)
    ensures Content(acc, "event: " + kind) == Ok(acc.(ev := acc.ev.(kind := kind)))
  {
    FieldOf(acc, "event", kind);
    assert "event" + ": " == "event: ";
  }

  lemma DataLine(acc: Acc, data: Bytes)
    requires acc.size + |data| + 1 <= MAX_EVENT_BYTES
    ensures Content(acc, "data: " + data) == Ok(Acc(acc.ev, acc.data + [data], acc.size + |data| + 1))
  {
    FieldOf(acc, "data", data);
    assert "data" + ": " == "data: ";
  }

  // ---- the round trip -----------------------------------------------------------------

  lemma InterpretLine(acc: Acc, line: Bytes, rest: seq<Bytes>, tail: Bytes, end: ScanError)
    requires 0 < |line| <= MAX_EVENT_BYTES && Content(acc, line).Ok?
    ensures Interpret(acc, [line] + rest, tail, end) == Interpret(Content(acc, line).value, rest, tail, end)
  {
    assert ([line] + rest)[1..] == rest;
  }

  lemma InterpretBlank(acc: Acc, rest: seq<Bytes>, tail: Bytes, end: ScanError)
    ensures Interpret(acc, [""] + rest, tail, end) ==
            if acc.data == [] then Interpret(Untyped(acc), rest, tail, end)
            else ([Pending(acc)] + Interpret(FRESH, rest, tail, end).0, Interpret(FRESH, rest, tail, end).1)
  {
    assert ([""] + rest)[1..] == rest;
  }

  /** The accumulators after a frame's three field lines. */
  function Framed(w: Write): Acc
    requires w.Frame?
  {
    Acc(Event(Sanitise(w.kind), "", Format(w.id), ""), [w.data], |w.data| + 1)
  }

  lemma InterpretWrite(w: Write, rest: seq<Bytes>, tail: Bytes, end: ScanError)
    requires Writable(w)
    ensures Interpret(FRESH, LinesOf(w) + rest, tail, end) ==
            (EventsOfOne(w) + Interpret(FRESH, rest, tail, end).0, Interpret(FRESH, rest, tail, end).1)
  {
    hide Content, Interpret, Pending;
    LinesPlain(w);
    match w
    case KeepAlive =>
      assert LinesOf(w) + rest == [": keep-alive"] + ([""] + rest);
      Comment(FRESH);
      InterpretLine(FRESH, ": keep-alive", [""] + rest, tail, end);
      InterpretBlank(FRESH, rest, tail, end);
      var evs := Interpret(FRESH, rest, tail, end).0;
      assert [] + evs == evs;
    case Frame(id, kind, data) =>
      var l0, l1, l2 := "id: " + Format(id), "event: " + Sanitise(kind), "data: " + data;
      assert LinesOf(w)[0] == l0 && LinesOf(w)[1] == l1 && LinesOf(w)[2] == l2;
      assert LinesOf(w) + rest == [l0] + ([l1] + ([l2] + ([""] + rest)));
      IdLine(FRESH, id);
      var a1 := FRESH.(ev := FRESH.ev.(id := Format(id)));
      InterpretLine(FRESH, l0, [l1] + ([l2] + ([""] + rest)), tail, end);
      EventLine(a1, Sanitise(kind));
      var a2 := a1.(ev := a1.ev.(kind := Sanitise(kind)));
      InterpretLine(a1, l1, [l2] + ([""] + rest), tail, end);
      DataLine(a2, data);
      assert a2.data + [data] == [data];
      assert Content(a2, l2).value == Framed(w);
      InterpretLine(a2, l2, [""] + rest, tail, end);
      PendingFramed(w);
      InterpretBlank(Framed(w), rest, tail, end);
  }

  lemma PendingFramed(w: Write)
    requires w.Frame?
    ensures Pending(Framed(w)) == EventOf(w) && Framed(w).data != []
  {
  }

  lemma Comment(acc: Acc)
    ensures Content(acc, ": keep-alive") == Ok(acc)
  {
  }

  lemma {:induction false} InterpretWrites(ws: seq<Write>, rest: seq<Bytes>, tail: Bytes, end: ScanError)
    requires AllWritable(ws)
    ensures Interpret(FRESH, AllLines(ws) + rest, tail, end) ==
            (EventsOf(ws) + Interpret(FRESH, rest, tail, end).0, Interpret(FRESH, rest, tail, end).1)
  {
    hide Interpret, LinesOf, EventsOfOne;
    var evs := Interpret(FRESH, rest, tail, end).0;
    if ws == [] {
      assert AllLines(ws) + rest == rest;
      assert EventsOf(ws) + evs == evs;
    } else {
      InterpretWrites(ws[1..], rest, tail, end);
      InterpretWrite(ws[0], AllLines(ws[1..]) + rest, tail, end);
      assert AllLines(ws) + rest == LinesOf(ws[0]) + (AllLines(ws[1..]) + rest);
      assert EventsOfOne(ws[0]) + (EventsOf(ws[1..]) + evs) == EventsOf(ws) + evs;
    }
  }

  /** A text of LF-terminated plain lines that does not start with a byte-order mark. */
  lemma ScanText(lines: seq<Bytes>, tail: Bytes, end: ScanError)
    requires PlainLines(lines) && Plain(tail) && IsEnd(end)
    requires if lines == [] then StripBom(tail) == tail else StripBom(lines[0]) == lines[0]
    ensures Scan(Text(lines, tail), end) == Interpret(FRESH, lines, tail, end)
  {
    TextIsEncode(lines, tail);
    ScanReadsLines(lines, LFs(|lines|), tail, end);
    assert lines != [] ==> [lines[0]] + lines[1..] == lines;
  }

  /** Scanning what the hub wrote gives back exactly the events it wrote, in order. */
  lemma FrameRoundTrip(ws: seq<Write>, end: ScanError)
    requires AllWritable(ws) && IsEnd(end)
    ensures Scan(Wire(ws), end) == (EventsOf(ws), end)
  {
    WireIsText(ws);
    AllLinesPlain(ws);
    ScanText(AllLines(ws), "", end);
    InterpretWrites(ws, [], "", end);
    assert AllLines(ws) + [] == AllLines(ws);
    assert EventsOf(ws) + [] == EventsOf(ws);
  }

  // ---- a connection cut anywhere ------------------------------------------------------

  /** Every prefix of a text is a text: some whole lines and the start of the next one. */
  lemma {:induction false} PrefixOfText(lines: seq<Bytes>, n: nat) returns (j: nat, tail: Bytes)
    requires n <= |Text(lines, "")|
    ensures j <= |lines| && (if j < |lines| then tail <= lines[j] else tail == "")
    ensures Text(lines, "")[..n] == Text(lines[..j], tail)
  {
    if lines == [] {
      j, tail := 0, "";
    } else if n <= |lines[0]| {
      j, tail := 0, lines[0][..n];
      assert lines[..0] == [];
    } else {
      var head := lines[0] + "\n";
      var rest := Text(lines[1..], "");
      j, tail := PrefixOfText(lines[1..], n - |head|);
      assert (head + rest)[..n] == head + rest[..n - |head|];
      assert lines[..j + 1] == [lines[0]] + lines[1..][..j];
      assert ([lines[0]] + lines[1..][..j])[1..] == lines[1..][..j];
      j := j + 1;
    }
  }

  /** An event cut short: same id and kind, and the data is a prefix of the event's own. */
  predicate CutShort(e: Event, of: Event) {
    e.id == of.id && e.kind == of.kind && e.retry == of.retry && e.data <= of.data
  }

  /** The events of a cut connection: a prefix of the events written, then at a clean end at
      most one more, the next event cut short. */
  ghost predicate CutOf(evs: seq<Event>, all: seq<Event>, end: ScanError) {
    || evs <= all
    || (end == EOF && 0 < |evs| <= |all| && evs[..|evs| - 1] <= all && CutShort(evs[|evs| - 1], all[|evs| - 1]))
  }

  lemma CutOfExtend(head: seq<Event>, evs: seq<Event>, all: seq<Event>, end: ScanError)
    requires CutOf(evs, all, end)
    ensures CutOf(head + evs, head + all, end)
  {
    if !(evs <= all) {
      assert (head + evs)[..|head + evs| - 1] == head + evs[..|evs| - 1];
    }
  }

  lemma NotData(acc: Acc, tail: Bytes)
    requires tail != [] && tail[0] != 'd' && acc.data == []
    ensures Content(acc, tail).Ok? && Content(acc, tail).value.data == []
  {
    var (field, _) := Cut(tail);
    assert field != [] ==> field[0] == tail[0];
    assert field != "data" by {
      assert "data"[0] == 'd';
    }
  }

  /** The data line cut anywhere. */
  lemma DataCut(acc: Acc, data: Bytes, tail: Bytes)
    requires acc.data == [] && acc.size == 0 && |data| + 6 <= MAX_EVENT_BYTES
    requires tail != [] && tail <= "data: " + data
    ensures Content(acc, tail).Ok?
    ensures var acc' := Content(acc, tail).value;
            acc'.ev == acc.ev && (acc'.data == [] || (|acc'.data| == 1 && acc'.data[0] <= data))
  {
    if |tail| <= 4 {
      assert tail == "data"[..|tail|];
      CutNoColon(tail);
      if |tail| < 4 {
        assert tail[0] == 'd';
        assert |tail| != |"data"| && |tail| != |"event"|;
        assert tail != "id" by {
          assert "id"[0] == 'i';
        }
      }
    } else if |tail| == 5 {
      assert tail == "data" + ":" + "";
      CutAt("data", "");
    } else {
      assert tail == "data: " + tail[6..];
      DataLine(acc, tail[6..]);
    }
  }

  lemma CutWithinFrame(w: Write, j: nat, tail: Bytes, end: ScanError)
    requires w.Frame? && Writable(w) && IsEnd(end)
    requires j < 4 && tail <= LinesOf(w)[j]
    ensures CutOf(Interpret(FRESH, LinesOf(w)[..j], tail, end).0, [EventOf(w)], end)
  {
    hide Content, Interpret;
    LinesPlain(w);
    var l0, l1, l2 := "id: " + Format(w.id), "event: " + Sanitise(w.kind), "data: " + w.data;
    assert LinesOf(w)[0] == l0 && LinesOf(w)[1] == l1 && LinesOf(w)[2] == l2 && LinesOf(w)[3] == "";
    var a1 := FRESH.(ev := FRESH.ev.(id := Format(w.id)));
    var a2 := a1.(ev := a1.ev.(kind := Sanitise(w.kind)));
    IdLine(FRESH, w.id);
    EventLine(a1, Sanitise(w.kind));
    DataLine(a2, w.data);
    if j == 0 {
      assert LinesOf(w)[..j] == [];
      NoDataTail(FRESH, tail, end);
    } else if j == 1 {
      assert LinesOf(w)[..j] == [l0] + [];
      InterpretLine(FRESH, l0, [], tail, end);
      NoDataTail(a1, tail, end);
    } else if j == 2 {
      assert LinesOf(w)[..j] == [l0] + ([l1] + []);
      InterpretLine(FRESH, l0, [l1] + [], tail, end);
      InterpretLine(a1, l1, [], tail, end);
      DataTail(a2, w.data, tail, end);
    } else {
      assert LinesOf(w)[..j] == [l0] + ([l1] + ([l2] + []));
      InterpretLine(FRESH, l0, [l1] + ([l2] + []), tail, end);
      InterpretLine(a1, l1, [l2] + [], tail, end);
      assert a2.data + [w.data] == [w.data];
      assert Content(a2, l2).value == Framed(w);
      InterpretLine(a2, l2, [], tail, end);
      FinishPlain(Framed(w), end);
      PendingFramed(w);
      assert tail == "";
    }
  }

  lemma FinishPlain(acc: Acc, end: ScanError)
    ensures Interpret(acc, [], "", end) == AtEnd(acc, end)
  {
  }

  lemma NoDataTail(acc: Acc, tail: Bytes, end: ScanError)
    requires acc.data == [] && |tail| <= MAX_EVENT_BYTES && (tail == [] || tail[0] != 'd')
    ensures Interpret(acc, [], tail, end).0 == []
  {
    if tail != [] {
      NotData(acc, tail);
    }
  }

  lemma DataTail(acc: Acc, data: Bytes, tail: Bytes, end: ScanError)
    requires acc.data == [] && acc.size == 0 && |data| + 6 <= MAX_EVENT_BYTES
    requires tail <= "data: " + data
    ensures CutOf(Interpret(acc, [], tail, end).0, [acc.ev.(data := data)], end)
  {
    hide Content;
    assert |tail| <= MAX_EVENT_BYTES;
    if tail != [] {
      DataCut(acc, data, tail);
    }
  }

  lemma {:induction false} CutLines(ws: seq<Write>, j: nat, tail: Bytes, end: ScanError)
    requires AllWritable(ws) && IsEnd(end)
    requires j <= |AllLines(ws)| && (if j < |AllLines(ws)| then tail <= AllLines(ws)[j] else tail == "")
    ensures CutOf(Interpret(FRESH, AllLines(ws)[..j], tail, end).0, EventsOf(ws), end)
    decreases |ws|
  {
    hide Interpret, LinesOf, CutOf;
    if ws == [] {
      FinishPlain(FRESH, end);
      assert CutOf([], [], end) by {
        NothingCut([], end);
      }
    } else {
      var w, rest := ws[0], AllLines(ws[1..]);
      var n := |LinesOf(w)|;
      if j >= n {
        assert AllLines(ws)[..j] == LinesOf(w) + rest[..j - n];
        CutLines(ws[1..], j - n, tail, end);
        InterpretWrite(w, rest[..j - n], tail, end);
        CutOfExtend(EventsOfOne(w), Interpret(FRESH, rest[..j - n], tail, end).0, EventsOf(ws[1..]), end);
      } else {
        assert AllLines(ws)[..j] == LinesOf(w)[..j];
        assert AllLines(ws)[j] == LinesOf(w)[j];
        CutWithin(w, j, tail, end);
        CutOfMore(Interpret(FRESH, LinesOf(w)[..j], tail, end).0, EventsOfOne(w), EventsOf(ws[1..]), end);
      }
    }
  }

  lemma NothingCut(all: seq<Event>, end: ScanError)
    ensures CutOf([], all, end)
  {
  }

  lemma CutOfMore(evs: seq<Event>, all: seq<Event>, more: seq<Event>, end: ScanError)
    requires CutOf(evs, all, end)
    ensures CutOf(evs, all + more, end)
  {
  }

  lemma CutWithin(w: Write, j: nat, tail: Bytes, end: ScanError)
    requires Writable(w) && IsEnd(end) && j < |LinesOf(w)| && tail <= LinesOf(w)[j]
    ensures CutOf(Interpret(FRESH, LinesOf(w)[..j], tail, end).0, EventsOfOne(w), end)
  {
    hide Interpret, CutOf;
    if w.Frame? {
      CutWithinFrame(w, j, tail, end);
    } else {
      CutWithinComment(j, tail, end);
      NothingCut([], end);
    }
  }

  lemma CutWithinComment(j: nat, tail: Bytes, end: ScanError)
    requires j < 2 && tail <= LinesOf(KeepAlive)[j]
    ensures Interpret(FRESH, LinesOf(KeepAlive)[..j], tail, end).0 == []
  {
    if j == 0 {
      assert LinesOf(KeepAlive)[..0] == [];
      NoDataTail(FRESH, tail, end);
    } else {
      assert LinesOf(KeepAlive)[..1] == [": keep-alive"] + [];
      Comment(FRESH);
      InterpretLine(FRESH, ": keep-alive", [], tail, end);
      NoDataTail(FRESH, tail, end);
    }
  }

  /** A connection cut after any byte delivers a prefix of the events written and, only at a
      clean end, at most one further event whose data is a prefix of the next event's. */
  lemma CutConnection(ws: seq<Write>, n: nat, end: ScanError)
    requires AllWritable(ws) && IsEnd(end) && n <= |Wire(ws)|
    ensures CutOf(Scan(Wire(ws)[..n], end).0, EventsOf(ws), end)
  {
    WireIsText(ws);
    AllLinesPlain(ws);
    var lines := AllLines(ws);
    var j, tail := PrefixOfText(lines, n);
    assert j < |lines| ==> Plain(tail) by {
      if j < |lines| {
        assert Plain(lines[j]);
      }
    }
    NoBom(lines, j, tail);
    ScanText(lines[..j], tail, end);
    CutLines(ws, j, tail, end);
  }

  lemma NoBom(lines: seq<Bytes>, j: nat, tail: Bytes)
    requires j <= |lines| && (if j < |lines| then tail <= lines[j] else tail == "")
    requires lines != [] ==> lines[0] != "" && lines[0][0] != BOM[0]
    ensures j > 0 ==> StripBom(lines[0]) == lines[0]
    ensures j == 0 ==> StripBom(tail) == tail
  {
    if lines != [] {
      assert |lines[0]| >= 3 ==> lines[0][..3][0] == lines[0][0];
    }
  }
}
