/** What the scanner computes, restated over a list of lines: the result depends on the lines
    alone, not on which terminator ends each of them. */
module SseLines {
  import opened Prelude
  import opened Sse

  datatype Terminator = LF | CRLF | CR

  function Mark(t: Terminator): Bytes {
    match t
    case LF => "\n"
    case CRLF => "\r\n"
    case CR => "\r"
  }

  predicate Plain(line: Bytes) {
    '\r' !in line && '\n' !in line
  }

  predicate PlainLines(lines: seq<Bytes>) {
    forall i :: 0 <= i < |lines| ==> Plain(lines[i])
  }

  /** The stream spelled out: every line with its terminator, then an unterminated tail. */
  function Encode(lines: seq<Bytes>, ts: seq<Terminator>, tail: Bytes): Bytes
    requires |lines| == |ts|
  {
    if lines == [] then tail else lines[0] + Mark(ts[0]) + Encode(lines[1..], ts[1..], tail)
  }

  /** A CR ends line i and the next line is empty and ends in LF: the two terminators read
      as one CRLF. */
  predicate MergesAt(lines: seq<Bytes>, ts: seq<Terminator>, i: nat)
    requires |lines| == |ts|
  {
    i + 1 < |lines| && ts[i] == CR && lines[i + 1] == "" && ts[i + 1] == LF
  }

  predicate NoMerge(lines: seq<Bytes>, ts: seq<Terminator>)
    requires |lines| == |ts|
  {
    forall i: nat :: i < |lines| ==> !MergesAt(lines, ts, i)
  }

  // ---- the scanner run to its end ---------------------------------------------------

  /** Every event Next returns until its first error, and that error. */
  function ScanFrom(acc: Acc, s: Bytes, end: ScanError): (seq<Event>, ScanError)
    requires IsEnd(end)
    decreases |s|, if acc.data == [] then 0 else 1
  {
    match NextFrom(acc, s, end)
    case Stop(e, _) => ([], e)
    case Got(ev, rest) =>
      ProgressOrDrained(acc, s, end);
      var (evs, e) := ScanFrom(FRESH, rest, end);
      ([ev] + evs, e)
  }

  function Scan(input: Bytes, end: ScanError): (seq<Event>, ScanError)
    requires IsEnd(end)
  {
    ScanFrom(FRESH, StripBom(input), end)
  }

  // ---- consumption ------------------------------------------------------------------

  lemma {:induction false} ReadLineLength(acc: Bytes, s: Bytes, end: ScanError)
    ensures var l := ReadLineFrom(acc, s, end);
            |l.text| + |l.rest| <= |acc| + |s| && (l.err.None? ==> l.text != [])
    decreases |s|
  {
    if s != [] && s[0] != '\n' && s[0] != '\r' && |acc| < MAX_EVENT_BYTES {
      ReadLineLength(acc + [s[0]], s[1..], end);
    }
  }

  lemma {:induction false} CutLength(line: Bytes)
    ensures |Cut(line).0| + |Cut(line).1| <= |line|
  {
    if line != [] && line[0] != ':' {
      CutLength(line[1..]);
    }
  }

  /** An event whose accumulators were empty took at least four bytes: the word "data". */
  lemma {:induction false} EventConsumes(acc: Acc, s: Bytes, end: ScanError)
    ensures var n := NextFrom(acc, s, end); n.Got? && acc.data == [] ==> |n.rest| + 4 <= |s|
    decreases |s|
  {
    var l := ReadLineFrom("", s, end);
    ReadLineLength("", s, end);
    var line := TrimRight(l.text);
    CutLength(line);
    if acc.data == [] && l.err.None? && line == [] {
      EventConsumes(Untyped(acc), l.rest, end);
    } else if acc.data == [] && l.err.None? && l.text != [] && Content(acc, line).Ok? {
      var acc' := Content(acc, line).value;
      EventConsumes(acc', l.rest, end);
    }
  }

  lemma ProgressOrDrained(acc: Acc, s: Bytes, end: ScanError)
    requires NextFrom(acc, s, end).Got?
    ensures |NextFrom(acc, s, end).rest| < |s| || acc.data != []
  {
    EventConsumes(acc, s, end);
  }

  /** Scanning terminates: a stream of n bytes yields at most n / 4 events. */
  lemma {:induction false} EventCount(s: Bytes, end: ScanError)
    requires IsEnd(end)
    ensures 4 * |ScanFrom(FRESH, s, end).0| <= |s|
    decreases |s|
  {
    EventConsumes(FRESH, s, end);
    match NextFrom(FRESH, s, end)
    case Stop(_, _) =>
    case Got(_, rest) => EventCount(rest, end);
  }

  // ---- the reference reading of a list of lines -------------------------------------

  /** Section 9.2.6 of the WHATWG HTML Living Standard over whole lines, with the scanner's
      own size limits, its dispatch at end of stream and its per-event fields. */
  function Interpret(acc: Acc, lines: seq<Bytes>, tail: Bytes, end: ScanError): (seq<Event>, ScanError)
    decreases |lines|
  {
    if lines == [] then Finish(acc, tail, end)
    else if |lines[0]| > MAX_EVENT_BYTES then ([], LineTooLong)
    else if lines[0] == "" then
      if acc.data == [] then Interpret(Untyped(acc), lines[1..], tail, end)
      else
        var (evs, e) := Interpret(FRESH, lines[1..], tail, end);
        ([Pending(acc)] + evs, e)
    else
      match Content(acc, lines[0])
      case Err(e) => ([], e)
      case Ok(acc') => Interpret(acc', lines[1..], tail, end)
  }

  /** The end of the stream: an unterminated line still counts, and a pending event is
      dispatched only at a clean end. */
  function Finish(acc: Acc, tail: Bytes, end: ScanError): (seq<Event>, ScanError) {
    if |tail| > MAX_EVENT_BYTES then ([], LineTooLong)
    else if tail == "" then AtEnd(acc, end)
    else
      match Content(acc, tail)
      case Err(e) => ([], e)
      case Ok(acc') => AtEnd(acc', end)
  }

  function AtEnd(acc: Acc, end: ScanError): (seq<Event>, ScanError) {
    (if end == EOF && acc.data != [] then [Pending(acc)] else [], end)
  }

  // ---- terminator invariance --------------------------------------------------------

  predicate NoLeadingLF(s: Bytes) {
    s == [] || s[0] != '\n'
  }

  /** readLine on a plain line, its terminator and anything after it. */
  lemma {:induction false} ReadTerminated(acc: Bytes, line: Bytes, t: Terminator, rest: Bytes, end: ScanError)
    requires Plain(line) && |acc| <= MAX_EVENT_BYTES
    requires t == CR ==> NoLeadingLF(rest)
    ensures var l := ReadLineFrom(acc, line + Mark(t) + rest, end);
            if |acc| + |line| <= MAX_EVENT_BYTES then l == Line(acc + line + "\n", None, rest)
            else l.text == "" && l.err == Some(LineTooLong)
    decreases |line|
  {
    var s := line + Mark(t) + rest;
    if line == [] {
      assert s == Mark(t) + rest;
      assert acc + line == acc;
      match t
      case LF => assert s[1..] == rest;
      case CR => assert s[1..] == rest;
      case CRLF => assert s[2..] == rest;
    } else {
      assert s[0] == line[0];
      assert s[1..] == line[1..] + Mark(t) + rest;
      if |acc| < MAX_EVENT_BYTES {
        ReadTerminated(acc + [line[0]], line[1..], t, rest, end);
        assert acc + [line[0]] + line[1..] == acc + line;
      }
    }
  }

  lemma {:induction false} ReadTail(acc: Bytes, tail: Bytes, end: ScanError)
    requires Plain(tail) && |acc| <= MAX_EVENT_BYTES
    ensures var l := ReadLineFrom(acc, tail, end);
            if |acc| + |tail| <= MAX_EVENT_BYTES then l == Line(acc + tail, Some(end), [])
            else l.text == "" && l.err == Some(LineTooLong)
    decreases |tail|
  {
    if tail == [] {
      assert acc + tail == acc;
    } else if |acc| < MAX_EVENT_BYTES {
      ReadTail(acc + [tail[0]], tail[1..], end);
      assert acc + [tail[0]] + tail[1..] == acc + tail;
    }
  }

  lemma TrimPlain(line: Bytes)
    requires Plain(line)
    ensures TrimRight(line) == line && TrimRight(line + "\n") == line
  {
    assert line != [] ==> line[|line| - 1] in line;
    assert (line + "\n")[..|line|] == line;
  }

  lemma EncodeLeads(lines: seq<Bytes>, ts: seq<Terminator>, tail: Bytes)
    requires |lines| == |ts| && PlainLines(lines) && Plain(tail)
    requires lines != [] && lines[0] == "" ==> ts[0] != LF
    ensures NoLeadingLF(Encode(lines, ts, tail))
  {
    if lines == [] {
      assert tail != [] ==> tail[0] in tail;
    } else {
      var s := Encode(lines, ts, tail);
      assert lines[0] != [] ==> s[0] == lines[0][0] && lines[0][0] in lines[0];
    }
  }

  lemma NextTail(acc: Acc, tail: Bytes, end: ScanError)
    requires Plain(tail) && IsEnd(end)
    ensures NextFrom(acc, tail, end) ==
            if |tail| > MAX_EVENT_BYTES then Stop(LineTooLong, NextFrom(acc, tail, end).rest)
            else if tail != [] && Content(acc, tail).Err? then Stop(Content(acc, tail).error, [])
            else
              var acc' := if tail == [] then acc else Content(acc, tail).value;
              if end == EOF && acc'.data != [] then Got(Pending(acc'), []) else Stop(end, [])
  {
    hide Content, Join, TrimRight;
    ReadTail("", tail, end);
    TrimPlain(tail);
    assert "" + tail == tail;
    if |tail| > MAX_EVENT_BYTES {
      TrimPlain("");
      assert NextFrom(acc, tail, end) == Stop(LineTooLong, ReadLineFrom("", tail, end).rest);
    }
  }

  /** The unterminated tail: its line is read together with the end of the stream, and every
      further call reports the end again. */
  lemma ScanTail(acc: Acc, tail: Bytes, end: ScanError)
    requires Plain(tail) && IsEnd(end)
    ensures ScanFrom(acc, tail, end) == Finish(acc, tail, end)
  {
    hide NextFrom, Content, Join;
    NextTail(acc, tail, end);
    NextTail(FRESH, [], end);
    assert forall ev: Event :: [ev] + [] == [ev];
  }

  /** One turn of the loop of Next across a terminated line: only the line matters. */
  lemma NextLine(acc: Acc, line: Bytes, t: Terminator, rest: Bytes, end: ScanError)
    requires Plain(line) && |line| <= MAX_EVENT_BYTES
    requires t == CR ==> NoLeadingLF(rest)
    ensures NextFrom(acc, line + Mark(t) + rest, end) ==
            if line == "" && acc.data != [] then Got(Pending(acc), rest)
            else if line == "" then NextFrom(Untyped(acc), rest, end)
            else if Content(acc, line).Err? then Stop(Content(acc, line).error, rest)
            else NextFrom(Content(acc, line).value, rest, end)
  {
    hide Content, Join;
    ReadTerminated("", line, t, rest, end);
    TrimPlain(line);
    assert "" + line + "\n" == line + "\n";
  }

  /** The scan across one terminated line. */
  lemma ScanLine(acc: Acc, line: Bytes, t: Terminator, rest: Bytes, end: ScanError)
    requires Plain(line) && IsEnd(end)
    requires t == CR ==> NoLeadingLF(rest)
    ensures ScanFrom(acc, line + Mark(t) + rest, end) ==
            if |line| > MAX_EVENT_BYTES then ([], LineTooLong)
            else if line == "" && acc.data != [] then
              ([Pending(acc)] + ScanFrom(FRESH, rest, end).0, ScanFrom(FRESH, rest, end).1)
            else if line == "" then ScanFrom(Untyped(acc), rest, end)
            else if Content(acc, line).Err? then ([], Content(acc, line).error)
            else ScanFrom(Content(acc, line).value, rest, end)
  {
    hide NextFrom, Content, Join;
    if |line| > MAX_EVENT_BYTES {
      TooLong(acc, line, t, rest, end);
    } else {
      NextLine(acc, line, t, rest, end);
    }
  }

  lemma TooLong(acc: Acc, line: Bytes, t: Terminator, rest: Bytes, end: ScanError)
    requires Plain(line) && |line| > MAX_EVENT_BYTES
    requires t == CR ==> NoLeadingLF(rest)
    ensures var n := NextFrom(acc, line + Mark(t) + rest, end); n.Stop? && n.err == LineTooLong
  {
    hide Content, Join;
    ReadTerminated("", line, t, rest, end);
  }

  /** One scan over an encoded list of lines is the reference reading of the lines. */
  lemma {:induction false} ScanEncoded(acc: Acc, lines: seq<Bytes>, ts: seq<Terminator>, tail: Bytes, end: ScanError)
    requires |lines| == |ts| && PlainLines(lines) && Plain(tail) && IsEnd(end)
    requires NoMerge(lines, ts)
    ensures ScanFrom(acc, Encode(lines, ts, tail), end) == Interpret(acc, lines, tail, end)
    decreases |lines|
  {
    if lines == [] {
      ScanTail(acc, tail, end);
    } else {
      if ts[0] == CR {
        assert !MergesAt(lines, ts, 0);
        EncodeLeads(lines[1..], ts[1..], tail);
      }
      forall i: nat | i < |lines| - 1
        ensures !MergesAt(lines[1..], ts[1..], i)
      {
        assert !MergesAt(lines, ts, i + 1);
      }
      ScanLine(acc, lines[0], ts[0], Encode(lines[1..], ts[1..], tail), end);
      if |lines[0]| <= MAX_EVENT_BYTES {
        if lines[0] == "" {
          ScanEncoded(if acc.data == [] then Untyped(acc) else FRESH, lines[1..], ts[1..], tail, end);
        } else if Content(acc, lines[0]).Ok? {
          ScanEncoded(Content(acc, lines[0]).value, lines[1..], ts[1..], tail, end);
        }
      }
    }
  }

  /** A byte-order mark contains no terminator, so it lies inside the first line or the tail. */
  lemma {:induction false} BomInFirstLine(lines: seq<Bytes>, ts: seq<Terminator>, tail: Bytes)
    requires |lines| == |ts| && PlainLines(lines) && Plain(tail)
    ensures StripBom(Encode(lines, ts, tail)) ==
            if lines == [] then Encode(lines, ts, StripBom(tail))
            else Encode([StripBom(lines[0])] + lines[1..], ts, tail)
  {
    if lines != [] {
      var s := Encode(lines, ts, tail);
      var first := lines[0];
      var rest := Mark(ts[0]) + Encode(lines[1..], ts[1..], tail);
      assert s == first + rest;
      if |first| >= 3 {
        assert s[..3] == first[..3];
        assert s[3..] == first[3..] + rest;
      } else {
        assert s[|first|] == rest[0] == Mark(ts[0])[0];
        assert |s| >= 3 ==> s[..3][|first|] == s[|first|];
        assert StripBom(s) == s;
      }
      var lines' := [StripBom(first)] + lines[1..];
      assert lines'[1..] == lines[1..];
      assert Encode(lines', ts, tail) == StripBom(first) + rest;
    }
  }

  /** Lines with the byte-order mark of the stream removed. */
  function WithoutBom(lines: seq<Bytes>, tail: Bytes): (seq<Bytes>, Bytes) {
    if lines == [] then (lines, StripBom(tail)) else ([StripBom(lines[0])] + lines[1..], tail)
  }

  lemma WithoutBomPlain(lines: seq<Bytes>, ts: seq<Terminator>, tail: Bytes)
    requires |lines| == |ts| && PlainLines(lines) && Plain(tail) && NoMerge(lines, ts)
    ensures var (lines', tail') := WithoutBom(lines, tail);
            |lines'| == |ts| && PlainLines(lines') && Plain(tail') && NoMerge(lines', ts)
  {
    var (lines', tail') := WithoutBom(lines, tail);
    forall i: nat | i < |lines'|
      ensures !MergesAt(lines', ts, i)
    {
      assert !MergesAt(lines, ts, i);
    }
  }

  /** The scanner's events and final error on an encoded stream, in terms of its lines only. */
  lemma ScanReadsLines(lines: seq<Bytes>, ts: seq<Terminator>, tail: Bytes, end: ScanError)
    requires |lines| == |ts| && PlainLines(lines) && Plain(tail) && IsEnd(end)
    requires NoMerge(lines, ts)
    ensures Scan(Encode(lines, ts, tail), end) ==
            Interpret(FRESH, WithoutBom(lines, tail).0, WithoutBom(lines, tail).1, end)
  {
    hide Interpret, Encode, ScanFrom, StripBom, PlainLines, Plain, NoMerge;
    BomInFirstLine(lines, ts, tail);
    WithoutBomPlain(lines, ts, tail);
    ScanEncoded(FRESH, WithoutBom(lines, tail).0, ts, WithoutBom(lines, tail).1, end);
  }

  // ---- every choice of terminators ----------------------------------------------------------

  /** The lines that survive: an empty LF-terminated line after a CR is taken as the second half
      of a CRLF. */
  function Kept(lines: seq<Bytes>, ts: seq<Terminator>): (k: (seq<Bytes>, seq<Terminator>))
    requires |lines| == |ts|
    ensures |k.0| == |k.1| <= |lines|
    decreases |lines|
  {
    if lines == [] then ([], [])
    else if MergesAt(lines, ts, 0) then
      var (ls, us) := Kept(lines[2..], ts[2..]);
      ([lines[0]] + ls, [CRLF] + us)
    else
      var (ls, us) := Kept(lines[1..], ts[1..]);
      ([lines[0]] + ls, [ts[0]] + us)
  }

  lemma EncodeCons(line: Bytes, t: Terminator, lines: seq<Bytes>, ts: seq<Terminator>, tail: Bytes)
    requires |lines| == |ts|
    ensures Encode([line] + lines, [t] + ts, tail) == line + Mark(t) + Encode(lines, ts, tail)
  {
    assert ([line] + lines)[1..] == lines && ([t] + ts)[1..] == ts;
  }

  /** A CR and the LF of an empty line spell a CRLF. */
  lemma MergedBytes(lines: seq<Bytes>, ts: seq<Terminator>, tail: Bytes)
    requires |lines| == |ts| && MergesAt(lines, ts, 0)
    ensures Encode(lines, ts, tail) == lines[0] + Mark(CRLF) + Encode(lines[2..], ts[2..], tail)
  {
    var rest := Encode(lines[2..], ts[2..], tail);
    assert lines[1..][1..] == lines[2..] && ts[1..][1..] == ts[2..];
    assert Encode(lines[1..], ts[1..], tail) == "" + "\n" + rest;
    assert "\r" + "\n" == Mark(CRLF);
  }

  /** The same bytes, as the lines that survive. */
  lemma {:induction false} KeptEncodes(lines: seq<Bytes>, ts: seq<Terminator>, tail: Bytes)
    requires |lines| == |ts|
    ensures Encode(Kept(lines, ts).0, Kept(lines, ts).1, tail) == Encode(lines, ts, tail)
    decreases |lines|
  {
    if lines != [] {
      if MergesAt(lines, ts, 0) {
        MergedBytes(lines, ts, tail);
        hide Encode;
        KeptEncodes(lines[2..], ts[2..], tail);
        EncodeCons(lines[0], CRLF, Kept(lines[2..], ts[2..]).0, Kept(lines[2..], ts[2..]).1, tail);
      } else {
        KeptEncodes(lines[1..], ts[1..], tail);
        EncodeCons(lines[0], ts[0], Kept(lines[1..], ts[1..]).0, Kept(lines[1..], ts[1..]).1, tail);
      }
    }
  }

  /** The survivors are plain, merge with nothing, and start with the first line; its terminator
      is an LF only if it was one. */
  lemma {:induction false} KeptPlain(lines: seq<Bytes>, ts: seq<Terminator>)
    requires |lines| == |ts| && PlainLines(lines)
    ensures var (ls, us) := Kept(lines, ts);
            && PlainLines(ls) && NoMerge(ls, us)
            && (lines != [] ==> ls != [] && ls[0] == lines[0] && (us[0] == LF ==> ts[0] == LF))
    decreases |lines|
  {
    hide Plain;
    if lines != [] {
      var (ls, us) := Kept(lines, ts);
      var n := if MergesAt(lines, ts, 0) then 2 else 1;
      KeptPlain(lines[n..], ts[n..]);
      var (ls', us') := Kept(lines[n..], ts[n..]);
      assert ls == [lines[0]] + ls';
      forall i: nat | i < |ls|
        ensures !MergesAt(ls, us, i)
      {
        if i > 0 {
          assert !MergesAt(ls', us', i - 1);
        }
      }
    }
  }

  /** Nothing is dropped exactly when no CR runs into an empty LF-terminated line. */
  lemma {:induction false} KeptAll(lines: seq<Bytes>, ts: seq<Terminator>)
    requires |lines| == |ts|
    ensures Kept(lines, ts).0 == lines <==> NoMerge(lines, ts)
    ensures |Kept(lines, ts).0| == |lines| <==> NoMerge(lines, ts)
    decreases |lines|
  {
    if lines != [] && !MergesAt(lines, ts, 0) {
      KeptAll(lines[1..], ts[1..]);
      assert lines == [lines[0]] + lines[1..];
      NoMergeCons(lines, ts);
    }
  }

  lemma NoMergeCons(lines: seq<Bytes>, ts: seq<Terminator>)
    requires |lines| == |ts| && lines != [] && !MergesAt(lines, ts, 0)
    ensures NoMerge(lines, ts) <==> NoMerge(lines[1..], ts[1..])
  {
    if NoMerge(lines, ts) {
      forall i: nat | i < |lines| - 1
        ensures !MergesAt(lines[1..], ts[1..], i)
      {
        assert !MergesAt(lines, ts, i + 1);
      }
    }
    if NoMerge(lines[1..], ts[1..]) {
      forall i: nat | i < |lines|
        ensures !MergesAt(lines, ts, i)
      {
        if i > 0 {
          assert !MergesAt(lines[1..], ts[1..], i - 1);
        }
      }
    }
  }

  /** For every list of lines and every choice of terminators: the events and the final error
      are those of the reference reading of the lines that survive. */
  lemma ScanReadsKept(lines: seq<Bytes>, ts: seq<Terminator>, tail: Bytes, end: ScanError)
    requires |lines| == |ts| && PlainLines(lines) && Plain(tail) && IsEnd(end)
    ensures var kept := Kept(lines, ts).0;
            Scan(Encode(lines, ts, tail), end) == Interpret(FRESH, WithoutBom(kept, tail).0, WithoutBom(kept, tail).1, end)
  {
    hide Scan, Encode, Interpret, PlainLines, NoMerge, MergesAt, Kept, WithoutBom;
    KeptPlain(lines, ts);
    KeptEncodes(lines, ts, tail);
    ScanReadsLines(Kept(lines, ts).0, Kept(lines, ts).1, tail, end);
  }

  /** Two choices of terminators that drop the same empty lines give one result. */
  lemma KeptDecides(lines: seq<Bytes>, ts: seq<Terminator>, us: seq<Terminator>, tail: Bytes, end: ScanError)
    requires |lines| == |ts| == |us| && PlainLines(lines) && Plain(tail) && IsEnd(end)
    requires Kept(lines, ts).0 == Kept(lines, us).0
    ensures Scan(Encode(lines, ts, tail), end) == Scan(Encode(lines, us, tail), end)
  {
    hide Scan, Encode, Interpret, WithoutBom, Kept;
    ScanReadsKept(lines, ts, tail, end);
    ScanReadsKept(lines, us, tail, end);
  }

  /** Terminator invariance: any two choices of terminators that drop no line give one result. */
  lemma TerminatorInvariance(lines: seq<Bytes>, ts: seq<Terminator>, us: seq<Terminator>, tail: Bytes, end: ScanError)
    requires |lines| == |ts| == |us| && PlainLines(lines) && Plain(tail) && IsEnd(end)
    requires NoMerge(lines, ts) && NoMerge(lines, us)
    ensures Scan(Encode(lines, ts, tail), end) == Scan(Encode(lines, us, tail), end)
  {
    hide Scan, Encode, Kept, NoMerge;
    KeptAll(lines, ts);
    KeptAll(lines, us);
    KeptDecides(lines, ts, us, tail, end);
  }

  // ---- the lines readLine returns -----------------------------------------------------------

  /** Calling readLine until its first error: the terminated lines, the unterminated tail, the
      error. */
  function LinesRead(s: Bytes, end: ScanError): (seq<Bytes>, Bytes, ScanError)
    decreases |s|
  {
    var l := ReadLineFrom("", s, end);
    if l.err.Some? then ([], l.text, l.err.value)
    else
      ReadLineLength("", s, end);
      var (ls, tail, e) := LinesRead(l.rest, end);
      ([TrimRight(l.text)] + ls, tail, e)
  }

  predicate Fits(lines: seq<Bytes>, tail: Bytes) {
    (forall i :: 0 <= i < |lines| ==> |lines[i]| <= MAX_EVENT_BYTES) && |tail| <= MAX_EVENT_BYTES
  }

  lemma {:induction false} PlainLinesRead(lines: seq<Bytes>, ts: seq<Terminator>, tail: Bytes, end: ScanError)
    requires |lines| == |ts| && PlainLines(lines) && Plain(tail) && IsEnd(end) && NoMerge(lines, ts)
    ensures var r := LinesRead(Encode(lines, ts, tail), end);
            if Fits(lines, tail) then r == (lines, tail, end) else r.2 == LineTooLong
    decreases |lines|
  {
    if lines == [] {
      TailRead(tail, end);
    } else {
      hide LinesRead, Fits, NoMerge;
      var rest := Encode(lines[1..], ts[1..], tail);
      NoMergeAt(lines, ts, 0);
      if ts[0] == CR {
        EncodeLeads(lines[1..], ts[1..], tail);
      }
      NoMergeCons(lines, ts);
      assert Encode(lines, ts, tail) == lines[0] + Mark(ts[0]) + rest;
      assert PlainLines(lines[1..]) && Plain(lines[0]);
      hide Encode, Mark, Plain, PlainLines, MergesAt;
      PlainLinesRead(lines[1..], ts[1..], tail, end);
      OneRead(lines[0], ts[0], rest, end);
      FitsCons(lines, tail);
      HeadTail(lines);
    }
  }

  lemma HeadTail(lines: seq<Bytes>)
    requires lines != []
    ensures lines == [lines[0]] + lines[1..]
  {
  }

  lemma NoMergeAt(lines: seq<Bytes>, ts: seq<Terminator>, i: nat)
    requires |lines| == |ts| && NoMerge(lines, ts) && i < |lines|
    ensures !MergesAt(lines, ts, i)
  {
  }

  lemma TailRead(tail: Bytes, end: ScanError)
    requires Plain(tail)
    ensures var r := LinesRead(tail, end);
            if Fits([], tail) then r == ([], tail, end) else r.2 == LineTooLong
  {
    ReadTail("", tail, end);
    assert "" + tail == tail;
  }

  lemma FitsCons(lines: seq<Bytes>, tail: Bytes)
    requires lines != []
    ensures Fits(lines, tail) <==> |lines[0]| <= MAX_EVENT_BYTES && Fits(lines[1..], tail)
  {
    assert lines == [lines[0]] + lines[1..];
  }

  lemma OneRead(line: Bytes, t: Terminator, rest: Bytes, end: ScanError)
    requires Plain(line) && (t == CR ==> NoLeadingLF(rest))
    ensures var s := line + Mark(t) + rest;
            if |line| > MAX_EVENT_BYTES then LinesRead(s, end).2 == LineTooLong
            else LinesRead(s, end) == ([line] + LinesRead(rest, end).0, LinesRead(rest, end).1, LinesRead(rest, end).2)
  {
    ReadTerminated("", line, t, rest, end);
    TrimPlain(line);
    assert "" + line + "\n" == line + "\n";
  }

  lemma {:induction false} KeptFits(lines: seq<Bytes>, ts: seq<Terminator>, tail: Bytes)
    requires |lines| == |ts|
    ensures Fits(Kept(lines, ts).0, tail) <==> Fits(lines, tail)
    decreases |lines|
  {
    if lines != [] {
      var n := if MergesAt(lines, ts, 0) then 2 else 1;
      KeptFits(lines[n..], ts[n..], tail);
      var kept := Kept(lines, ts).0;
      assert kept == [lines[0]] + Kept(lines[n..], ts[n..]).0;
      assert kept[1..] == Kept(lines[n..], ts[n..]).0;
      hide Fits, Kept;
      FitsCons(kept, tail);
      FitsCons(lines, tail);
      if n == 2 {
        FitsCons(lines[1..], tail);
        assert lines[1..][1..] == lines[2..];
      }
    }
  }

  /** readLine gives the lines back exactly when none is too long and no CR runs into an empty
      LF-terminated line. */
  lemma LinesRecoveredIff(lines: seq<Bytes>, ts: seq<Terminator>, tail: Bytes, end: ScanError)
    requires |lines| == |ts| && PlainLines(lines) && Plain(tail) && IsEnd(end)
    ensures LinesRead(Encode(lines, ts, tail), end) == (lines, tail, end) <==> NoMerge(lines, ts) && Fits(lines, tail)
  {
    hide LinesRead, Encode, Kept, NoMerge, Fits, PlainLines;
    KeptPlain(lines, ts);
    KeptEncodes(lines, ts, tail);
    PlainLinesRead(Kept(lines, ts).0, Kept(lines, ts).1, tail, end);
    KeptFits(lines, ts, tail);
    KeptAll(lines, ts);
  }

  /** Dropping a line can change the events: two frames collapse into one. */
  lemma MergeChangesEvents()
    ensures |Scan(Encode(["data", ""], [LF, LF], "data"), EOF).0| == 2
    ensures |Scan(Encode(["data", ""], [CR, LF], "data"), EOF).0| == 1
  {
    hide Scan, Encode, Interpret;
    MergedEncoding();
    TwoFrames();
    ScanReadsLines(["data", ""], [LF, LF], "data", EOF);
    ScanReadsLines(["data"], [CRLF], "data", EOF);
  }

  lemma TwoFrames()
    ensures WithoutBom(["data"], "data") == (["data"], "data")
    ensures WithoutBom(["data", ""], "data") == (["data", ""], "data")
    ensures |Interpret(FRESH, ["data", ""], "data", EOF).0| == 2
    ensures |Interpret(FRESH, ["data"], "data", EOF).0| == 1
  {
    assert "data"[..3][0] != BOM[0];
    assert StripBom("data") == "data";
    assert ["data"] + [""] == ["data", ""] && ["data"] + [] == ["data"];
    OneDataLine(FRESH);
    hide Field, Cut;
    var got := Content(FRESH, "data").value;
    OneDataLine(got);
    assert ["data", ""][1..] == [""] && ["data"][1..] == [] && [""][1..] == [];
    assert Interpret(FRESH, ["data"], "data", EOF) == Interpret(got, [], "data", EOF);
    assert Interpret(FRESH, ["data", ""], "data", EOF) == Interpret(got, [""], "data", EOF);
    assert Interpret(got, [""], "data", EOF).0 == [Pending(got)] + Interpret(FRESH, [], "data", EOF).0;
  }

  lemma MergedEncoding()
    ensures Encode(["data", ""], [CR, LF], "data") == Encode(["data"], [CRLF], "data")
  {
    assert ["data", ""][1..] == [""] && [CR, LF][1..] == [LF];
    assert [""][1..] == [] && [LF][1..] == [];
    assert ["data"][1..] == [] && [CRLF][1..] == [];
    assert Encode([], [], "data") == "data";
    assert Encode([""], [LF], "data") == "\ndata";
    assert Encode(["data"], [CRLF], "data") == "data\r\ndata";
  }

  /** The bare field name "data" adds one empty data line. */
  lemma OneDataLine(acc: Acc)
    requires acc.size < 100
    ensures Content(acc, "data") == Ok(Acc(acc.ev, acc.data + [""], acc.size + 1))
  {
    CutNoColon("data");
  }

  lemma {:induction false} CutNoColon(line: Bytes)
    requires ':' !in line
    ensures Cut(line) == (line, "")
  {
    if line != [] {
      CutNoColon(line[1..]);
      assert [line[0]] + line[1..] == line;
    }
  }
}
