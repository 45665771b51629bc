/** The events of a stream in terms of how its fields are spelled: section 9.2.6 of the WHATWG
    HTML Living Standard, with the scanner's per-event id and retry and its size limit. */
module SseFields {
  import opened Prelude
  import opened Sse
  import opened SseLines
  import SseFrames

  // ---- spelling ---------------------------------------------------------------------------

  /** A line that is not blank. A field's value may be set off by one space. */
  datatype Spelled = Comment(text: Bytes) | Bare(name: Bytes) | Named(name: Bytes, spaced: bool, value: Bytes)

  predicate Name(name: Bytes) {
    name != "" && Plain(name) && ':' !in name
  }

  predicate WellSpelled(l: Spelled) {
    match l
    case Comment(text) => Plain(text)
    case Bare(name) => Name(name)
    case Named(name, spaced, value) => Name(name) && Plain(value) && (!spaced ==> value == "" || value[0] != ' ')
  }

  function Spell(l: Spelled): Bytes {
    match l
    case Comment(text) => ":" + text
    case Bare(name) => name
    case Named(name, spaced, value) => name + ":" + (if spaced then " " else "") + value
  }

  predicate Block(ls: seq<Spelled>) {
    forall i :: 0 <= i < |ls| ==> WellSpelled(ls[i]) && |Spell(ls[i])| <= 16777216
  }

  function Spells(ls: seq<Spelled>): seq<Bytes> {
    if ls == [] then [] else [Spell(ls[0])] + Spells(ls[1..])
  }

  /** Every plain line that is not blank is spelled one way. */
  lemma {:induction false} EveryLine(line: Bytes) returns (l: Spelled)
    requires Plain(line) && line != ""
    ensures WellSpelled(l) && Spell(l) == line
  {
    if line[0] == ':' {
      l := Comment(line[1..]);
      assert Plain(line[1..]);
    } else {
      var i := Colon(line);
      assert Plain(line[..i]);
      if i == |line| {
        l := Bare(line);
        assert line[..i] == line;
      } else if i + 1 < |line| && line[i + 1] == ' ' {
        l := Named(line[..i], true, line[i + 2..]);
        assert line == line[..i] + ":" + " " + line[i + 2..];
      } else {
        l := Named(line[..i], false, line[i + 1..]);
        assert line == line[..i] + ":" + "" + line[i + 1..];
      }
    }
  }

  lemma {:induction false} Colon(line: Bytes) returns (i: nat)
    ensures i <= |line| && ':' !in line[..i] && (i < |line| ==> line[i] == ':')
  {
    if line == [] || line[0] == ':' {
      i := 0;
    } else {
      var j := Colon(line[1..]);
      i := j + 1;
      assert line[..i] == [line[0]] + line[1..][..j];
    }
  }

  // ---- what a block says ------------------------------------------------------------------

  function ValueOf(l: Spelled): Bytes {
    if l.Named? then l.value else ""
  }

  /** The values a field is given, in order. */
  function Values(name: Bytes, ls: seq<Spelled>): seq<Bytes> {
    if ls == [] then []
    else (if !ls[0].Comment? && ls[0].name == name then [ValueOf(ls[0])] else []) + Values(name, ls[1..])
  }

  function WithoutNul(vs: seq<Bytes>): seq<Bytes> {
    if vs == [] then [] else (if '\0' in vs[0] then [] else [vs[0]]) + WithoutNul(vs[1..])
  }

  function LastOr(vs: seq<Bytes>, otherwise: Bytes): Bytes {
    if vs == [] then otherwise else vs[|vs| - 1]
  }

  /** Each line with its line feed. */
  function Lines(vs: seq<Bytes>): Bytes {
    if vs == [] then "" else vs[0] + "\n" + Lines(vs[1..])
  }

  /** The events of a list of blocks: one for each block with data. Its data is the data lines
      without the last line feed; an id or retry of a block without data goes to the next event. */
  function Said(blocks: seq<seq<Spelled>>, id: Bytes, retry: Bytes): seq<Event> {
    if blocks == [] then []
    else
      var ls := blocks[0];
      var data := Lines(Values("data", ls));
      var id' := LastOr(WithoutNul(Values("id", ls)), id);
      var retry' := LastOr(Values("retry", ls), retry);
      if data == "" then Said(blocks[1..], id', retry')
      else [Event(LastOr(Values("event", ls), ""), data[..|data| - 1], id', retry')] + Said(blocks[1..], "", "")
  }

  /** The scanner's accumulators after a block's lines. */
  function Told(acc: Acc, ls: seq<Spelled>): Acc {
    Acc(Event(LastOr(Values("event", ls), acc.ev.kind), acc.ev.data,
              LastOr(WithoutNul(Values("id", ls)), acc.ev.id), LastOr(Values("retry", ls), acc.ev.retry)),
        acc.data + Values("data", ls), acc.size + |Lines(Values("data", ls))|)
  }

  // ---- one line ---------------------------------------------------------------------------

  lemma SpellNotBlank(l: Spelled)
    requires WellSpelled(l)
    ensures Spell(l) != "" && Plain(Spell(l)) && (Spell(l)[0] == ':' <==> l.Comment?)
  {
    if l.Named? {
      assert Spell(l)[0] == l.name[0];
      SseFrames.PlainAppend(l.name, ":");
      SseFrames.PlainAppend(l.name + ":", if l.spaced then " " else "");
      SseFrames.PlainAppend(l.name + ":" + (if l.spaced then " " else ""), l.value);
    }
  }

  lemma CutSpelled(l: Spelled)
    requires WellSpelled(l) && !l.Comment?
    ensures Cut(Spell(l)).0 == l.name && TrimSpacePrefix(Cut(Spell(l)).1) == ValueOf(l)
  {
    if l.Bare? {
      CutNoColon(l.name);
    } else {
      var raw := (if l.spaced then " " else "") + l.value;
      assert Spell(l) == l.name + ":" + raw;
      SseFrames.CutAt(l.name, raw);
    }
  }

  lemma LineTold(acc: Acc, l: Spelled)
    requires WellSpelled(l) && acc.size + |Lines(Values("data", [l]))| <= 16777216
    ensures Content(acc, Spell(l)) == Ok(Told(acc, [l]))
  {
    hide Cut, TrimSpacePrefix, Spell, WellSpelled, Values, Lines, WithoutNul, Field, Told, ValueOf;
    SpellNotBlank(l);
    OneTold(acc, l);
    OneLine("data", l);
    if !l.Comment? {
      CutSpelled(l);
      OneValue(ValueOf(l));
      FieldSays(acc, Spell(l), l.name, ValueOf(l));
    }
  }

  /** One field line. */
  lemma FieldSays(acc: Acc, line: Bytes, name: Bytes, value: Bytes)
    requires Cut(line).0 == name && TrimSpacePrefix(Cut(line).1) == value
    requires name == "data" ==> acc.size + |value| + 1 <= 16777216
    ensures Field(acc, line) == Ok(AfterField(acc, name, value))
  {
    hide Cut, TrimSpacePrefix;
  }

  function AfterField(acc: Acc, name: Bytes, value: Bytes): Acc {
    if name == "event" then acc.(ev := acc.ev.(kind := value))
    else if name == "data" then acc.(data := acc.data + [value], size := acc.size + |value| + 1)
    else if name == "id" && '\0' !in value then acc.(ev := acc.ev.(id := value))
    else if name == "retry" then acc.(ev := acc.ev.(retry := value))
    else acc
  }

  lemma OneTold(acc: Acc, l: Spelled)
    ensures Told(acc, [l]) == if l.Comment? then acc else AfterField(acc, l.name, ValueOf(l))
  {
    OneLine("data", l);
    OneLine("event", l);
    OneLine("id", l);
    OneLine("retry", l);
    NoValue();
    OneValue(ValueOf(l));
    hide Values, Lines, WithoutNul, ValueOf;
    assert acc.data + [] == acc.data;
  }

  lemma NoValue()
    ensures Lines([]) == "" && WithoutNul([]) == []
  {
  }

  lemma OneValue(v: Bytes)
    ensures Lines([v]) == v + "\n" && WithoutNul([v]) == if '\0' in v then [] else [v]
  {
    assert [v][1..] == [];
  }

  lemma OneLine(name: Bytes, l: Spelled)
    ensures Values(name, [l]) == if !l.Comment? && l.name == name then [ValueOf(l)] else []
  {
    assert [l][1..] == [];
  }

  // ---- one block --------------------------------------------------------------------------

  lemma {:induction false} LinesJoin(a: seq<Bytes>, b: seq<Bytes>)
    ensures Lines(a + b) == Lines(a) + Lines(b)
  {
    if a == [] {
      assert a + b == b;
    } else {
      assert (a + b)[1..] == a[1..] + b;
      LinesJoin(a[1..], b);
    }
  }

  lemma {:induction false} NulFree(a: seq<Bytes>, b: seq<Bytes>)
    ensures WithoutNul(a + b) == WithoutNul(a) + WithoutNul(b)
  {
    if a == [] {
      assert a + b == b;
    } else {
      assert (a + b)[1..] == a[1..] + b;
      NulFree(a[1..], b);
    }
  }

  lemma LinesAppend(a: seq<Bytes>, b: seq<Bytes>)
    ensures Lines(a + b) == Lines(a) + Lines(b) && WithoutNul(a + b) == WithoutNul(a) + WithoutNul(b)
  {
    hide Lines, WithoutNul;
    LinesJoin(a, b);
    NulFree(a, b);
  }

  lemma ValuesCons(name: Bytes, l: Spelled, ls: seq<Spelled>)
    ensures Values(name, [l] + ls) == Values(name, [l]) + Values(name, ls)
  {
    assert ([l] + ls)[1..] == ls && [l][1..] == [];
  }

  lemma ToldCons(acc: Acc, l: Spelled, ls: seq<Spelled>)
    ensures Told(Told(acc, [l]), ls) == Told(acc, [l] + ls)
  {
    hide Values, Lines, WithoutNul;
    ValuesCons("data", l, ls);
    ValuesCons("event", l, ls);
    ValuesCons("id", l, ls);
    ValuesCons("retry", l, ls);
    LinesAppend(Values("data", [l]), Values("data", ls));
    LinesAppend(Values("id", [l]), Values("id", ls));
    assert acc.data + Values("data", [l]) + Values("data", ls) == acc.data + (Values("data", [l]) + Values("data", ls));
  }

  lemma {:induction false} BlockTold(acc: Acc, ls: seq<Spelled>, rest: seq<Bytes>, tail: Bytes, end: ScanError)
    requires Block(ls) && acc.size + |Lines(Values("data", ls))| <= 16777216
    ensures Interpret(acc, Spells(ls) + rest, tail, end) == Interpret(Told(acc, ls), rest, tail, end)
    decreases |ls|
  {
    hide Interpret, Content, Values, Lines, Told, Spell, WellSpelled;
    if ls == [] {
      assert Spells(ls) + rest == rest;
      NothingTold(acc);
    } else {
      var l, more := ls[0], ls[1..];
      assert ls == [l] + more;
      ValuesCons("data", l, more);
      LinesAppend(Values("data", [l]), Values("data", more));
      SpellNotBlank(l);
      LineTold(acc, l);
      assert Spells(ls) + rest == [Spell(l)] + (Spells(more) + rest);
      SseFrames.InterpretLine(acc, Spell(l), Spells(more) + rest, tail, end);
      ToldSize(acc, [l]);
      BlockTold(Told(acc, [l]), more, rest, tail, end);
      ToldCons(acc, l, more);
    }
  }

  lemma NothingTold(acc: Acc)
    ensures Told(acc, []) == acc
  {
    assert acc.data + [] == acc.data;
  }

  lemma ToldSize(acc: Acc, ls: seq<Spelled>)
    ensures Told(acc, ls).size == acc.size + |Lines(Values("data", ls))|
  {
  }

  // ---- the events -------------------------------------------------------------------------

  lemma {:induction false} JoinIs(vs: seq<Bytes>)
    requires vs != []
    ensures Join(vs) + "\n" == Lines(vs)
  {
    if |vs| == 1 {
      assert vs[1..] == [];
    } else {
      JoinIs(vs[1..]);
    }
  }

  /** Accumulators with no data yet and only an id and a retry. */
  function Carried(id: Bytes, retry: Bytes): Acc {
    Acc(Event("", "", id, retry), [], 0)
  }

  predicate SmallBlocks(blocks: seq<seq<Spelled>>) {
    forall i :: 0 <= i < |blocks| ==> Block(blocks[i]) && |Lines(Values("data", blocks[i]))| <= 16777216
  }

  /** Every block and its blank line. */
  function BlockLines(blocks: seq<seq<Spelled>>): seq<Bytes> {
    if blocks == [] then [] else Spells(blocks[0]) + [""] + BlockLines(blocks[1..])
  }

  lemma NoLines(vs: seq<Bytes>)
    ensures Lines(vs) == "" <==> vs == []
  {
  }

  lemma ToldPending(id: Bytes, retry: Bytes, ls: seq<Spelled>)
    ensures var acc, data := Told(Carried(id, retry), ls), Lines(Values("data", ls));
            var id', retry' := LastOr(WithoutNul(Values("id", ls)), id), LastOr(Values("retry", ls), retry);
            && (acc.data == [] <==> data == "")
            && (data == "" ==> Untyped(acc) == Carried(id', retry'))
            && (data != "" ==> Pending(acc) == Event(LastOr(Values("event", ls), ""), data[..|data| - 1], id', retry'))
  {
    hide Values, Lines, WithoutNul, Join;
    var vs := Values("data", ls);
    assert [] + vs == vs;
    NoLines(vs);
    if vs != [] {
      JoinIs(vs);
      assert (Join(vs) + "\n")[..|Join(vs)|] == Join(vs);
    } else {
      assert |Lines(vs)| == 0;
    }
  }

  lemma SaidCons(ls: seq<Spelled>, blocks: seq<seq<Spelled>>, id: Bytes, retry: Bytes)
    ensures var data := Lines(Values("data", ls));
            var id', retry' := LastOr(WithoutNul(Values("id", ls)), id), LastOr(Values("retry", ls), retry);
            Said([ls] + blocks, id, retry) ==
            if data == "" then Said(blocks, id', retry')
            else [Event(LastOr(Values("event", ls), ""), data[..|data| - 1], id', retry')] + Said(blocks, "", "")
  {
    assert ([ls] + blocks)[1..] == blocks;
  }

  lemma LastBlock(last: seq<Spelled>, id: Bytes, retry: Bytes, end: ScanError)
    requires Block(last) && |Lines(Values("data", last))| <= 16777216
    ensures Interpret(Carried(id, retry), Spells(last), "", end) == (if end == EOF then Said([last], id, retry) else [], end)
  {
    hide Interpret, Told, Pending, Values, Lines, WithoutNul;
    BlockTold(Carried(id, retry), last, [], "", end);
    assert Spells(last) + [] == Spells(last);
    SseFrames.FinishPlain(Told(Carried(id, retry), last), end);
    ToldPending(id, retry, last);
    SaidOne(last, id, retry);
  }

  lemma SaidOne(ls: seq<Spelled>, id: Bytes, retry: Bytes)
    ensures var data := Lines(Values("data", ls));
            var id', retry' := LastOr(WithoutNul(Values("id", ls)), id), LastOr(Values("retry", ls), retry);
            Said([ls], id, retry) ==
            if data == "" then [] else [Event(LastOr(Values("event", ls), ""), data[..|data| - 1], id', retry')]
  {
    assert [ls][1..] == [];
  }

  /** One block and its blank line. */
  lemma BlockSaid(ls: seq<Spelled>, rest: seq<Bytes>, id: Bytes, retry: Bytes, end: ScanError)
    requires Block(ls) && |Lines(Values("data", ls))| <= 16777216
    ensures var data := Lines(Values("data", ls));
            var id', retry' := LastOr(WithoutNul(Values("id", ls)), id), LastOr(Values("retry", ls), retry);
            var after := Interpret(Carried("", ""), rest, "", end);
            Interpret(Carried(id, retry), Spells(ls) + ([""] + rest), "", end) ==
            if data == "" then Interpret(Carried(id', retry'), rest, "", end)
            else ([Event(LastOr(Values("event", ls), ""), data[..|data| - 1], id', retry')] + after.0, after.1)
  {
    hide Interpret, Told, Pending, Values, Lines, WithoutNul, Untyped, Block;
    BlockTold(Carried(id, retry), ls, [""] + rest, "", end);
    SseFrames.InterpretBlank(Told(Carried(id, retry), ls), rest, "", end);
    ToldPending(id, retry, ls);
    assert FRESH == Carried("", "");
  }

  lemma LastSmall(last: seq<Spelled>)
    requires SmallBlocks([last])
    ensures Block(last) && |Lines(Values("data", last))| <= 16777216
  {
    assert [last][0] == last;
  }

  lemma {:induction false} BlocksSaid(blocks: seq<seq<Spelled>>, last: seq<Spelled>, id: Bytes, retry: Bytes, end: ScanError)
    requires SmallBlocks(blocks) && SmallBlocks([last])
    ensures Interpret(Carried(id, retry), BlockLines(blocks) + Spells(last), "", end) ==
            (Said(blocks + (if end == EOF then [last] else []), id, retry), end)
    decreases |blocks|
  {
    hide Interpret, Values, Lines, WithoutNul, Said, Block, LastOr, Spells, Carried;
    var more := if end == EOF then [last] else [];
    if blocks == [] {
      LastSmall(last);
      LastBlock(last, id, retry, end);
      assert BlockLines(blocks) + Spells(last) == Spells(last);
      assert blocks + more == more;
      NothingSaid(id, retry);
    } else {
      var ls, others := blocks[0], blocks[1..];
      var rest := BlockLines(others) + Spells(last);
      assert BlockLines(blocks) + Spells(last) == Spells(ls) + ([""] + rest);
      BlockSaid(ls, rest, id, retry, end);
      assert blocks + more == [ls] + (others + more);
      SaidCons(ls, others + more, id, retry);
      if Lines(Values("data", ls)) == "" {
        BlocksSaid(others, last, LastOr(WithoutNul(Values("id", ls)), id), LastOr(Values("retry", ls), retry), end);
      } else {
        BlocksSaid(others, last, "", "", end);
      }
    }
  }

  lemma NothingSaid(id: Bytes, retry: Bytes)
    ensures Said([], id, retry) == []
  {
  }

  lemma {:induction false} SpellsPlain(ls: seq<Spelled>)
    requires Block(ls)
    ensures PlainLines(Spells(ls))
  {
    if ls != [] {
      SpellNotBlank(ls[0]);
      SpellsPlain(ls[1..]);
    }
  }

  lemma {:induction false} BlockLinesPlain(blocks: seq<seq<Spelled>>)
    requires SmallBlocks(blocks)
    ensures PlainLines(BlockLines(blocks))
  {
    hide Block, Values, Lines, Plain;
    assert Plain("") by {
      EmptyPlain();
    }
    if blocks != [] {
      SpellsPlain(blocks[0]);
      BlockLinesPlain(blocks[1..]);
    }
  }

  lemma EmptyPlain()
    ensures Plain("")
  {
  }

  /** A byte-order mark is the start of the first line, or of the tail. */
  lemma MarkedScan(lines: seq<Bytes>, ts: seq<Terminator>, marked: bool, end: ScanError)
    requires |lines| == |ts| && PlainLines(lines) && NoMerge(lines, ts) && IsEnd(end)
    requires lines != [] && !marked ==> lines[0] == "" || lines[0][0] != BOM[0]
    ensures Scan((if marked then "\U{EF}\U{BB}\U{BF}" else "") + Encode(lines, ts, ""), end) == Interpret(FRESH, lines, "", end)
  {
    hide Scan, Interpret, MergesAt;
    if !marked {
      assert "" + Encode(lines, ts, "") == Encode(lines, ts, "");
      ScanReadsLines(lines, ts, "", end);
      Unmarked(lines);
    } else if lines == [] {
      assert BOM + "" == BOM;
      ScanReadsLines([], [], BOM, end);
    } else {
      var first := BOM + lines[0];
      var lines' := [first] + lines[1..];
      assert first[3..] == lines[0] && first[..3] == BOM;
      assert [lines[0]] + lines[1..] == lines;
      assert lines'[1..] == lines[1..];
      assert Encode(lines', ts, "") == BOM + Encode(lines, ts, "") by {
        assert Encode(lines', ts, "") == first + Mark(ts[0]) + Encode(lines[1..], ts[1..], "");
      }
      SseFrames.PlainAppend(BOM, lines[0]);
      MarkedNoMerge(lines, ts, first);
      ScanReadsLines(lines', ts, "", end);
    }
  }

  lemma Unmarked(lines: seq<Bytes>)
    requires lines != [] ==> lines[0] == "" || lines[0][0] != BOM[0]
    ensures WithoutBom(lines, "") == (lines, "")
  {
    if lines != [] {
      assert |lines[0]| >= 3 ==> lines[0][..3][0] == lines[0][0];
      assert [lines[0]] + lines[1..] == lines;
    }
  }

  lemma MarkedNoMerge(lines: seq<Bytes>, ts: seq<Terminator>, first: Bytes)
    requires |lines| == |ts| && lines != [] && NoMerge(lines, ts)
    ensures NoMerge([first] + lines[1..], ts)
  {
    forall i: nat | i < |lines|
      ensures !MergesAt([first] + lines[1..], ts, i)
    {
      assert !MergesAt(lines, ts, i);
    }
  }

  /** The whole stream, from bytes to events: any blocks, spelled in any way, with any
      terminators of which no two read as one, a last block with no blank line after it, and
      a byte-order mark or none. The last block counts only at a clean end. */
  lemma StreamSaid(blocks: seq<seq<Spelled>>, last: seq<Spelled>, ts: seq<Terminator>, marked: bool, end: ScanError)
    requires SmallBlocks(blocks) && SmallBlocks([last]) && IsEnd(end)
    requires var lines := BlockLines(blocks) + Spells(last);
             |lines| == |ts| && NoMerge(lines, ts) && (lines != [] && !marked ==> lines[0] == "" || lines[0][0] != BOM[0])
    ensures var text := Encode(BlockLines(blocks) + Spells(last), ts, "");
            Scan((if marked then "\U{EF}\U{BB}\U{BF}" else "") + text, end) ==
            (Said(blocks + (if end == EOF then [last] else []), "", ""), end)
  {
    hide Scan, Encode, Interpret, Said, SmallBlocks, NoMerge, Plain, MergesAt, Block, Values;
    var lines := BlockLines(blocks) + Spells(last);
    BlockLinesPlain(blocks);
    LastSmall(last);
    SpellsPlain(last);
    BlocksSaid(blocks, last, "", "", end);
    assert FRESH == Carried("", "");
    MarkedScan(lines, ts, marked, end);
  }

  // ---- streams that are refused -----------------------------------------------------------

  /** After some blocks, what follows is read from nothing but an id and a retry. */
  lemma {:induction false} BlocksThen(blocks: seq<seq<Spelled>>, rest: seq<Bytes>, id: Bytes, retry: Bytes, end: ScanError)
      returns (id': Bytes, retry': Bytes)
    requires SmallBlocks(blocks)
    ensures var after := Interpret(Carried(id', retry'), rest, "", end);
            Interpret(Carried(id, retry), BlockLines(blocks) + rest, "", end) == (Said(blocks, id, retry) + after.0, after.1)
    decreases |blocks|
  {
    hide Interpret, Values, Lines, WithoutNul, Said, Block, LastOr, Spells, Carried;
    if blocks == [] {
      id', retry' := id, retry;
      assert BlockLines(blocks) + rest == rest;
      NothingSaid(id, retry);
      assert [] + Interpret(Carried(id, retry), rest, "", end).0 == Interpret(Carried(id, retry), rest, "", end).0;
    } else {
      var ls, others := blocks[0], blocks[1..];
      assert BlockLines(blocks) + rest == Spells(ls) + ([""] + (BlockLines(others) + rest));
      BlockSaid(ls, BlockLines(others) + rest, id, retry, end);
      assert blocks == [ls] + others;
      SaidCons(ls, others, id, retry);
      if Lines(Values("data", ls)) == "" {
        id', retry' := BlocksThen(others, rest, LastOr(WithoutNul(Values("id", ls)), id), LastOr(Values("retry", ls), retry), end);
      } else {
        id', retry' := BlocksThen(others, rest, "", "", end);
        Regrouped(Event(LastOr(Values("event", ls), ""), Lines(Values("data", ls))[..|Lines(Values("data", ls))| - 1],
                        LastOr(WithoutNul(Values("id", ls)), id), LastOr(Values("retry", ls), retry)),
                  Said(others, "", ""), Interpret(Carried(id', retry'), rest, "", end).0);
      }
    }
  }

  lemma Regrouped(ev: Event, evs: seq<Event>, more: seq<Event>)
    ensures [ev] + (evs + more) == [ev] + evs + more
  {
  }

  /** A line over the cap. */
  lemma LongLine(acc: Acc, line: Bytes, rest: seq<Bytes>, end: ScanError)
    requires |line| > 16777216
    ensures Interpret(acc, [line] + rest, "", end) == ([], LineTooLong)
  {
  }

  /** A line that takes an event over the cap. */
  lemma LargeLine(acc: Acc, l: Spelled, rest: seq<Bytes>, end: ScanError)
    requires WellSpelled(l) && |Spell(l)| <= 16777216 && acc.size <= 16777216
    requires acc.size + |Lines(Values("data", [l]))| > 16777216
    ensures Interpret(acc, [Spell(l)] + rest, "", end) == ([], EventTooLarge)
  {
    SpellNotBlank(l);
    OneLine("data", l);
    assert ([Spell(l)] + rest)[1..] == rest;
    CutSpelled(l);
    hide Cut, TrimSpacePrefix, Spell, WellSpelled;
    assert Lines([ValueOf(l)]) == ValueOf(l) + "\n";
  }

  /** A stream is refused, after the events of the blocks before it, at the line that is longer
      than 16 MiB, or that takes its event's data, a line feed counted for every data line, over
      16 MiB; whatever follows. */
  lemma Refused(blocks: seq<seq<Spelled>>, pre: seq<Spelled>, line: Bytes, rest: seq<Bytes>, ts: seq<Terminator>, end: ScanError)
    requires SmallBlocks(blocks) && SmallBlocks([pre]) && Plain(line) && PlainLines(rest) && IsEnd(end)
    requires var lines := BlockLines(blocks) + (Spells(pre) + ([line] + rest));
             |lines| == |ts| && NoMerge(lines, ts) && (lines[0] == "" || lines[0][0] != BOM[0])
    ensures var scan := Scan(Encode(BlockLines(blocks) + (Spells(pre) + ([line] + rest)), ts, ""), end);
            && (|line| > 16777216 ==> scan == (Said(blocks, "", ""), LineTooLong))
            && forall l :: WellSpelled(l) && Spell(l) == line && |line| <= 16777216 && |Lines(Values("data", pre + [l]))| > 16777216 ==>
                 scan == (Said(blocks, "", ""), EventTooLarge)
  {
    hide Scan, Encode, Interpret, Said, SmallBlocks, NoMerge, Plain, MergesAt, Block, Values, Told, Lines, Spell, WellSpelled, StripBom;
    var lines := BlockLines(blocks) + (Spells(pre) + ([line] + rest));
    LastSmall(pre);
    RefusedPlain(blocks, pre, line, rest);
    PlainScan(lines, ts, end);
    assert FRESH == Carried("", "");
    var id, retry := BlocksThen(blocks, Spells(pre) + ([line] + rest), "", "", end);
    BlockTold(Carried(id, retry), pre, [line] + rest, "", end);
    var acc := Told(Carried(id, retry), pre);
    ToldSize(Carried(id, retry), pre);
    assert Said(blocks, "", "") + [] == Said(blocks, "", "");
    if |line| > 16777216 {
      LongLine(acc, line, rest, end);
    }
    forall l | WellSpelled(l) && Spell(l) == line && |line| <= 16777216 && |Lines(Values("data", pre + [l]))| > 16777216
      ensures Interpret(acc, [line] + rest, "", end) == ([], EventTooLarge)
    {
      ValuesAppend("data", pre, [l]);
      LinesAppend(Values("data", pre), Values("data", [l]));
      LargeLine(acc, l, rest, end);
    }
  }

  lemma PlainScan(lines: seq<Bytes>, ts: seq<Terminator>, end: ScanError)
    requires |lines| == |ts| && PlainLines(lines) && NoMerge(lines, ts) && IsEnd(end)
    requires lines != [] ==> lines[0] == "" || lines[0][0] != BOM[0]
    ensures Scan(Encode(lines, ts, ""), end) == Interpret(FRESH, lines, "", end)
  {
    hide Scan, Interpret, Encode, NoMerge, PlainLines;
    MarkedScan(lines, ts, false, end);
    assert "" + Encode(lines, ts, "") == Encode(lines, ts, "");
  }

  lemma RefusedPlain(blocks: seq<seq<Spelled>>, pre: seq<Spelled>, line: Bytes, rest: seq<Bytes>)
    requires SmallBlocks(blocks) && Block(pre) && Plain(line) && PlainLines(rest)
    ensures PlainLines(BlockLines(blocks) + (Spells(pre) + ([line] + rest)))
  {
    hide Plain, Block, SmallBlocks;
    BlockLinesPlain(blocks);
    SpellsPlain(pre);
  }

  lemma {:induction false} ValuesAppend(name: Bytes, a: seq<Spelled>, b: seq<Spelled>)
    ensures Values(name, a + b) == Values(name, a) + Values(name, b)
  {
    if a == [] {
      assert a + b == b;
    } else {
      assert (a + b)[1..] == a[1..] + b;
      ValuesAppend(name, a[1..], b);
    }
  }

  // ---- the hub's own frames ---------------------------------------------------------------

  /** The sanitiser goes character by character, drops both line ends and keeps what is plain. */
  lemma {:induction false} SanitiseIs(a: Bytes, b: Bytes)
    ensures SseFrames.Sanitise(a + b) == SseFrames.Sanitise(a) + SseFrames.Sanitise(b)
    ensures SseFrames.Sanitise("\r") == SseFrames.Sanitise("\n") == "" && (Plain(a) ==> SseFrames.Sanitise(a) == a)
    decreases |a|
  {
    assert "\r"[1..] == "" && "\n"[1..] == "";
    if a == [] {
      assert a + b == b;
    } else {
      assert (a + b)[1..] == a[1..] + b;
      SanitiseIs(a[1..], b);
    }
  }
}
