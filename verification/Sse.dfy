/** internal/sse/sse.go: the incremental Server-Sent Events scanner, its methods proved
    against functions on the unread bytes, and the facts the functions satisfy. */
module Sse {
  import opened Prelude

  const MAX_EVENT_BYTES: nat := 16777216

  /** The stream's own terminal condition, or one of the scanner's two size errors. */
  datatype ScanError = EOF | Broken | LineTooLong | EventTooLarge

  datatype Event = Event(kind: Bytes, data: Bytes, id: Bytes, retry: Bytes)

  const NO_EVENT := Event("", "", "", "")
  const BOM: Bytes := "\U{EF}\U{BB}\U{BF}"

  predicate IsEnd(e: ScanError) {
    e == EOF || e == Broken
  }

  // ---- one line -------------------------------------------------------------------

  /** What readLine returns, and the bytes it leaves unread. */
  datatype Line = Line(text: Bytes, err: Option<ScanError>, rest: Bytes)

  /** readLine, having already collected `acc` of the current line. */
  function ReadLineFrom(acc: Bytes, s: Bytes, end: ScanError): (l: Line)
    ensures |l.rest| <= |s|
    ensures l.err.None? ==> |l.rest| < |s|
    decreases |s|
  {
    if s == [] then Line(acc, Some(end), [])
    else if s[0] == '\n' then Line(acc + "\n", None, s[1..])
    else if s[0] == '\r' then Line(acc + "\n", None, if |s| > 1 && s[1] == '\n' then s[2..] else s[1..])
    else if |acc| >= MAX_EVENT_BYTES then Line("", Some(LineTooLong), s[1..])
    else ReadLineFrom(acc + [s[0]], s[1..], end)
  }

  function StripBom(s: Bytes): Bytes {
    if |s| >= 3 && s[..3] == BOM then s[3..] else s
  }

  // ---- one field ------------------------------------------------------------------

  /** The accumulators of Next: the event under construction, its data lines, its size. */
  datatype Acc = Acc(ev: Event, data: seq<Bytes>, size: nat)

  const FRESH := Acc(NO_EVENT, [], 0)

  function TrimRight(s: Bytes): (r: Bytes)
    ensures r <= s
  {
    if s != [] && (s[|s| - 1] == '\r' || s[|s| - 1] == '\n') then TrimRight(s[..|s| - 1]) else s
  }

  /** strings.Cut(line, ":"). */
  function Cut(line: Bytes): (Bytes, Bytes) {
    if line == [] then ([], [])
    else if line[0] == ':' then ([], line[1..])
    else
      var (field, value) := Cut(line[1..]);
      ([line[0]] + field, value)
  }

  function TrimSpacePrefix(v: Bytes): Bytes {
    if v != [] && v[0] == ' ' then v[1..] else v
  }

  function Join(data: seq<Bytes>): Bytes
    requires data != []
  {
    if |data| == 1 then data[0] else data[0] + "\n" + Join(data[1..])
  }

  /** Applies one non-empty line that is not a comment. */
  function Field(acc: Acc, line: Bytes): Result<Acc, ScanError> {
    var (field, raw) := Cut(line);
    var value := TrimSpacePrefix(raw);
    if field == "event" then Ok(acc.(ev := acc.ev.(kind := value)))
    else if field == "data" then
      if acc.size + |value| + 1 > MAX_EVENT_BYTES then Err(EventTooLarge)
      else Ok(Acc(acc.ev, acc.data + [value], acc.size + |value| + 1))
    else if field == "id" then
      Ok(if '\0' in value then acc else acc.(ev := acc.ev.(id := value)))
    else if field == "retry" then Ok(acc.(ev := acc.ev.(retry := value)))
    else Ok(acc)
  }

  /** A line that is not blank: comments are dropped, anything else is a field. */
  function Content(acc: Acc, line: Bytes): Result<Acc, ScanError>
    requires line != []
  {
    if line[0] == ':' then Ok(acc) else Field(acc, line)
  }

  function Pending(acc: Acc): Event
    requires acc.data != []
  {
    acc.ev.(data := Join(acc.data))
  }

  /** A blank line that fires nothing resets the type. */
  function Untyped(acc: Acc): Acc {
    acc.(ev := acc.ev.(kind := ""))
  }

  // ---- one event ------------------------------------------------------------------

  datatype Next = Got(ev: Event, rest: Bytes) | Stop(err: ScanError, rest: Bytes)

  /** The loop of Next over the unread bytes, entered with accumulators `acc`. */
  function NextFrom(acc: Acc, s: Bytes, end: ScanError): (n: Next)
    ensures |n.rest| <= |s|
    decreases |s|
  {
    var l := ReadLineFrom("", s, end);
    var line := TrimRight(l.text);
    if l.text != [] && line == [] && acc.data != [] then Got(Pending(acc), l.rest)
    else
      var after :=
        if l.text == [] then Ok(acc)
        else if line == [] then Ok(Untyped(acc))
        else Content(acc, line);
      match after
      case Err(e) => Stop(e, l.rest)
      case Ok(acc') =>
        match l.err
        case None => NextFrom(acc', l.rest, end)
        case Some(e) => if e == EOF && acc'.data != [] then Got(Pending(acc'), l.rest) else Stop(e, l.rest)
  }

  // ---- the scanner object ---------------------------------------------------------

  class Scanner {
    var rest: Bytes
    var bomDone: bool
    const end: ScanError

    constructor (input: Bytes, end: ScanError)
      ensures rest == input && !bomDone && this.end == end
    {
      rest, bomDone, this.end := input, false, end;
    }

    /** The bytes the scanner has still to parse. */
    function Unread(): Bytes
      reads this
    {
      if bomDone then rest else StripBom(rest)
    }

    method StripBomOnce()
      modifies this
      ensures bomDone && rest == old(Unread())
    {
      if bomDone {
        return;
      }
      bomDone := true;
      if |rest| >= 3 && rest[0] == BOM[0] && rest[1] == BOM[1] && rest[2] == BOM[2] {
        rest := rest[3..];
      }
    }

    method ReadLine() returns (text: Bytes, err: Option<ScanError>)
      modifies this
      ensures bomDone
      ensures Line(text, err, rest) == ReadLineFrom("", old(Unread()), end)
    {
      StripBomOnce();
      text := "";
      while rest != []
        invariant bomDone
        invariant ReadLineFrom(text, rest, end) == ReadLineFrom("", old(Unread()), end)
        decreases |rest|
      {
        var b := rest[0];
        rest := rest[1..];
        if b == '\n' {
          text := text + "\n";
          return text, None;
        } else if b == '\r' {
          if rest != [] && rest[0] == '\n' {
            rest := rest[1..];
          }
          text := text + "\n";
          return text, None;
        } else {
          if |text| >= MAX_EVENT_BYTES {
            return "", Some(LineTooLong);
          }
          text := text + [b];
        }
      }
      return text, Some(end);
    }

    /** The next event, or the error that ended the scan. */
    method Next() returns (r: Result<Event, ScanError>)
      modifies this
      ensures bomDone
      ensures match NextFrom(FRESH, old(Unread()), end)
              case Got(ev, left) => r == Ok(ev) && rest == left
              case Stop(e, left) => r == Err(e) && rest == left
    {
      var acc := FRESH;
      while true
        invariant NextFrom(acc, Unread(), end) == NextFrom(FRESH, old(Unread()), end)
        decreases |Unread()|
      {
        ghost var before := Unread();
        var text, err := ReadLine();
        assert Line(text, err, rest) == ReadLineFrom("", before, end);
        if |text| > 0 {
          var line := TrimRight(text);
          if line == "" {
            if acc.data != [] {
              return Ok(Pending(acc));
            }
            acc := Untyped(acc);
          } else if line[0] != ':' {
            var next := Field(acc, line);
            if next.Err? {
              return Err(next.error);
            }
            acc := next.value;
          }
        }
        if err.Some? {
          if err.value == EOF && acc.data != [] {
            return Ok(Pending(acc));
          }
          return Err(err.value);
        }
      }
    }
  }
}
