/** message.go and session.go: conversation history and its trimming. */
module Session {
  import opened Prelude

  datatype Role = System | User | Assistant | Tool

  datatype ToolUse = ToolUse(id: Bytes, name: Bytes, input: Bytes)

  /** What a tool call came to; texts the source formats are kept as their ingredients. */
  datatype ResultText = NoTools | UnknownTool | Panicked(what: Bytes) | Failed(err: Bytes) | Output(text: Bytes) | NotExecuted(reason: Bytes)

  datatype Content =
    | Text(text: Bytes)
    | Use(call: ToolUse)
    | Result(useId: Bytes, name: Bytes, body: ResultText, isError: bool)
    | Other(kind: Bytes)

  datatype Message = Message(role: Role, content: seq<Content>)

  function UsesIn(content: seq<Content>): (uses: seq<ToolUse>)
    ensures (forall i :: 0 <= i < |content| ==> !content[i].Use?) ==> uses == []
  {
    if content == [] then []
    else (if content[0].Use? then [content[0].call] else []) + UsesIn(content[1..])
  }

  /** Message.ToolUses. */
  function ToolUses(m: Message): seq<ToolUse> {
    UsesIn(m.content)
  }

  predicate FromUser(h: seq<Message>, i: int)
    requires 0 <= i < |h|
  {
    h[i].role == User
  }

  // ---- where Trim cuts --------------------------------------------------------------------

  /** The last user message at or before i, if any. */
  function LastUser(h: seq<Message>, i: nat): (r: Option<nat>)
    requires i < |h|
    ensures match r
            case Some(c) => c <= i && FromUser(h, c) && forall j :: c < j <= i ==> !FromUser(h, j)
            case None => forall j :: 0 <= j <= i ==> !FromUser(h, j)
  {
    if FromUser(h, i) then Some(i) else if i == 0 then None else LastUser(h, i - 1)
  }

  /** The first user message at or after i, or the length of the history. */
  function FirstUser(h: seq<Message>, i: nat): (c: nat)
    requires i <= |h|
    ensures i <= c <= |h| && (c < |h| ==> FromUser(h, c))
    ensures forall j :: i <= j < c ==> !FromUser(h, j)
    decreases |h| - i
  {
    if i == |h| || FromUser(h, i) then i else FirstUser(h, i + 1)
  }

  /** Where the window asked for starts. */
  function WindowStart(h: seq<Message>, keepLast: int): nat {
    if |h| > keepLast > 0 then |h| - keepLast else 0
  }

  /** The index Trim keeps from: the enclosing user turn, or the first user turn when there is
      none at or before the window. */
  function CutAt(h: seq<Message>, keepLast: int): (c: nat)
    requires keepLast > 0
    ensures c <= |h| && (c < |h| ==> FromUser(h, c))
    ensures forall i :: c < i <= WindowStart(h, keepLast) ==> !FromUser(h, i)
    ensures c > WindowStart(h, keepLast) ==> forall i :: 0 <= i < c ==> !FromUser(h, i)
  {
    if h == [] then 0
    else
      match LastUser(h, WindowStart(h, keepLast))
      case Some(c) => c
      case None => FirstUser(h, 0)
  }

  function Trimmed(h: seq<Message>, keepLast: int): seq<Message> {
    if keepLast <= 0 then [] else h[CutAt(h, keepLast)..]
  }

  class Session {
    var history: seq<Message>

    constructor ()
      ensures history == []
    {
      history := [];
    }

    method Append(msgs: seq<Message>)
      modifies this
      ensures history == old(history) + msgs
    {
      history := history + msgs;
    }

    method Trim(keepLast: int)
      modifies this
      ensures history == Trimmed(old(history), keepLast)
      ensures keepLast <= 0 ==> history == []
    {
      if keepLast <= 0 {
        history := [];
        return;
      }
      var h := history;
      var start := 0;
      if |h| > keepLast {
        start := |h| - keepLast;
      }
      ghost var window := start;
      while start > 0 && h[start].role != User
        invariant 0 <= start <= window && (h != [] ==> start < |h|)
        invariant forall j :: start < j <= window ==> !FromUser(h, j)
      {
        start := start - 1;
      }
      ghost var back := start;
      while start < |h| && h[start].role != User
        invariant back <= start <= |h|
        invariant forall j :: back <= j < start ==> !FromUser(h, j)
      {
        start := start + 1;
      }
      CutUnique(h, keepLast, window, back, start);
      if start == 0 {
        return;
      }
      history := h[start..];
    }
  }

  /** Any index found by walking back from the window and then forward is the cut. */
  lemma CutUnique(h: seq<Message>, keepLast: int, window: nat, back: nat, start: nat)
    requires keepLast > 0 && window == WindowStart(h, keepLast)
    requires back <= window && (h != [] ==> back < |h|)
    requires forall j :: back < j <= window ==> 0 <= j < |h| && !FromUser(h, j)
    requires back == 0 || FromUser(h, back)
    requires back <= start <= |h|
    requires forall j :: back <= j < start ==> !FromUser(h, j)
    requires start < |h| ==> FromUser(h, start)
    ensures start == CutAt(h, keepLast)
  {
  }
}
