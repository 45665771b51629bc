/** a2a/client.go and a2a/protocol.go: the blocking and the streaming call of the JSON-RPC
    client. */
module A2aClient {
  import opened Prelude
  import opened A2aTypes
  import opened TaskEngine

  // ---- the assembler ----------------------------------------------------------------------

  /** What an assembler was told: a delta, or an authoritative final text. */
  datatype Chunk = Delta(text: Bytes, append: bool) | Final(text: Bytes)

  /** The deltas joined, from the last one that restarts. */
  function Joined(told: seq<Chunk>): Bytes {
    if told == [] then ""
    else
      var before, c := Joined(told[..|told| - 1]), told[|told| - 1];
      if c.Final? then before else if c.append then before + c.text else c.text
  }

  function FinalText(told: seq<Chunk>): Bytes {
    if told == [] then "" else if told[|told| - 1].Final? then told[|told| - 1].text else FinalText(told[..|told| - 1])
  }

  /** A final text wins unless it is empty. */
  function Assembled(told: seq<Chunk>): Bytes {
    if FinalText(told) != "" then FinalText(told) else Joined(told)
  }

  class StreamAssembler {
    var full: Bytes
    var final: Bytes
    var sawDelta: bool
    var sawFinal: bool
    ghost var told: seq<Chunk>

    ghost predicate Valid()
      reads this
    {
      && full == Joined(told) && final == FinalText(told)
      && (!sawDelta ==> full == "") && (!sawFinal ==> final == "")
    }

    constructor ()
      ensures Valid() && told == []
    {
      full, final, sawDelta, sawFinal, told := "", "", false, false, [];
    }

    method AddDelta(text: Bytes, append: bool)
      requires Valid()
      modifies this
      ensures Valid() && told == old(told) + [Delta(text, append)]
    {
      if !append {
        full := "";
      }
      full := full + text;
      sawDelta := true;
      told := told + [Delta(text, append)];
    }

    method SetFinal(text: Bytes)
      requires Valid()
      modifies this
      ensures Valid() && told == old(told) + [Final(text)]
    {
      final := text;
      sawFinal := true;
      told := told + [Final(text)];
    }

    method Text() returns (text: Bytes)
      requires Valid()
      ensures text == Assembled(told)
    {
      if sawFinal && final != "" {
        return final;
      }
      if sawDelta {
        return full;
      }
      return final;
    }
  }

  // ---- results ----------------------------------------------------------------------------

  datatype Failure = TaskFailed(state: TaskState, text: Bytes) | RpcFailed(text: Bytes) | ReadFailed(text: Bytes)

  function MessageText(m: Option<seq<Part>>): Bytes {
    if m.Some? then PartsText(m.value) else ""
  }

  function StatusFailure(st: Status): Option<Failure> {
    if st.state == Failed || st.state == Canceled || st.state == Rejected
    then Some(TaskFailed(st.state, MessageText(st.message))) else None
  }

  function ArtifactsText(artifacts: seq<Artifact>): Bytes {
    if artifacts == [] then "" else PartsText(artifacts[0].parts) + ArtifactsText(artifacts[1..])
  }

  function TaskText(t: Task): Bytes {
    if ArtifactsText(t.artifacts) == "" then MessageText(t.status.message) else ArtifactsText(t.artifacts)
  }

  /** A result of message/send: a task or a direct message. */
  datatype Reply = TaskReply(task: Task) | MessageReply(parts: seq<Part>)

  function SendMessage(reply: Result<Reply, Bytes>): Result<Bytes, Failure> {
    if reply.Err? then Err(RpcFailed(reply.error))
    else if reply.value.MessageReply? then Ok(PartsText(reply.value.parts))
    else if StatusFailure(reply.value.task.status).Some? then Err(StatusFailure(reply.value.task.status).value)
    else Ok(TaskText(reply.value.task))
  }

  // ---- the stream -------------------------------------------------------------------------

  /** A decoded event of message/stream; `Ignored` is an empty, undecodable or unknown one. */
  datatype StreamEvent =
    | RpcError(text: Bytes)
    | MessageEvent(parts: seq<Part>)
    | TaskPayload(task: Task)
    | StatusUpdate(status: Status)
    | ArtifactUpdate(artifact: Artifact, append: bool, last: bool)
    | Ignored

  function FailureOf(e: StreamEvent): Option<Failure> {
    match e
    case RpcError(text) => Some(RpcFailed(text))
    case TaskPayload(task) => StatusFailure(task.status)
    case StatusUpdate(status) => StatusFailure(status)
    case _ => None
  }

  function FirstFailure(events: seq<StreamEvent>): Option<Failure> {
    if events == [] then None
    else if FailureOf(events[0]).Some? then FailureOf(events[0])
    else FirstFailure(events[1..])
  }

  /** What one event tells the assembler. */
  function ChunkOf(e: StreamEvent): seq<Chunk> {
    match e
    case MessageEvent(parts) => [Delta(PartsText(parts), true)]
    case TaskPayload(task) =>
      var st := task.status.state;
      if st == Completed || st == InputRequired || st == AuthRequired then [Final(TaskText(task))] else []
    case ArtifactUpdate(artifact, append, last) =>
      if last then [Final(PartsText(artifact.parts))] else [Delta(PartsText(artifact.parts), append)]
    case _ => []
  }

  function Chunks(events: seq<StreamEvent>): seq<Chunk> {
    if events == [] then [] else Chunks(events[..|events| - 1]) + ChunkOf(events[|events| - 1])
  }

  lemma ChunksSnoc(events: seq<StreamEvent>, e: StreamEvent)
    ensures Chunks(events + [e]) == Chunks(events) + ChunkOf(e)
  {
    assert (events + [e])[..|events|] == events;
  }

  /** The first failure ends the call; otherwise a read error; otherwise the assembled text. */
  function StreamResult(events: seq<StreamEvent>, readError: Option<Bytes>): Result<Bytes, Failure> {
    if FirstFailure(events).Some? then Err(FirstFailure(events).value)
    else if readError.Some? then Err(ReadFailed(readError.value))
    else Ok(Assembled(Chunks(events)))
  }

  lemma {:induction false} FailureAt(events: seq<StreamEvent>, i: nat)
    requires i < |events| && FailureOf(events[i]).Some?
    requires forall j :: 0 <= j < i ==> FailureOf(events[j]).None?
    ensures FirstFailure(events) == FailureOf(events[i])
    decreases i
  {
    if i > 0 {
      forall j | 0 <= j < i - 1
        ensures FailureOf(events[1..][j]).None?
      {
        assert events[1..][j] == events[j + 1];
      }
      FailureAt(events[1..], i - 1);
    }
  }

  lemma {:induction false} NoFailure(events: seq<StreamEvent>)
    requires forall j :: 0 <= j < |events| ==> FailureOf(events[j]).None?
    ensures FirstFailure(events) == None
  {
    if events != [] {
      forall j | 0 <= j < |events| - 1
        ensures FailureOf(events[1..][j]).None?
      {
        assert events[1..][j] == events[j + 1];
      }
      NoFailure(events[1..]);
    }
  }

  method SendMessageStream(events: seq<StreamEvent>, readError: Option<Bytes>) returns (r: Result<Bytes, Failure>)
    ensures r == StreamResult(events, readError)
  {
    hide FirstFailure, FailureOf, Chunks, ChunkOf;
    var asm := new StreamAssembler();
    assert Chunks([]) == [] by {
      NoChunks();
    }
    assert events[..0] == [];
    for i := 0 to |events|
      invariant fresh(asm) && asm.Valid() && asm.told == Chunks(events[..i])
      invariant forall j :: 0 <= j < i ==> FailureOf(events[j]).None?
    {
      var e := events[i];
      ChunksSnoc(events[..i], e);
      assert events[..i + 1] == events[..i] + [e];
      if FailureOf(e).Some? {
        FailureAt(events, i);
        return Err(FailureOf(e).value);
      }
      Handle(asm, e);
    }
    NoFailure(events);
    assert events[..|events|] == events;
    if readError.Some? {
      return Err(ReadFailed(readError.value));
    }
    var text := asm.Text();
    r := Ok(text);
  }

  lemma NoChunks()
    ensures Chunks([]) == []
  {
  }

  /** The assembler's side of one event. */
  method Handle(asm: StreamAssembler, e: StreamEvent)
    requires asm.Valid()
    modifies asm
    ensures asm.Valid() && asm.told == old(asm.told) + ChunkOf(e)
  {
    match e {
      case MessageEvent(parts) => asm.AddDelta(PartsText(parts), true);
      case TaskPayload(task) =>
        match task.status.state {
          case Completed => asm.SetFinal(TaskText(task));
          case InputRequired => asm.SetFinal(TaskText(task));
          case AuthRequired => asm.SetFinal(TaskText(task));
          case _ =>
        }
      case ArtifactUpdate(artifact, append, last) =>
        if last {
          asm.SetFinal(PartsText(artifact.parts));
        } else {
          asm.AddDelta(PartsText(artifact.parts), append);
        }
      case _ =>
    }
  }

  // ---- streaming against blocking ---------------------------------------------------------

  /** The server's rendering of a lifecycle event. */
  function Wire(e: TaskEvent): StreamEvent {
    match e
    case StatusEvent(status, _) => StatusUpdate(status)
    case ArtifactEvent(artifact, append, last) => ArtifactUpdate(artifact, append, last)
  }

  function Wired(es: seq<TaskEvent>): (w: seq<StreamEvent>)
    ensures |w| == |es|
  {
    if es == [] then [] else Wired(es[..|es| - 1]) + [Wire(es[|es| - 1])]
  }

  predicate IsDelta(e: TaskEvent) {
    e.ArtifactEvent? && !e.last
  }

  /** `sent` is `out` with any of its deltas missing. */
  predicate Thinned(out: seq<TaskEvent>, sent: seq<TaskEvent>)
    decreases |out|
  {
    if out == [] then sent == []
    else
      var front, e := out[..|out| - 1], out[|out| - 1];
      || (sent != [] && sent[|sent| - 1] == e && Thinned(front, sent[..|sent| - 1]))
      || (IsDelta(e) && Thinned(front, sent))
  }

  /** What is left of an opening: the working status and some deltas. */
  predicate Opened(sent: seq<TaskEvent>) {
    && sent != [] && sent[0].StatusEvent? && sent[0].status.state == Working
    && forall i :: 1 <= i < |sent| ==> IsDelta(sent[i])
  }

  lemma {:induction false} DeltasAreDeltas(id: nat, texts: seq<Bytes>)
    ensures forall i :: 0 <= i < |Deltas(id, texts)| ==> IsDelta(Deltas(id, texts)[i])
    decreases |texts|
  {
    if texts != [] {
      DeltasAreDeltas(id, texts[..|texts| - 1]);
    }
  }

  lemma {:induction false} ThinnedOpening(out: seq<TaskEvent>, sent: seq<TaskEvent>)
    requires Opened(out) && Thinned(out, sent)
    ensures Opened(sent)
    decreases |out|
  {
    var front, e := out[..|out| - 1], out[|out| - 1];
    if |out| == 1 {
      assert Thinned(front, sent[..|sent| - 1]);
      assert sent == [e];
    } else if sent != [] && sent[|sent| - 1] == e && Thinned(front, sent[..|sent| - 1]) {
      ThinnedOpening(front, sent[..|sent| - 1]);
    } else {
      ThinnedOpening(front, sent);
    }
  }

  /** An event that is not a delta is still there, at the end. */
  lemma ThinnedEnd(out: seq<TaskEvent>, e: TaskEvent, sent: seq<TaskEvent>)
    requires Thinned(out + [e], sent) && !IsDelta(e)
    ensures sent != [] && sent[|sent| - 1] == e && Thinned(out, sent[..|sent| - 1])
  {
    assert (out + [e])[..|out|] == out;
  }

  lemma WiredSnoc(es: seq<TaskEvent>, e: TaskEvent)
    ensures Wired(es + [e]) == Wired(es) + [Wire(e)]
  {
    assert (es + [e])[..|es|] == es;
  }

  lemma {:induction false} WiredAt(es: seq<TaskEvent>, i: nat)
    requires i < |es|
    ensures Wired(es)[i] == Wire(es[i])
    decreases |es|
  {
    if i < |es| - 1 {
      WiredAt(es[..|es| - 1], i);
    }
  }

  lemma OpenedNoFailure(sent: seq<TaskEvent>)
    requires Opened(sent)
    ensures forall i :: 0 <= i < |sent| ==> FailureOf(Wired(sent)[i]).None?
  {
    hide Wired;
    forall i | 0 <= i < |sent|
      ensures FailureOf(Wired(sent)[i]).None?
    {
      WiredAt(sent, i);
    }
  }

  /** What one delta tells the assembler. */
  lemma DeltaTold(front: seq<TaskEvent>, e: TaskEvent)
    requires IsDelta(e)
    ensures Chunks(Wired(front + [e])) == Chunks(Wired(front)) + [Delta(PartsText(e.artifact.parts), e.append)]
  {
    WiredSnoc(front, e);
    ChunksSnoc(Wired(front), Wire(e));
  }

  lemma WorkingTold(e: TaskEvent)
    requires e.StatusEvent?
    ensures Chunks(Wired([e])) == []
  {
    WiredSnoc([], e);
    ChunksSnoc([], Wire(e));
  }

  lemma ToldSnoc(told: seq<Chunk>, c: Chunk)
    ensures FinalText(told + [c]) == if c.Final? then c.text else FinalText(told)
    ensures Joined(told + [c]) == if c.Final? then Joined(told) else if c.append then Joined(told) + c.text else c.text
  {
    assert (told + [c])[..|told|] == told;
  }

  /** Nothing in an opening is final. */
  lemma {:induction false} OpenedNoFinal(sent: seq<TaskEvent>)
    requires Opened(sent)
    ensures FinalText(Chunks(Wired(sent))) == ""
    decreases |sent|
  {
    hide Wired, Chunks, FinalText, Joined;
    if |sent| == 1 {
      assert sent == [sent[0]];
      WorkingTold(sent[0]);
      assert FinalText([]) == "" by {
        NothingTold();
      }
    } else {
      var front, e := sent[..|sent| - 1], sent[|sent| - 1];
      assert sent == front + [e];
      OpenedNoFinal(front);
      DeltaTold(front, e);
      ToldSnoc(Chunks(Wired(front)), Delta(PartsText(e.artifact.parts), e.append));
    }
  }

  lemma NothingTold()
    ensures FinalText([]) == "" && Joined([]) == ""
  {
  }

  lemma OpeningOpened(id: nat, out: seq<TaskEvent>, texts: seq<Bytes>)
    requires Opening(id, out, texts)
    ensures Opened(out)
  {
    DeltasAreDeltas(id, texts);
    forall i | 1 <= i < |out|
      ensures IsDelta(out[i])
    {
      assert out[i] == out[1..][i - 1];
    }
  }

  /** The events of a lifecycle after any deltas went missing. */
  lemma ThinnedLifecycle(id: nat, out: seq<TaskEvent>, texts: seq<Bytes>, t: Task, sent: seq<TaskEvent>) returns (heard: seq<TaskEvent>)
    requires Lifecycle(id, out, texts, t) && Thinned(out, sent)
    ensures Opened(heard) && sent == heard + LastChunk(t) + [StatusEvent(t.status, true)]
  {
    hide Opened, Opening, Thinned;
    var opening :| Opening(id, opening, texts) && out == opening + LastChunk(t) + [StatusEvent(t.status, true)];
    OpeningOpened(id, opening, texts);
    ThinnedEnd(opening + LastChunk(t), StatusEvent(t.status, true), sent);
    heard := sent[..|sent| - 1];
    if LastChunk(t) == [] {
      assert opening + LastChunk(t) == opening;
    } else {
      ThinnedEnd(opening, LastChunk(t)[0], heard);
      heard := heard[..|heard| - 1];
    }
    ThinnedOpening(opening, heard);
  }

  /** Streaming and blocking agree on a finished task, whatever deltas the handler emitted and
      whichever of them arrived: a failed or cancelled task is the same error on both, and a
      completed one the same text, unless its text is empty and the deltas' is not. */
  lemma StreamAgrees(id: nat, out: seq<TaskEvent>, texts: seq<Bytes>, t: Task, sent: seq<TaskEvent>)
    requires Lifecycle(id, out, texts, t) && Thinned(out, sent)
    ensures StatusFailure(t.status).Some? <==> t.status.state != Completed
    ensures StatusFailure(t.status).Some? ==> SendMessage(Ok(TaskReply(t))) == Err(StatusFailure(t.status).value)
    ensures StreamResult(Wired(sent), None) == SendMessage(Ok(TaskReply(t)))
            <==> t.status.state != Completed || TaskText(t) != "" || Joined(Chunks(Wired(sent))) == ""
  {
    hide Lifecycle, Thinned, Opened, Wired, Chunks, FinalText, Joined, FirstFailure, TaskText;
    LifecycleTerminal(id, out, texts, t);
    var heard := ThinnedLifecycle(id, out, texts, t, sent);
    var end := StatusEvent(t.status, true);
    OpenedNoFailure(heard);
    OpenedNoFinal(heard);
    if t.status.state != Completed {
      assert heard + [] == heard;
      WiredSnoc(heard, end);
      FailureAt(Wired(sent), |heard|);
    } else {
      CompletedStream(heard, t);
      CompletedText(t);
    }
  }

  lemma LifecycleTerminal(id: nat, out: seq<TaskEvent>, texts: seq<Bytes>, t: Task)
    requires Lifecycle(id, out, texts, t)
    ensures IsTerminal(t.status.state) && TaskOk(id, t)
  {
  }

  lemma CompletedText(t: Task)
    requires t.status.state == Completed && |t.artifacts| == 1 && t.status.message.None?
    ensures TaskText(t) == PartsText(t.artifacts[0].parts) && SendMessage(Ok(TaskReply(t))) == Ok(TaskText(t))
  {
    assert ArtifactsText(t.artifacts[1..]) == "";
    assert PartsText(t.artifacts[0].parts) + "" == PartsText(t.artifacts[0].parts);
  }

  lemma CompletedStream(heard: seq<TaskEvent>, t: Task)
    requires Opened(heard) && t.status.state == Completed && |t.artifacts| == 1
    ensures var sent := heard + LastChunk(t) + [StatusEvent(t.status, true)];
            var text := PartsText(t.artifacts[0].parts);
            StreamResult(Wired(sent), None) == Ok(if text != "" then text else Joined(Chunks(Wired(sent))))
  {
    hide Opened, Wired, Chunks, FinalText, Joined, FirstFailure, PartsText;
    var a, end := ArtifactEvent(t.artifacts[0], false, true), StatusEvent(t.status, true);
    OpenedNoFailure(heard);
    WiredSnoc(heard, a);
    WiredSnoc(heard + [a], end);
    NoFailure(Wired(heard + [a] + [end]));
    ChunksSnoc(Wired(heard), Wire(a));
    ChunksSnoc(Wired(heard + [a]), Wire(end));
    assert Chunks(Wired(heard + [a])) + [] == Chunks(Wired(heard + [a]));
    ToldSnoc(Chunks(Wired(heard)), Final(PartsText(t.artifacts[0].parts)));
  }

  /** When every delta arrives they join to everything the handler emitted. */
  lemma {:induction false} DeltasJoin(id: nat, first: TaskEvent, texts: seq<Bytes>)
    requires first.StatusEvent?
    ensures Joined(Chunks(Wired([first] + Deltas(id, texts)))) == Flatten(texts)
    decreases |texts|
  {
    hide Wired, Chunks, Joined;
    if texts == [] {
      assert [first] + [] == [first];
      WorkingTold(first);
      NothingTold();
    } else {
      var front, text := texts[..|texts| - 1], texts[|texts| - 1];
      DeltasJoin(id, first, front);
      assert front + [text] == texts;
      FlattenSnoc(front, text);
      var e := TaskEngine.Delta(id, text, front == []);
      assert [first] + Deltas(id, texts) == [first] + Deltas(id, front) + [e];
      DeltaTold([first] + Deltas(id, front), e);
      OneText(text);
      ToldSnoc(Chunks(Wired([first] + Deltas(id, front))), Delta(text, front != []));
    }
  }

  lemma OneText(text: Bytes)
    ensures PartsText([TextPart(text)]) == text
  {
    assert PartsText([]) == "";
  }

  /** The same in any run of the engine, against what is stored later. */
  lemma StreamAgreesWithStore(maxAge: int, maxTasks: int, steps: seq<Step>, id: nat, sent: seq<TaskEvent>)
    requires Runs(TaskEngine.Initial(maxAge, maxTasks), steps)
    requires var s := After(TaskEngine.Initial(maxAge, maxTasks), steps);
             && id in s.runners && (s.runners[id].pc.Told? || s.runners[id].pc.Over?) && s.runners[id].mode != Plain
             && id in s.store.tasks && Thinned(s.runners[id].out, sent)
    ensures var t := After(TaskEngine.Initial(maxAge, maxTasks), steps).store.tasks[id];
            StreamResult(Wired(sent), None) == SendMessage(Ok(TaskReply(t)))
            <==> t.status.state != Completed || TaskText(t) != "" || Joined(Chunks(Wired(sent))) == ""
  {
    hide Runs, After, Thinned, Wired, Lifecycle, StreamResult, SendMessage, Chunks, Joined;
    LifecycleTold(maxAge, maxTasks, steps, id);
    var r := After(TaskEngine.Initial(maxAge, maxTasks), steps).runners[id];
    StreamAgrees(id, r.out, r.texts, r.pc.snap, sent);
  }
}
