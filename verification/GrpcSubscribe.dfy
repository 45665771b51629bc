/** a2a/grpc/grpc.go: what SubscribeToTask's client makes of its stream, and that subscribers
    converge on the stored task. */
module GrpcSubscribe {
  import opened Prelude
  import opened A2aTypes
  import TaskBroker
  import TaskEngine
  import TaskSubscribe

  // ---- the client's fold ------------------------------------------------------------------

  /** A decoded stream response. */
  datatype Response =
    | StatusUpdate(taskId: Bytes, status: Status)
    | ArtifactUpdate(artifact: Artifact, append: bool, last: bool)
    | TaskPayload(id: Bytes, task: Task)
    | MessageChunk(text: Bytes)
    | Other

  /** The client's task; a status never received is the zero status. */
  datatype View = View(id: Bytes, status: Option<Status>, artifacts: seq<Artifact>)

  function ArtifactText(a: Artifact): Bytes {
    PartsText(a.parts)
  }

  predicate IsDelta(r: Response) {
    r.MessageChunk? || (r.ArtifactUpdate? && !r.last)
  }

  function LastStatus(rs: seq<Response>): Option<Status> {
    if rs == [] then None
    else if rs[|rs| - 1].StatusUpdate? then Some(rs[|rs| - 1].status)
    else LastStatus(rs[..|rs| - 1])
  }

  function LastTaskId(asked: Bytes, rs: seq<Response>): Bytes {
    if rs == [] then asked
    else if rs[|rs| - 1].StatusUpdate? && rs[|rs| - 1].taskId != "" then rs[|rs| - 1].taskId
    else LastTaskId(asked, rs[..|rs| - 1])
  }

  function LastFull(rs: seq<Response>): Option<Artifact> {
    if rs == [] then None
    else if rs[|rs| - 1].ArtifactUpdate? && rs[|rs| - 1].last then Some(rs[|rs| - 1].artifact)
    else LastFull(rs[..|rs| - 1])
  }

  function LastPayload(rs: seq<Response>): Option<Response> {
    if rs == [] then None
    else if rs[|rs| - 1].TaskPayload? then Some(rs[|rs| - 1])
    else LastPayload(rs[..|rs| - 1])
  }

  /** The deltas joined, from the last artifact delta that restarts. */
  function Joined(rs: seq<Response>): Bytes {
    if rs == [] then ""
    else
      var before, r := Joined(rs[..|rs| - 1]), rs[|rs| - 1];
      if r.MessageChunk? then before + r.text
      else if IsDelta(r) then (if r.append then before else "") + ArtifactText(r.artifact)
      else before
  }

  const NO_ARTIFACT := Artifact("", [])

  /** The first delta lends its artifact's identity, if it is an artifact. */
  function FirstDelta(rs: seq<Response>): Option<Artifact> {
    if rs == [] then None
    else if FirstDelta(rs[..|rs| - 1]).Some? then FirstDelta(rs[..|rs| - 1])
    else if rs[|rs| - 1].MessageChunk? then Some(NO_ARTIFACT)
    else if IsDelta(rs[|rs| - 1]) then Some(rs[|rs| - 1].artifact)
    else None
  }

  /** A task payload wins; otherwise the full artifact; otherwise the joined deltas. */
  function ViewOf(asked: Bytes, rs: seq<Response>): View {
    if LastPayload(rs).Some? then
      var p := LastPayload(rs).value;
      View(if p.TaskPayload? && p.id != "" then p.id else LastTaskId(asked, rs),
           if p.TaskPayload? then Some(p.task.status) else None, if p.TaskPayload? then p.task.artifacts else [])
    else
      View(LastTaskId(asked, rs), LastStatus(rs),
           if LastFull(rs).Some? then [LastFull(rs).value]
           else if FirstDelta(rs).Some? then [FirstDelta(rs).value.(parts := [TextPart(Joined(rs))])]
           else [])
  }

  lemma Snoc(rs: seq<Response>, r: Response)
    ensures (rs + [r])[..|rs|] == rs && (rs + [r])[|rs|] == r
  {
  }

  lemma {:induction false} PayloadKind(rs: seq<Response>)
    ensures LastPayload(rs).Some? ==> LastPayload(rs).value.TaskPayload?
    decreases |rs|
  {
    if rs != [] {
      PayloadKind(rs[..|rs| - 1]);
    }
  }

  method SubscribeToTask(asked: Bytes, rs: seq<Response>, readError: Option<Bytes>) returns (r: Result<View, Bytes>)
    ensures r == if readError.Some? then Err(readError.value) else Ok(ViewOf(asked, rs))
  {
    hide ViewOf;
    var id := asked;
    var status: Option<Status> := None;
    var payload: Option<Response> := None;
    var final: Option<Artifact> := None;
    var deltas: Bytes := "";
    var meta := NO_ARTIFACT;
    var sawDelta := false;
    for i := 0 to |rs|
      invariant id == LastTaskId(asked, rs[..i]) && status == LastStatus(rs[..i])
      invariant final == LastFull(rs[..i]) && payload == LastPayload(rs[..i])
      invariant deltas == Joined(rs[..i])
      invariant FirstDelta(rs[..i]) == if sawDelta then Some(meta) else None
      invariant !sawDelta ==> meta == NO_ARTIFACT
    {
      Snoc(rs[..i], rs[i]);
      assert rs[..i + 1] == rs[..i] + [rs[i]];
      match rs[i] {
        case StatusUpdate(taskId, st) =>
          status := Some(st);
          if taskId != "" {
            id := taskId;
          }
        case ArtifactUpdate(artifact, append, last) =>
          if last {
            final := Some(artifact);
          } else {
            if !sawDelta {
              meta := artifact;
            }
            sawDelta := true;
            if !append {
              deltas := "";
            }
            deltas := deltas + ArtifactText(artifact);
          }
        case TaskPayload(_, _) => payload := Some(rs[i]);
        case MessageChunk(text) =>
          deltas := deltas + text;
          sawDelta := true;
        case Other =>
      }
    }
    assert rs[..|rs|] == rs;
    if readError.Some? {
      return Err(readError.value);
    }
    PayloadKind(rs);
    Views(asked, rs);
    if payload.Some? {
      var p := payload.value;
      return Ok(View(if p.id == "" then id else p.id, Some(p.task.status), p.task.artifacts));
    }
    if final.Some? {
      return Ok(View(id, status, [final.value]));
    }
    if sawDelta {
      return Ok(View(id, status, [meta.(parts := [TextPart(deltas)])]));
    }
    r := Ok(View(id, status, []));
  }

  lemma Views(asked: Bytes, rs: seq<Response>)
    ensures LastPayload(rs).Some? ==>
              var p := LastPayload(rs).value;
              && p.TaskPayload?
              && ViewOf(asked, rs) == View(if p.id == "" then LastTaskId(asked, rs) else p.id, Some(p.task.status), p.task.artifacts)
    ensures LastPayload(rs).None? ==>
              ViewOf(asked, rs) == View(LastTaskId(asked, rs), LastStatus(rs),
                                        if LastFull(rs).Some? then [LastFull(rs).value]
                                        else if FirstDelta(rs).Some? then [FirstDelta(rs).value.(parts := [TextPart(Joined(rs))])]
                                        else [])
  {
    PayloadKind(rs);
  }

  // ---- the server's side ------------------------------------------------------------------

  /** Encoding a status or an artifact and decoding it again; what these lose is lost on every
      path alike. */
  datatype Codec = Codec(status: Status -> Status, artifact: Artifact -> Artifact)

  function Wire(codec: Codec, id: Bytes, e: TaskEvent): Response {
    match e
    case StatusEvent(status, _) => StatusUpdate(id, codec.status(status))
    case ArtifactEvent(artifact, append, last) => ArtifactUpdate(codec.artifact(artifact), append, last)
  }

  function Wired(codec: Codec, id: Bytes, es: seq<TaskEvent>): (rs: seq<Response>)
    ensures |rs| == |es| && forall i :: 0 <= i < |es| ==> rs[i] == Wire(codec, id, es[i])
  {
    if es == [] then [] else Wired(codec, id, es[..|es| - 1]) + [Wire(codec, id, es[|es| - 1])]
  }

  /** GetTask's answer, after the same conversions. */
  function Got(codec: Codec, id: Bytes, t: Task): View {
    View(id, Some(codec.status(t.status)), seq(|t.artifacts|, i requires 0 <= i < |t.artifacts| => codec.artifact(t.artifacts[i])))
  }

  /** SubscribeToTask for a task without a live broker: its status, then its first artifact. */
  function Stored(t: Task): seq<TaskEvent> {
    [StatusEvent(t.status, true)] + if t.artifacts != [] then [ArtifactEvent(t.artifacts[0], false, true)] else []
  }

  // ---- convergence ------------------------------------------------------------------------

  lemma {:induction false} NoPayload(codec: Codec, id: Bytes, es: seq<TaskEvent>)
    ensures LastPayload(Wired(codec, id, es)) == None
    decreases |es|
  {
    if es != [] {
      NoPayload(codec, id, es[..|es| - 1]);
    }
  }

  lemma {:induction false} SameId(codec: Codec, id: Bytes, es: seq<TaskEvent>)
    ensures LastTaskId(id, Wired(codec, id, es)) == id
    decreases |es|
  {
    if es != [] {
      SameId(codec, id, es[..|es| - 1]);
    }
  }

  /** Any stream that ends with the artifact and the final status of a task is seen as that
      task, whatever came before. */
  lemma EndDecides(codec: Codec, id: Bytes, es: seq<TaskEvent>, a: Artifact, st: Status)
    requires |es| >= 2 && es[|es| - 2..] == [ArtifactEvent(a, false, true), StatusEvent(st, true)]
    ensures ViewOf(id, Wired(codec, id, es)) == View(id, Some(codec.status(st)), [codec.artifact(a)])
  {
    hide Wired, LastPayload, LastTaskId, Joined, FirstDelta;
    NoPayload(codec, id, es);
    SameId(codec, id, es);
    var rs := Wired(codec, id, es);
    assert es[|es| - 2] == es[|es| - 2..][0] && es[|es| - 1] == es[|es| - 2..][1];
    assert rs[|rs| - 1] == StatusUpdate(id, codec.status(st));
    assert rs[..|rs| - 1][|rs| - 2] == ArtifactUpdate(codec.artifact(a), false, true);
    assert LastFull(rs) == LastFull(rs[..|rs| - 1]);
  }

  lemma StatusView(id: Bytes, st: Status)
    ensures ViewOf(id, [StatusUpdate(id, st)]) == View(id, Some(st), [])
  {
    var rs := [StatusUpdate(id, st)];
    assert rs[..0] == [];
    Views(id, rs);
    assert LastPayload(rs) == LastPayload(rs[..0]) == None;
    assert LastFull(rs) == LastFull(rs[..0]) == None;
    assert FirstDelta(rs[..0]) == None && FirstDelta(rs) == None;
    assert LastTaskId(id, rs[..0]) == id;
  }

  lemma StatusArtifactView(id: Bytes, st: Status, a: Artifact)
    ensures ViewOf(id, [StatusUpdate(id, st), ArtifactUpdate(a, false, true)]) == View(id, Some(st), [a])
  {
    hide Joined, FirstDelta;
    var rs := [StatusUpdate(id, st), ArtifactUpdate(a, false, true)];
    var one := [StatusUpdate(id, st)];
    assert rs[..1] == one && one[..0] == [];
    Views(id, rs);
    assert LastPayload(rs) == LastPayload(one) == LastPayload([]);
    assert LastStatus(rs) == LastStatus(one);
    assert LastTaskId(id, one[..0]) == id;
    assert LastTaskId(id, rs) == LastTaskId(id, one);
  }

  /** The stored form agrees with GetTask for every task with at most one artifact. */
  lemma StoredAgrees(codec: Codec, id: Bytes, t: Task)
    requires |t.artifacts| <= 1
    ensures ViewOf(id, Wired(codec, id, Stored(t))) == Got(codec, id, t)
  {
    hide ViewOf;
    var st := codec.status(t.status);
    var rs := Wired(codec, id, Stored(t));
    if t.artifacts == [] {
      assert rs == [StatusUpdate(id, st)];
      StatusView(id, st);
      assert Got(codec, id, t).artifacts == [];
    } else {
      var a := codec.artifact(t.artifacts[0]);
      assert rs == [StatusUpdate(id, st), ArtifactUpdate(a, false, true)];
      StatusArtifactView(id, st, a);
      assert Got(codec, id, t).artifacts == [a];
    }
  }

  lemma CompletedEnd(id: nat, out: seq<TaskEvent>, texts: seq<Bytes>, t: Task)
    requires TaskEngine.Lifecycle(id, out, texts, t) && t.status.state == Completed
    ensures |t.artifacts| == 1 && |out| >= 2
    ensures out[|out| - 2..] == [ArtifactEvent(t.artifacts[0], false, true), StatusEvent(t.status, true)]
  {
    hide TaskEngine.Opening;
    var opening :| TaskEngine.Opening(id, opening, texts) && out == opening + TaskEngine.LastChunk(t) + [StatusEvent(t.status, true)];
  }

  /** Subscriber convergence. A detached task ran to completion in some run of the engine, and
      its events are what its broker was given. Whenever a subscriber attached, whatever was
      trimmed from the buffer, and even if it was dropped for being slow: if it found its
      channel closed after the last event, its client has the task as GetTask returns it from
      the store. */
  lemma Converges(maxAge: int, maxTasks: int, engine: seq<TaskEngine.Step>, id: nat,
                  max: int, broker: seq<TaskSubscribe.Step>, c: nat, codec: Codec, name: Bytes)
    requires TaskEngine.Runs(TaskEngine.Initial(maxAge, maxTasks), engine)
    requires var s := TaskEngine.After(TaskEngine.Initial(maxAge, maxTasks), engine);
             && id in s.runners && id in s.store.tasks && s.runners[id].mode == TaskEngine.Detached
             && (s.runners[id].pc.Told? || s.runners[id].pc.Over?) && s.store.tasks[id].status.state == Completed
    requires TaskSubscribe.Runs(max, broker)
    requires var b := TaskSubscribe.Reach(max, broker);
             && b.log == TaskEngine.After(TaskEngine.Initial(maxAge, maxTasks), engine).runners[id].out && b.max >= 2
             && c < |b.subs| && b.subs[c].pc == TaskSubscribe.Ended && b.subs[c].seen == |b.log|
    ensures var t := TaskEngine.After(TaskEngine.Initial(maxAge, maxTasks), engine).store.tasks[id];
            var sub := TaskSubscribe.Reach(max, broker).subs[c];
            ViewOf(name, Wired(codec, name, sub.got + sub.extra)) == Got(codec, name, t)
  {
    hide TaskEngine.Runs, TaskEngine.After, TaskEngine.Lifecycle, TaskSubscribe.Runs, TaskSubscribe.Reach, ViewOf, Wired;
    var s := TaskEngine.After(TaskEngine.Initial(maxAge, maxTasks), engine);
    var b := TaskSubscribe.Reach(max, broker);
    var r := s.runners[id];
    TaskEngine.LifecycleTold(maxAge, maxTasks, engine, id);
    CompletedEnd(id, r.out, r.texts, r.pc.snap);
    LastTwo(b.log, r.pc.snap);
    TaskSubscribe.EndsOnFinal(max, broker, c);
    var given := b.subs[c].got + b.subs[c].extra;
    EndDecides(codec, name, given, r.pc.snap.artifacts[0], r.pc.snap.status);
  }

  lemma LastTwo(log: seq<TaskEvent>, t: Task)
    requires |log| >= 2 && |t.artifacts| == 1
    requires log[|log| - 2..] == [ArtifactEvent(t.artifacts[0], false, true), StatusEvent(t.status, true)]
    ensures log[|log| - 2].ArtifactEvent? && log[|log| - 1].StatusEvent?
  {
    assert log[|log| - 2] == log[|log| - 2..][0] && log[|log| - 1] == log[|log| - 2..][1];
  }
}
