/** What SubscribeToTask's client returns, in terms of its stream alone, and what subscribers of a
    task that did not complete see. */
module GrpcViews {
  import opened Prelude
  import opened A2aTypes
  import opened GrpcSubscribe
  import TaskEngine
  import TaskSubscribe

  // ---- one field at a time ----------------------------------------------------------------

  predicate Restarts(r: Response) {
    r.ArtifactUpdate? && !r.last && !r.append
  }

  function Added(r: Response): Bytes {
    if r.MessageChunk? then r.text else if r.ArtifactUpdate? && !r.last then PartsText(r.artifact.parts) else ""
  }

  function AllAdded(rs: seq<Response>): Bytes {
    if rs == [] then "" else Added(rs[0]) + AllAdded(rs[1..])
  }

  lemma {:induction false} JoinedIs(before: seq<Response>, more: seq<Response>)
    requires forall i :: 0 <= i < |more| ==> !Restarts(more[i])
    ensures Joined(before + more) == Joined(before) + AllAdded(more)
    decreases |more|
  {
    hide Joined, Restarts, Added;
    if more == [] {
      assert before + more == before;
    } else {
      OneMore(before, more[0]);
      JoinedIs(before + [more[0]], more[1..]);
      assert before + [more[0]] + more[1..] == before + more;
    }
  }

  /** The status last received, and the id last named, or the one asked for. */
  lemma {:induction false} StatusStays(rs: seq<Response>, more: seq<Response>, asked: Bytes)
    requires forall i :: 0 <= i < |more| ==> !more[i].StatusUpdate?
    ensures LastStatus(rs + more) == LastStatus(rs) && LastTaskId(asked, rs + more) == LastTaskId(asked, rs)
    decreases |more|
  {
    if more == [] {
      assert rs + more == rs;
    } else {
      var front, r := more[..|more| - 1], more[|more| - 1];
      StatusStays(rs, front, asked);
      assert rs + more == rs + front + [r];
      Snoc(rs + front, r);
    }
  }

  lemma {:induction false} PayloadStays(rs: seq<Response>, more: seq<Response>)
    requires forall i :: 0 <= i < |more| ==> !more[i].TaskPayload?
    ensures LastPayload(rs + more) == LastPayload(rs)
    decreases |more|
  {
    if more == [] {
      assert rs + more == rs;
    } else {
      var front, r := more[..|more| - 1], more[|more| - 1];
      PayloadStays(rs, front);
      assert rs + more == rs + front + [r];
      Snoc(rs + front, r);
    }
  }

  lemma {:induction false} FullStays(rs: seq<Response>, more: seq<Response>)
    requires forall i :: 0 <= i < |more| ==> !(more[i].ArtifactUpdate? && more[i].last)
    ensures LastFull(rs + more) == LastFull(rs)
    decreases |more|
  {
    if more == [] {
      assert rs + more == rs;
    } else {
      var front, r := more[..|more| - 1], more[|more| - 1];
      FullStays(rs, front);
      assert rs + more == rs + front + [r];
      Snoc(rs + front, r);
    }
  }

  predicate Adds(r: Response) {
    r.MessageChunk? || (r.ArtifactUpdate? && !r.last)
  }

  lemma {:induction false} FirstStays(rs: seq<Response>, more: seq<Response>)
    requires FirstDelta(rs).Some?
    ensures FirstDelta(rs + more) == FirstDelta(rs)
    decreases |more|
  {
    if more == [] {
      assert rs + more == rs;
    } else {
      var front, r := more[..|more| - 1], more[|more| - 1];
      FirstStays(rs, front);
      assert rs + more == rs + front + [r];
      Snoc(rs + front, r);
    }
  }

  lemma {:induction false} NoneFirst(rs: seq<Response>)
    requires forall i :: 0 <= i < |rs| ==> !Adds(rs[i])
    ensures FirstDelta(rs) == None
    decreases |rs|
  {
    if rs != [] {
      NoneFirst(rs[..|rs| - 1]);
    }
  }

  // ---- the view ---------------------------------------------------------------------------

  /** A task payload is the result, whatever else came; a payload without an id takes the
      stream's. */
  lemma PayloadWins(asked: Bytes, before: seq<Response>, p: Response, after: seq<Response>)
    requires p.TaskPayload? && forall i :: 0 <= i < |after| ==> !after[i].TaskPayload?
    ensures var rs := before + [p] + after;
            var view := ViewOf(asked, rs);
            && view.status == Some(p.task.status) && view.artifacts == p.task.artifacts
            && (p.id != "" ==> view.id == p.id)
            && (p.id == "" && (forall i :: 0 <= i < |rs| && rs[i].StatusUpdate? ==> rs[i].taskId == asked) ==> view.id == asked)
  {
    hide LastPayload, LastTaskId, LastStatus, LastFull, FirstDelta, Joined, ViewOf;
    var rs := before + [p] + after;
    PayloadStays(before + [p], after);
    OnePayload(before, p);
    Views(asked, rs);
    if forall i :: 0 <= i < |rs| && rs[i].StatusUpdate? ==> rs[i].taskId == asked {
      IdAsked(asked, rs);
    }
  }

  lemma OnePayload(before: seq<Response>, p: Response)
    requires p.TaskPayload?
    ensures LastPayload(before + [p]) == Some(p)
  {
    Snoc(before, p);
  }

  lemma {:induction false} IdAsked(asked: Bytes, rs: seq<Response>)
    requires forall i :: 0 <= i < |rs| && rs[i].StatusUpdate? ==> rs[i].taskId == asked
    ensures LastTaskId(asked, rs) == asked
    decreases |rs|
  {
    if rs != [] {
      IdAsked(asked, rs[..|rs| - 1]);
    }
  }

  predicate NoPayloads(rs: seq<Response>) {
    forall i :: 0 <= i < |rs| ==> !rs[i].TaskPayload?
  }

  lemma NoPayloadView(asked: Bytes, rs: seq<Response>)
    requires NoPayloads(rs)
    ensures LastPayload(rs) == None && ViewOf(asked, rs).status == LastStatus(rs) && ViewOf(asked, rs).id == LastTaskId(asked, rs)
    ensures ViewOf(asked, rs).artifacts ==
            if LastFull(rs).Some? then [LastFull(rs).value]
            else if FirstDelta(rs).Some? then [FirstDelta(rs).value.(parts := [TextPart(Joined(rs))])]
            else []
  {
    hide LastPayload, LastTaskId, LastStatus, LastFull, FirstDelta, Joined, ViewOf;
    PayloadStays([], rs);
    assert [] + rs == rs;
    assert LastPayload([]) == None by {
      NoneYet();
    }
    Views(asked, rs);
  }

  lemma NoneYet()
    ensures LastPayload([]) == None && LastStatus([]) == None && LastFull([]) == None && FirstDelta([]) == None && Joined([]) == ""
    ensures forall asked :: LastTaskId(asked, []) == asked
  {
  }

  /** Without a payload: the last status and its id. */
  lemma StatusSeen(asked: Bytes, before: seq<Response>, r: Response, after: seq<Response>)
    requires NoPayloads(before + [r] + after) && r.StatusUpdate? && forall i :: 0 <= i < |after| ==> !after[i].StatusUpdate?
    ensures var view := ViewOf(asked, before + [r] + after);
            view.status == Some(r.status) && (r.taskId != "" ==> view.id == r.taskId)
  {
    hide LastPayload, LastFull, FirstDelta, Joined, ViewOf;
    var rs := before + [r] + after;
    NoPayloadView(asked, rs);
    StatusStays(before + [r], after, asked);
    Snoc(before, r);
  }

  /** Without a status: none, and the id asked for. */
  lemma NoStatusSeen(asked: Bytes, rs: seq<Response>)
    requires NoPayloads(rs) && forall i :: 0 <= i < |rs| ==> !rs[i].StatusUpdate?
    ensures ViewOf(asked, rs).status == None && ViewOf(asked, rs).id == asked
  {
    hide LastPayload, LastTaskId, LastStatus, LastFull, FirstDelta, Joined, ViewOf;
    NoPayloadView(asked, rs);
    StatusStays([], rs, asked);
    assert [] + rs == rs;
    NoneYet();
  }

  /** Without a payload: the last full artifact, whatever deltas came. */
  lemma FullSeen(asked: Bytes, before: seq<Response>, r: Response, after: seq<Response>)
    requires NoPayloads(before + [r] + after) && r.ArtifactUpdate? && r.last
    requires forall i :: 0 <= i < |after| ==> !(after[i].ArtifactUpdate? && after[i].last)
    ensures ViewOf(asked, before + [r] + after).artifacts == [r.artifact]
  {
    hide LastPayload, LastTaskId, LastStatus, FirstDelta, Joined, ViewOf;
    var rs := before + [r] + after;
    NoPayloadView(asked, rs);
    FullStays(before + [r], after);
    Snoc(before, r);
  }

  predicate Unfinished(rs: seq<Response>) {
    NoPayloads(rs) && forall i :: 0 <= i < |rs| ==> !(rs[i].ArtifactUpdate? && rs[i].last)
  }

  lemma UnfinishedFull(rs: seq<Response>)
    requires Unfinished(rs)
    ensures LastFull(rs) == None
  {
    hide LastFull;
    FullStays([], rs);
    assert [] + rs == rs;
    NoneYet();
  }

  function Identity(d: Response): Artifact
    requires Adds(d)
  {
    if d.MessageChunk? then Artifact("", []) else d.artifact
  }

  lemma OneFirst(rs: seq<Response>, d: Response)
    requires FirstDelta(rs) == None && Adds(d)
    ensures FirstDelta(rs + [d]) == Some(Identity(d))
  {
    Snoc(rs, d);
  }

  lemma FirstIs(quiet: seq<Response>, d: Response, more: seq<Response>)
    requires Adds(d) && forall i :: 0 <= i < |quiet| ==> !Adds(quiet[i])
    ensures FirstDelta(quiet + [d] + more) == Some(Identity(d))
  {
    hide FirstDelta, Adds;
    NoneFirst(quiet);
    OneFirst(quiet, d);
    FirstStays(quiet + [d], more);
  }

  lemma RestJoined(before: seq<Response>, rest: seq<Response>)
    requires before == [] || (rest != [] && Restarts(rest[0]))
    requires forall i :: 1 <= i < |rest| ==> !Restarts(rest[i])
    ensures Joined(before + rest) == AllAdded(rest)
  {
    hide Joined, Restarts, Added;
    NoneYet();
    if rest == [] {
      assert before + rest == [];
    } else {
      var r, more := rest[0], rest[1..];
      OneMore(before, r);
      JoinedIs(before + [r], more);
      assert before + [r] + more == before + rest;
    }
  }

  lemma OneMore(rs: seq<Response>, r: Response)
    ensures Joined(rs + [r]) == if Restarts(r) then Added(r) else Joined(rs) + Added(r)
  {
    Snoc(rs, r);
  }

  /** With deltas only: one artifact that has the first delta's identity and, as its one part,
      everything added since the last restart, the restart included. */
  lemma DeltasSeen(asked: Bytes, quiet: seq<Response>, d: Response, more: seq<Response>, before: seq<Response>, rest: seq<Response>)
    requires Unfinished(before + rest) && quiet + [d] + more == before + rest
    requires Adds(d) && forall i :: 0 <= i < |quiet| ==> !Adds(quiet[i])
    requires before == [] || (rest != [] && Restarts(rest[0]))
    requires forall i :: 1 <= i < |rest| ==> !Restarts(rest[i])
    ensures ViewOf(asked, before + rest).artifacts ==
            [if d.MessageChunk? then Artifact("", [TextPart(AllAdded(rest))]) else d.artifact.(parts := [TextPart(AllAdded(rest))])]
  {
    hide LastPayload, LastTaskId, LastStatus, FirstDelta, Joined, ViewOf, LastFull, Restarts, AllAdded;
    UnfinishedFull(before + rest);
    NoPayloadView(asked, before + rest);
    FirstIs(quiet, d, more);
    RestJoined(before, rest);
  }

  /** With none of these: no artifact. */
  lemma NothingSeen(asked: Bytes, rs: seq<Response>)
    requires Unfinished(rs) && forall i :: 0 <= i < |rs| ==> !Adds(rs[i])
    ensures ViewOf(asked, rs).artifacts == []
  {
    hide LastPayload, LastTaskId, LastStatus, FirstDelta, Joined, ViewOf, LastFull;
    UnfinishedFull(rs);
    NoPayloadView(asked, rs);
    NoneFirst(rs);
  }

  // ---- tasks that did not complete --------------------------------------------------------

  predicate Uncompleted(e: TaskEvent) {
    e.StatusEvent? || !e.last
  }

  lemma {:induction false} DeltasUncompleted(id: nat, texts: seq<Bytes>)
    ensures forall i :: 0 <= i < |TaskEngine.Deltas(id, texts)| ==> Uncompleted(TaskEngine.Deltas(id, texts)[i])
    decreases |texts|
  {
    if texts != [] {
      DeltasUncompleted(id, texts[..|texts| - 1]);
    }
  }

  lemma UncompletedLog(id: nat, out: seq<TaskEvent>, texts: seq<Bytes>, t: Task)
    requires TaskEngine.Lifecycle(id, out, texts, t) && t.status.state != Completed
    ensures out != [] && out[|out| - 1] == StatusEvent(t.status, true) && t.artifacts == []
    ensures forall i :: 0 <= i < |out| ==> Uncompleted(out[i])
  {
    var opening :| TaskEngine.Opening(id, opening, texts) && out == opening + TaskEngine.LastChunk(t) + [StatusEvent(t.status, true)];
    hide TaskEngine.Deltas;
    DeltasUncompleted(id, texts);
    forall i | 0 <= i < |out|
      ensures Uncompleted(out[i])
    {
      if 1 <= i < |opening| {
        assert out[i] == opening[1..][i - 1];
      }
    }
  }

  /** Any stream of uncompleted events that ends with a status. */
  lemma UncompletedView(codec: Codec, name: Bytes, es: seq<TaskEvent>, t: Task)
    requires es != [] && es[|es| - 1] == StatusEvent(t.status, true) && t.artifacts == []
    requires forall i :: 0 <= i < |es| ==> Uncompleted(es[i])
    ensures var view := ViewOf(name, Wired(codec, name, es));
            && view.id == name && view.status == Some(codec.status(t.status))
            && (view == Got(codec, name, t) <==> forall i :: 0 <= i < |es| ==> es[i].StatusEvent?)
  {
    hide LastPayload, LastTaskId, LastStatus, FirstDelta, Joined, ViewOf, LastFull;
    var rs := Wired(codec, name, es);
    assert Unfinished(rs);
    UnfinishedFull(rs);
    NoPayloadView(name, rs);
    SameId(codec, name, es);
    LastOne(rs);
    if forall i :: 0 <= i < |es| ==> es[i].StatusEvent? {
      NoneFirst(rs);
      assert Got(codec, name, t).artifacts == [];
    } else {
      var i :| 0 <= i < |es| && !es[i].StatusEvent?;
      SomeFirst(rs, i);
    }
  }

  lemma LastOne(rs: seq<Response>)
    requires rs != [] && rs[|rs| - 1].StatusUpdate?
    ensures LastStatus(rs) == Some(rs[|rs| - 1].status)
  {
  }

  lemma {:induction false} SomeFirst(rs: seq<Response>, i: nat)
    requires i < |rs| && Adds(rs[i])
    ensures FirstDelta(rs).Some?
    decreases |rs|
  {
    if i < |rs| - 1 {
      SomeFirst(rs[..|rs| - 1], i);
    }
  }

  /** Subscribers of a detached task that failed or was cancelled: found closed after the last
      event, however slow and however small the buffer, such a subscriber has the stored status;
      it has the task as GetTask returns it exactly if it was given no delta. */
  lemma UncompletedConverges(maxAge: int, maxTasks: int, engine: seq<TaskEngine.Step>, id: nat,
                             max: int, broker: seq<TaskSubscribe.Step>, c: nat, codec: Codec, name: Bytes)
    requires TaskEngine.Runs(TaskEngine.Initial(maxAge, maxTasks), engine)
    requires var s := TaskEngine.After(TaskEngine.Initial(maxAge, maxTasks), engine);
             && id in s.runners && id in s.store.tasks && s.runners[id].mode == TaskEngine.Detached
             && (s.runners[id].pc.Told? || s.runners[id].pc.Over?) && s.store.tasks[id].status.state != Completed
    requires TaskSubscribe.Runs(max, broker)
    requires var b := TaskSubscribe.Reach(max, broker);
             && b.log == TaskEngine.After(TaskEngine.Initial(maxAge, maxTasks), engine).runners[id].out
             && c < |b.subs| && b.subs[c].pc == TaskSubscribe.Ended && b.subs[c].seen == |b.log|
    ensures var t := TaskEngine.After(TaskEngine.Initial(maxAge, maxTasks), engine).store.tasks[id];
            var sub := TaskSubscribe.Reach(max, broker).subs[c];
            var given := sub.got + sub.extra;
            var view := ViewOf(name, Wired(codec, name, given));
            && view.id == name && view.status == Some(codec.status(t.status))
            && (view == Got(codec, name, t) <==> forall i :: 0 <= i < |given| ==> given[i].StatusEvent?)
  {
    hide TaskEngine.Runs, TaskEngine.After, TaskEngine.Lifecycle, TaskSubscribe.Runs, TaskSubscribe.Reach, ViewOf, Wired, Got, Uncompleted;
    var s := TaskEngine.After(TaskEngine.Initial(maxAge, maxTasks), engine);
    var b := TaskSubscribe.Reach(max, broker);
    var r := s.runners[id];
    TaskEngine.LifecycleTold(maxAge, maxTasks, engine, id);
    UncompletedLog(id, r.out, r.texts, r.pc.snap);
    TaskSubscribe.EndsOnStatus(max, broker, c);
    var given := b.subs[c].got + b.subs[c].extra;
    forall i | 0 <= i < |given|
      ensures Uncompleted(given[i])
    {
      assert given[i] in r.out;
    }
    UncompletedView(codec, name, given, r.pc.snap);
  }
}
