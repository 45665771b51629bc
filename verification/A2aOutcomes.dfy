/** What the A2A clients return, in terms of the events and of the reply alone. */
module A2aOutcomes {
  import opened Prelude
  import opened A2aTypes
  import opened A2aClient
  import Decimal

  // ---- texts ------------------------------------------------------------------------------

  function TextsOf(parts: seq<Part>): seq<Bytes> {
    seq(|parts|, i requires 0 <= i < |parts| => parts[i].text)
  }

  /** The text of a message or an artifact is the texts of its parts, in order. */
  lemma {:induction false} PartsTextJoins(parts: seq<Part>)
    ensures PartsText(parts) == Flatten(TextsOf(parts))
  {
    if parts != [] {
      PartsTextJoins(parts[1..]);
      assert TextsOf(parts)[1..] == TextsOf(parts[1..]);
    }
  }

  function AllParts(artifacts: seq<Artifact>): seq<Part> {
    Flatten(seq(|artifacts|, i requires 0 <= i < |artifacts| => artifacts[i].parts))
  }

  lemma {:induction false} PartsTextAppend(a: seq<Part>, b: seq<Part>)
    ensures PartsText(a + b) == PartsText(a) + PartsText(b)
  {
    if a == [] {
      assert a + b == b;
    } else {
      assert (a + b)[1..] == a[1..] + b;
      PartsTextAppend(a[1..], b);
    }
  }

  lemma {:induction false} ArtifactsJoin(artifacts: seq<Artifact>)
    ensures ArtifactsText(artifacts) == PartsText(AllParts(artifacts))
  {
    if artifacts != [] {
      ArtifactsJoin(artifacts[1..]);
      var all := seq(|artifacts|, i requires 0 <= i < |artifacts| => artifacts[i].parts);
      var rest := artifacts[1..];
      assert all[1..] == seq(|rest|, i requires 0 <= i < |rest| => rest[i].parts);
      PartsTextAppend(artifacts[0].parts, AllParts(rest));
    }
  }

  /** The text of a task is that of all parts of all its artifacts; only when there is none is it
      that of its status message. */
  lemma TaskTextIs(t: Task)
    ensures var text := Flatten(TextsOf(AllParts(t.artifacts)));
            TaskText(t) ==
            if text != "" then text
            else if t.status.message.Some? then Flatten(TextsOf(t.status.message.value)) else ""
  {
    hide ArtifactsText, PartsText, Flatten;
    ArtifactsJoin(t.artifacts);
    PartsTextJoins(AllParts(t.artifacts));
    if t.status.message.Some? {
      PartsTextJoins(t.status.message.value);
    }
  }

  /** Distinct tasks have distinct artifact ids. */
  lemma ArtifactIds(a: nat, b: nat)
    ensures ArtifactId(a) == ArtifactId(b) <==> a == b
    ensures |ArtifactId(a)| >= 15 && ArtifactId(a)[..5] == "task-" && ArtifactId(a)[|ArtifactId(a)| - 9..] == "-artifact"
  {
    hide Decimal.Format;
    if ArtifactId(a) == ArtifactId(b) {
      assert Decimal.Format(a) == ArtifactId(a)[5..|ArtifactId(a)| - 9];
      assert Decimal.Format(b) == ArtifactId(b)[5..|ArtifactId(b)| - 9];
      Decimal.FormatInjective(a, b);
    }
    Decimal.ParseFormat(a);
  }

  // ---- the streaming client ---------------------------------------------------------------

  predicate Broken(st: Status) {
    st.state == Failed || st.state == Canceled || st.state == Rejected
  }

  /** An event that ends the call. */
  predicate Stops(e: StreamEvent) {
    e.RpcError? || (e.TaskPayload? && Broken(e.task.status)) || (e.StatusUpdate? && Broken(e.status))
  }

  function Message(st: Status): Bytes {
    if st.message.Some? then Flatten(TextsOf(st.message.value)) else ""
  }

  /** An event with an authoritative text. */
  predicate Settles(e: StreamEvent) {
    || (e.ArtifactUpdate? && e.last)
    || (e.TaskPayload? && (e.task.status.state == Completed || e.task.status.state == InputRequired || e.task.status.state == AuthRequired))
  }

  /** An artifact delta that replaces what came before it. */
  predicate Restarts(e: StreamEvent) {
    e.ArtifactUpdate? && !e.last && !e.append
  }

  function Added(e: StreamEvent): Bytes {
    if e.MessageEvent? then PartsText(e.parts) else if e.ArtifactUpdate? && !e.last then PartsText(e.artifact.parts) else ""
  }

  function AllAdded(es: seq<StreamEvent>): Bytes {
    if es == [] then "" else Added(es[0]) + AllAdded(es[1..])
  }

  lemma StopsIff(e: StreamEvent)
    ensures Stops(e) <==> FailureOf(e).Some?
  {
  }

  /** The first event that stops the call decides it, whatever follows. */
  lemma StopDecides(before: seq<StreamEvent>, e: StreamEvent, after: seq<StreamEvent>, readError: Option<Bytes>)
    requires Stops(e) && forall i :: 0 <= i < |before| ==> !Stops(before[i])
    ensures StreamResult(before + [e] + after, readError) ==
            if e.RpcError? then Err(RpcFailed(e.text))
            else var st := if e.TaskPayload? then e.task.status else e.status; Err(TaskFailed(st.state, Message(st)))
  {
    hide FirstFailure, PartsText, Flatten;
    var events := before + [e] + after;
    forall j | 0 <= j < |before|
      ensures FailureOf(events[j]).None?
    {
      StopsIff(before[j]);
    }
    StopsIff(e);
    FailureAt(events, |before|);
    if !e.RpcError? {
      var st := if e.TaskPayload? then e.task.status else e.status;
      if st.message.Some? {
        PartsTextJoins(st.message.value);
      }
    }
  }

  lemma Unstopped(events: seq<StreamEvent>, readError: Option<Bytes>)
    requires forall i :: 0 <= i < |events| ==> !Stops(events[i])
    ensures StreamResult(events, readError) == if readError.Some? then Err(ReadFailed(readError.value)) else Ok(Assembled(Chunks(events)))
  {
    hide FirstFailure, FailureOf, Stops, Chunks, Assembled;
    forall i | 0 <= i < |events|
      ensures FailureOf(events[i]).None?
    {
      StopsIff(events[i]);
    }
    NoFailure(events);
  }

  /** A stream that breaks off is its read error, whatever text came before. */
  lemma BrokenOff(events: seq<StreamEvent>, error: Bytes)
    requires forall i :: 0 <= i < |events| ==> !Stops(events[i])
    ensures StreamResult(events, Some(error)) == Err(ReadFailed(error))
  {
    Unstopped(events, Some(error));
  }

  function SettledText(e: StreamEvent): Bytes
    requires Settles(e)
  {
    if e.ArtifactUpdate? then PartsText(e.artifact.parts) else TaskText(e.task)
  }

  /** What one event does to the joined deltas and to the final text. */
  lemma OneMore(events: seq<StreamEvent>, e: StreamEvent)
    ensures FinalText(Chunks(events + [e])) == if Settles(e) then SettledText(e) else FinalText(Chunks(events))
    ensures Joined(Chunks(events + [e])) == if Restarts(e) then Added(e) else Joined(Chunks(events)) + Added(e)
  {
    hide Chunks, FinalText, Joined, PartsText, TaskText;
    ChunksSnoc(events, e);
    if ChunkOf(e) == [] {
      assert Chunks(events) + [] == Chunks(events);
    } else {
      ToldSnoc(Chunks(events), ChunkOf(e)[0]);
    }
  }

  lemma {:induction false} FinalIs(events: seq<StreamEvent>, more: seq<StreamEvent>)
    requires forall i :: 0 <= i < |more| ==> !Settles(more[i])
    ensures FinalText(Chunks(events + more)) == FinalText(Chunks(events))
    decreases |more|
  {
    hide Chunks, FinalText, Joined, Settles;
    if more == [] {
      assert events + more == events;
    } else {
      var front, e := more[..|more| - 1], more[|more| - 1];
      FinalIs(events, front);
      OneMore(events + front, e);
      assert events + front + [e] == events + more;
    }
  }

  lemma {:induction false} JoinedIs(events: seq<StreamEvent>, more: seq<StreamEvent>)
    requires forall i :: 0 <= i < |more| ==> !Restarts(more[i])
    ensures Joined(Chunks(events + more)) == Joined(Chunks(events)) + AllAdded(more)
    decreases |more|
  {
    hide Chunks, FinalText, Joined, Restarts, Added;
    if more == [] {
      assert events + more == events;
    } else {
      var e, rest := more[0], more[1..];
      OneMore(events, e);
      JoinedIs(events + [e], rest);
      assert events + [e] + rest == events + more;
    }
  }

  lemma NothingAssembled()
    ensures FinalText(Chunks([])) == "" && Joined(Chunks([])) == ""
  {
  }

  /** The last authoritative text, if not empty, is the result, whatever deltas came. */
  lemma LastSettledWins(before: seq<StreamEvent>, e: StreamEvent, after: seq<StreamEvent>)
    requires Settles(e) && SettledText(e) != "" && forall i :: 0 <= i < |after| ==> !Settles(after[i])
    requires forall i :: 0 <= i < |before + [e] + after| ==> !Stops((before + [e] + after)[i])
    ensures StreamResult(before + [e] + after, None) == Ok(SettledText(e))
  {
    hide Chunks, FinalText, Joined, Stops, SettledText, Settles;
    Unstopped(before + [e] + after, None);
    OneMore(before, e);
    FinalIs(before + [e], after);
  }

  /** Otherwise it is everything added since the last restart, the restart included. */
  lemma DeltasWin(before: seq<StreamEvent>, rest: seq<StreamEvent>)
    requires forall i :: 0 <= i < |before + rest| ==> !Stops((before + rest)[i])
    requires forall i :: 0 <= i < |before + rest| && Settles((before + rest)[i]) ==> SettledText((before + rest)[i]) == ""
    requires before == [] || (rest != [] && Restarts(rest[0]))
    requires forall i :: 1 <= i < |rest| ==> !Restarts(rest[i])
    ensures StreamResult(before + rest, None) == Ok(AllAdded(rest))
  {
    hide Chunks, FinalText, Joined, Stops, Settles, SettledText, Restarts, AllAdded;
    Unstopped(before + rest, None);
    EmptyFinal(before + rest);
    RestJoined(before, rest);
  }

  lemma RestJoined(before: seq<StreamEvent>, rest: seq<StreamEvent>)
    requires before == [] || (rest != [] && Restarts(rest[0]))
    requires forall i :: 1 <= i < |rest| ==> !Restarts(rest[i])
    ensures Joined(Chunks(before + rest)) == AllAdded(rest)
  {
    hide Chunks, Joined, Restarts, Added;
    NothingAssembled();
    if rest == [] {
      assert before + rest == [];
    } else {
      var e, more := rest[0], rest[1..];
      OneMore(before, e);
      JoinedIs(before + [e], more);
      assert before + [e] + more == before + rest;
    }
  }

  lemma {:induction false} EmptyFinal(events: seq<StreamEvent>)
    requires forall i :: 0 <= i < |events| && Settles(events[i]) ==> SettledText(events[i]) == ""
    ensures FinalText(Chunks(events)) == ""
    decreases |events|
  {
    hide Chunks, FinalText, Joined, Settles, SettledText;
    if events == [] {
      NothingAssembled();
    } else {
      var front, e := events[..|events| - 1], events[|events| - 1];
      EmptyFinal(front);
      OneMore(front, e);
      assert front + [e] == events;
    }
  }

  // ---- against the blocking client --------------------------------------------------------

  /** A direct message comes out alike, sent whole or streamed in any cut of its parts. */
  lemma MessageAgrees(parts: seq<Part>, cuts: seq<seq<Part>>)
    requires Flatten(cuts) == parts
    ensures StreamResult(seq(|cuts|, i requires 0 <= i < |cuts| => MessageEvent(cuts[i])), None)
            == SendMessage(Ok(MessageReply(parts))) == Ok(PartsText(parts))
  {
    hide StreamResult, AllAdded, PartsText, Flatten;
    var events := seq(|cuts|, i requires 0 <= i < |cuts| => MessageEvent(cuts[i]));
    assert [] + events == events;
    DeltasWin([], events);
    MessagesAdd(cuts);
  }

  lemma {:induction false} MessagesAdd(cuts: seq<seq<Part>>)
    ensures AllAdded(seq(|cuts|, i requires 0 <= i < |cuts| => MessageEvent(cuts[i]))) == PartsText(Flatten(cuts))
  {
    if cuts != [] {
      var rest := cuts[1..];
      MessagesAdd(rest);
      PartsTextAppend(cuts[0], Flatten(rest));
      var events := seq(|cuts|, i requires 0 <= i < |cuts| => MessageEvent(cuts[i]));
      assert events[1..] == seq(|rest|, i requires 0 <= i < |rest| => MessageEvent(rest[i]));
    }
  }

  /** A task streamed as one snapshot comes out as it does from the blocking call, unless it is
      neither settled nor broken and has text: the stream then has no text yet. */
  lemma SnapshotAgrees(t: Task)
    ensures StreamResult([TaskPayload(t)], None) == SendMessage(Ok(TaskReply(t)))
            <==> (t.status.state != Working && t.status.state != Submitted) || TaskText(t) == ""
    ensures !Broken(t.status) ==> SendMessage(Ok(TaskReply(t))) == Ok(TaskText(t))
    ensures Broken(t.status) ==> SendMessage(Ok(TaskReply(t))) == Err(TaskFailed(t.status.state, Message(t.status)))
  {
    hide TaskText, AllAdded, StreamResult, PartsText, Flatten;
    var e := TaskPayload(t);
    assert [] + [e] + [] == [e] && [] + [e] == [e];
    if t.status.message.Some? {
      PartsTextJoins(t.status.message.value);
    }
    if Broken(t.status) {
      StopDecides([], e, [], None);
    } else if Settles(e) && TaskText(t) != "" {
      LastSettledWins([], e, []);
    } else {
      DeltasWin([], [e]);
      assert AllAdded([e]) == "" by {
        NoneAdded(e);
      }
    }
  }

  lemma NoneAdded(e: StreamEvent)
    requires e.TaskPayload?
    ensures AllAdded([e]) == ""
  {
    assert [e][1..] == [];
  }

  /** An error reply is that error. */
  lemma ErrorReply(error: Bytes)
    ensures SendMessage(Err(error)) == StreamResult([RpcError(error)], None) == Err(RpcFailed(error))
  {
    assert [] + [RpcError(error)] + [] == [RpcError(error)];
    StopDecides([], RpcError(error), [], None);
  }
}
