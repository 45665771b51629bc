/** What the reader does with a frame, and that a reply it takes gets to the caller. */
module RpcDelivery {
  import opened Prelude
  import opened Decimal
  import opened RpcClient
  import opened RpcProtocol

  /** A frame that is not a response: it does not decode, or it carries a method and neither a
      result nor an error. */
  predicate Skippable(f: Frame) {
    !f.decodes || (f.request != "" && !f.hasResult && !f.hasError)
  }

  /** Skipped frames and replies nobody waits for change nothing. */
  lemma SkippedOrStray(s: State, frame: Frame)
    requires s.reader == Reading && (Skippable(frame) || frame.id !in s.table.pending)
    ensures Enabled(s, Take(frame)) && Apply(s, Take(frame)) == s
  {
    assert frame.id !in s.table.pending ==> s.table.pending - {frame.id} == s.table.pending;
  }

  /** Any other frame with the id of a pending call goes to that call's channel, and to no
      other: the send is possible, and its body then waits there. */
  lemma ReplyTaken(steps: seq<Step>, n: nat, frame: Frame)
    requires Runs(steps) && After(steps).reader == Reading && Format(n) in After(steps).table.pending
    requires !Skippable(frame) && frame.id == Format(n)
    ensures var s := After(steps);
            && n in s.calls && Enabled(s, Take(frame))
            && var t := Apply(s, Take(frame));
               && t.reader == Sending(n, Reply(Format(n), frame.body)) && t.calls == s.calls
               && t.table.pending == s.table.pending - {Format(n)} && t.table.chans == s.table.chans
               && Enabled(t, Send)
               && var u := Apply(t, Send);
                  u.reader == Reading && u.calls == s.calls && Delivered(u, n, frame.body)
  {
    hide Format, Inv, Runs, After;
    var s := After(steps);
    RunKeepsInv(steps);
    OwnEntry(s, n);
    StepKeepsInv(s, Take(frame));
    SendPossible(Apply(s, Take(frame)));
  }

  lemma OwnEntry(s: State, n: nat)
    requires Inv(s) && Format(n) in s.table.pending
    ensures s.table.pending[Format(n)] == n && n in s.calls && n in s.table.chans && Live(s.calls[n]) && Untouched(s.table.chans[n])
  {
    hide Format, Parse, Inv;
    InvEntry(s, Format(n));
    ParseFormat(n);
    ParseFormat(s.table.pending[Format(n)]);
  }

  lemma SendPossible(s: State)
    requires Inv(s) && s.reader.Sending?
    ensures Enabled(s, Send)
  {
    hide Format;
    InvWhole(s);
  }

  /** The reply waits in the channel of a call that has not returned. */
  predicate Delivered(s: State, n: nat, body: int) {
    && n in s.calls && n in s.table.chans && !s.calls[n].Returned? && s.calls[n] != Allocated
    && s.table.chans[n].slot == Some(Reply(Format(n), body))
  }

  /** It stays there, whatever else happens, until the call returns: with that reply, or because
      its caller gave up. */
  lemma {:induction false} DeliveredStays(s: State, more: seq<Step>, n: nat, body: int)
    requires Inv(s) && Delivered(s, n, body) && RunsFrom(s, more)
    ensures var t := AfterFrom(s, more);
            || Delivered(t, n, body)
            || (n in t.calls && t.calls[n].Returned?
                && (t.calls[n].result == Answer(Reply(Format(n), body)) || t.calls[n].result == WriteFailed || t.calls[n].result == Cancelled))
    decreases |more|
  {
    hide Inv, Delivered, Apply, Enabled;
    if more != [] {
      StepKeepsInv(s, more[0]);
      DeliveredStep(s, more[0], n, body);
      if Delivered(Apply(s, more[0]), n, body) {
        DeliveredStays(Apply(s, more[0]), more[1..], n, body);
      } else {
        ReturnedStays(Apply(s, more[0]), more[1..], n, Apply(s, more[0]).calls[n].result);
      }
    }
  }

  lemma DeliveredStep(s: State, step: Step, n: nat, body: int)
    requires Inv(s) && Delivered(s, n, body) && Enabled(s, step)
    ensures var t := Apply(s, step);
            || Delivered(t, n, body)
            || (n in t.calls && t.calls[n].Returned?
                && (t.calls[n].result == Answer(Reply(Format(n), body)) || t.calls[n].result == WriteFailed || t.calls[n].result == Cancelled))
  {
    hide Inv, Format, Parse;
    InvCall(s, n);
    InvWhole(s);
    if step.Begin? {
      FreshNumber(s);
    }
  }

  lemma FreshNumber(s: State)
    requires Inv(s)
    ensures s.nextId + 1 !in s.calls
  {
    hide Format;
  }

  lemma {:induction false} ReturnedStays(s: State, more: seq<Step>, n: nat, result: Outcome)
    requires Inv(s) && n in s.calls && s.calls[n] == Returned(result) && RunsFrom(s, more)
    ensures n in AfterFrom(s, more).calls && AfterFrom(s, more).calls[n] == Returned(result)
    decreases |more|
  {
    hide Inv, Format;
    if more != [] {
      FreshNumber(s);
      StepKeepsInv(s, more[0]);
      ReturnedStays(Apply(s, more[0]), more[1..], n, result);
    }
  }

  predicate RunsFrom(s: State, more: seq<Step>)
    decreases |more|
  {
    more == [] || (Enabled(s, more[0]) && RunsFrom(Apply(s, more[0]), more[1..]))
  }

  function AfterFrom(s: State, more: seq<Step>): State
    requires RunsFrom(s, more)
    decreases |more|
  {
    if more == [] then s else AfterFrom(Apply(s, more[0]), more[1..])
  }

  /** A waiting caller whose reply is there can return at once, with that reply. */
  lemma DeliveredReturns(s: State, n: nat, body: int)
    requires Delivered(s, n, body) && s.calls[n] == Waiting
    ensures Enabled(s, Receive(n)) && Apply(s, Receive(n)).calls[n] == Returned(Answer(Reply(Format(n), body)))
  {
    hide Format;
  }

  /** From the transport to the caller: a reply taken for call n, and then any other steps. The
      caller has it, can take it the moment it waits, or gave up. */
  lemma ReplyReaches(steps: seq<Step>, n: nat, frame: Frame, more: seq<Step>)
    requires Runs(steps) && After(steps).reader == Reading && Format(n) in After(steps).table.pending
    requires !Skippable(frame) && frame.id == Format(n)
    requires var t := Apply(After(steps), Take(frame)); Enabled(t, Send) && RunsFrom(Apply(t, Send), more)
    ensures var u := AfterFrom(Apply(Apply(After(steps), Take(frame)), Send), more);
            var answer := Answer(Reply(Format(n), frame.body));
            && n in u.calls
            && (u.calls[n].Returned? ==> u.calls[n].result == answer || u.calls[n].result == WriteFailed || u.calls[n].result == Cancelled)
            && (u.calls[n] == Waiting ==> Enabled(u, Receive(n)) && Apply(u, Receive(n)).calls[n] == Returned(answer))
  {
    hide Inv, Format, Apply, Enabled, Runs, After, RunsFrom, AfterFrom;
    var s := After(steps);
    RunKeepsInv(steps);
    ReplyTaken(steps, n, frame);
    var t := Apply(s, Take(frame));
    StepKeepsInv(s, Take(frame));
    StepKeepsInv(t, Send);
    DeliveredStays(Apply(t, Send), more, n, frame.body);
    var u := AfterFrom(Apply(t, Send), more);
    if u.calls[n] == Waiting {
      DeliveredReturns(u, n, frame.body);
    }
  }

  /** After a read failure a call that had not registered fails at once as closed, and one that
      waits without a reply fails with the error the reader met. */
  lemma FailedCalls(steps: seq<Step>, n: nat)
    requires Runs(steps) && After(steps).reader.Stopped? && n in After(steps).calls
    ensures var s := After(steps);
            && s.table.readErr.Some?
            && (s.calls[n] == Allocated ==> Apply(s, Register(n)) == SetCall(s, n, Returned(ClientClosed)))
            && (s.calls[n] == Waiting ==> Enabled(s, Receive(n)))
            && (s.calls[n] == Waiting && s.table.chans[n].slot.None? ==>
                  Apply(s, Receive(n)) == SetCall(s, n, Returned(ReadFailed(s.table.readErr))))
  {
    hide Format, Parse, Runs, After;
    RunKeepsInv(steps);
    InvWhole(After(steps));
    InvCall(After(steps), n);
    StoppedState(After(steps));
  }

  /** The error the reader met is the one every later caller sees. */
  lemma ErrorKept(s: State, err: int, more: seq<Step>)
    requires Inv(s) && Enabled(s, ReadFailure(err)) && RunsFrom(Apply(s, ReadFailure(err)), more)
    ensures AfterFrom(Apply(s, ReadFailure(err)), more).table.readErr == Some(err)
  {
    ErrorStays(Apply(s, ReadFailure(err)), more, err);
  }

  lemma {:induction false} ErrorStays(s: State, more: seq<Step>, err: int)
    requires s.reader.Stopped? && s.table.readErr == Some(err) && RunsFrom(s, more)
    ensures AfterFrom(s, more).table.readErr == Some(err)
    decreases |more|
  {
    if more != [] {
      ErrorStays(Apply(s, more[0]), more[1..], err);
    }
  }

  // ---- a call from start to end -----------------------------------------------------------

  predicate Two(s: State, a: Step, b: Step) {
    Enabled(s, a) && Enabled(Apply(s, a), b)
  }

  function AfterTwo(s: State, a: Step, b: Step): State
    requires Two(s, a, b)
  {
    Apply(Apply(s, a), b)
  }

  /** From any reachable state of an open client whose reader is free: a new call can register,
      write its request, have it answered and return with the body of that answer, its entry
      gone. */
  lemma CallAnswered(steps: seq<Step>, body: int)
    requires Runs(steps) && After(steps).reader == Reading
    ensures var s := After(steps);
            var n := s.nextId + 1;
            var reply := Frame(true, "", true, false, Format(n), body);
            && Two(s, Begin, Register(n)) && var a := AfterTwo(s, Begin, Register(n));
            a.table.pending == s.table.pending[Format(n) := n] &&
            Two(a, WriteDone(n), Take(reply)) && var b := AfterTwo(a, WriteDone(n), Take(reply));
            Two(b, Send, Receive(n)) && var c := AfterTwo(b, Send, Receive(n));
            c.calls[n] == Returned(Answer(Reply(Format(n), body))) && c.table.pending == s.table.pending && c.reader == Reading
  {
    hide Format, Runs, After, Two, AfterTwo, Apply, Inv;
    var s := After(steps);
    RunKeepsInv(steps);
    InvWhole(s);
    FreshNumber(s);
    NewKey(s, s.nextId + 1);
    CallRuns(s, body);
  }

  lemma CallRuns(s: State, body: int)
    requires s.reader == Reading && !s.table.closed && s.nextId + 1 !in s.calls && Format(s.nextId + 1) !in s.table.pending
    ensures var n := s.nextId + 1;
            var reply := Frame(true, "", true, false, Format(n), body);
            && Two(s, Begin, Register(n)) && var a := AfterTwo(s, Begin, Register(n));
            a.table.pending == s.table.pending[Format(n) := n] &&
            Two(a, WriteDone(n), Take(reply)) && var b := AfterTwo(a, WriteDone(n), Take(reply));
            Two(b, Send, Receive(n)) && var c := AfterTwo(b, Send, Receive(n));
            c.calls[n] == Returned(Answer(Reply(Format(n), body))) && c.table.pending == s.table.pending && c.reader == Reading
  {
    hide Format;
    var n := s.nextId + 1;
    assert s.table.pending[Format(n) := n] - {Format(n)} == s.table.pending;
  }

  /** A call can give up while it writes, because of the write or of its context, and while it
      waits, because of its context only; it then returns with that reason, its entry gone. */
  lemma CallGivesUp(s: State, n: nat, why: Outcome)
    requires n in s.calls
    ensures Two(s, GiveUp(n, why), Remove(n)) <==>
            (s.calls[n] == Writing && (why == WriteFailed || why == Cancelled)) || (s.calls[n] == Waiting && why == Cancelled)
    ensures Two(s, GiveUp(n, why), Remove(n)) ==>
              var t := AfterTwo(s, GiveUp(n, why), Remove(n));
              t.calls == s.calls[n := Returned(why)] && t.table == s.table.(pending := s.table.pending - {Format(n)}) && t.reader == s.reader
  {
    hide Format;
  }
}
