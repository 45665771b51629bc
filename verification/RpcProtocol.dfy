/** Every interleaving of internal/rpc/client.go: callers, cancellations, the reader, stray or
    repeated replies and a failing transport. One step is one critical section or one channel
    operation. */
module RpcProtocol {
  import opened Prelude
  import opened Decimal
  import opened RpcClient

  datatype Outcome = Answer(reply: Reply) | ClientClosed | ReadFailed(err: Option<int>) | WriteFailed | Cancelled

  /** Where a Call is: before its critical section, writing the request, waiting for the reply,
      past a select that gave up, or back at its caller. */
  datatype Pc = Allocated | Writing | Waiting | Abandoning(why: Outcome) | Returned(result: Outcome)

  datatype Reader = Reading | Sending(ch: nat, reply: Reply) | Stopped

  datatype State = State(nextId: nat, table: Table, calls: map<nat, Pc>, reader: Reader)

  datatype Step =
    | Begin
    | Register(n: nat)
    | WriteDone(n: nat)
    | GiveUp(n: nat, why: Outcome)
    | Remove(n: nat)
    | Receive(n: nat)
    | Take(frame: Frame)
    | Send
    | ReadFailure(err: int)

  const INITIAL := State(0, Table(map[], false, None, map[]), map[], Reading)

  predicate Enabled(s: State, step: Step) {
    match step
    case Begin => true
    case Register(n) => n in s.calls && s.calls[n] == Allocated
    case WriteDone(n) => n in s.calls && s.calls[n] == Writing
    case GiveUp(n, why) =>
      n in s.calls && ((s.calls[n] == Writing && (why == WriteFailed || why == Cancelled)) ||
                       (s.calls[n] == Waiting && why == Cancelled))
    case Remove(n) => n in s.calls && s.calls[n].Abandoning?
    case Receive(n) =>
      && n in s.calls && s.calls[n] == Waiting && n in s.table.chans
      && (s.table.chans[n].slot.Some? || s.table.chans[n].closes > 0)
    case Take(frame) => s.reader == Reading
    case Send => s.reader.Sending? && s.reader.ch in s.table.chans && s.table.chans[s.reader.ch].slot.None?
    case ReadFailure(_) => s.reader == Reading
  }

  function SetCall(s: State, n: nat, pc: Pc): State {
    s.(calls := s.calls[n := pc])
  }

  function Apply(s: State, step: Step): State
    requires Enabled(s, step)
  {
    match step
    case Begin =>
      var n := s.nextId + 1;
      State(n, s.table.(chans := s.table.chans[n := FRESH]), s.calls[n := Allocated], s.reader)
    case Register(n) =>
      if s.table.closed then SetCall(s, n, Returned(ClientClosed))
      else SetCall(s.(table := Registered(s.table, n)), n, Writing)
    case WriteDone(n) => SetCall(s, n, Waiting)
    case GiveUp(n, why) => SetCall(s, n, Abandoning(why))
    case Remove(n) => SetCall(s.(table := Removed(s.table, Format(n))), n, Returned(s.calls[n].why))
    case Receive(n) =>
      var c := s.table.chans[n];
      if c.slot.Some? then
        SetCall(s.(table := s.table.(chans := s.table.chans[n := c.(slot := None)])), n, Returned(Answer(c.slot.value)))
      else SetCall(s, n, Returned(ReadFailed(s.table.readErr)))
    case Take(frame) =>
      if !IsReply(frame) || frame.id !in s.table.pending then
        (if IsReply(frame) then s.(table := Removed(s.table, frame.id)) else s)
      else
        s.(table := Removed(s.table, frame.id), reader := Sending(s.table.pending[frame.id], Reply(frame.id, frame.body)))
    case Send =>
      var n := s.reader.ch;
      s.(table := s.table.(chans := s.table.chans[n := Sent(s.table.chans[n], s.reader.reply)]), reader := Reading)
    case ReadFailure(err) => s.(table := Failed(s.table, err), reader := Stopped)
  }

  // ---- runs -------------------------------------------------------------------------------

  predicate Runs(steps: seq<Step>)
    decreases |steps|, 0
  {
    steps == [] || (Runs(Front(steps)) && Enabled(After(Front(steps)), steps[|steps| - 1]))
  }

  function After(steps: seq<Step>): State
    requires Runs(steps)
    decreases |steps|, 1
  {
    if steps == [] then INITIAL else Apply(After(Front(steps)), steps[|steps| - 1])
  }

  // ---- the invariant ----------------------------------------------------------------------

  predicate Live(pc: Pc) {
    pc.Writing? || pc.Waiting? || pc.Abandoning?
  }

  /** The channel of call n holds only replies to n, and was sent to or closed at most once. */
  predicate ChanOk(s: State, n: nat)
    requires n in s.table.chans && n in s.calls
  {
    var c := s.table.chans[n];
    && c.sends + c.closes <= 1
    && (c.slot.Some? ==> c.sends == 1 && c.slot.value.id == Format(n))
    && (c.closes > 0 ==> s.table.closed)
    && (!s.calls[n].Returned? && c.sends == 1 ==> c.slot.Some?)
  }

  /** A pending entry names an unresolved call whose channel is untouched. */
  predicate PendingOk(s: State, k: Bytes)
    requires k in s.table.pending
  {
    var n := s.table.pending[k];
    n in s.calls && n in s.table.chans && k == Format(n) && Live(s.calls[n]) && Untouched(s.table.chans[n])
  }

  predicate ReaderOk(s: State) {
    && (s.reader.Stopped? <==> s.table.closed)
    && (s.table.closed <==> s.table.readErr.Some?)
    && (s.reader.Sending? ==>
          var n := s.reader.ch;
          && n in s.calls && n in s.table.chans && s.calls[n] != Allocated
          && s.reader.reply.id == Format(n) && Format(n) !in s.table.pending && Untouched(s.table.chans[n]))
  }

  /** A caller that still waits has something coming: an entry, a send under way, a value or a
      close. */
  predicate CallOk(s: State, n: nat)
    requires n in s.calls && n in s.table.chans
  {
    match s.calls[n]
    case Allocated => Untouched(s.table.chans[n]) && Format(n) !in s.table.pending
    case Returned(Answer(r)) => r.id == Format(n)
    case Writing => Coming(s, n)
    case Waiting => Coming(s, n)
    case Abandoning(why) => why == WriteFailed || why == Cancelled
    case Returned(ReadFailed(err)) => err == s.table.readErr && s.table.closed
    case Returned(_) => true
  }

  predicate Coming(s: State, n: nat)
    requires n in s.table.chans
  {
    var c := s.table.chans[n];
    Format(n) in s.table.pending || (s.reader.Sending? && s.reader.ch == n) || c.sends == 1 || c.closes == 1
  }

  ghost predicate Inv(s: State) {
    && s.calls.Keys == s.table.chans.Keys
    && (forall n :: n in s.calls ==> 1 <= n <= s.nextId)
    && (forall n :: n in s.calls ==> ChanOk(s, n) && CallOk(s, n))
    && (forall k :: k in s.table.pending ==> PendingOk(s, k))
    && ReaderOk(s)
    && (s.table.closed ==> s.table.pending == map[])
  }

  lemma NewKey(s: State, n: nat)
    requires Inv(s) && n !in s.calls
    ensures Format(n) !in s.table.pending
  {
    if Format(n) in s.table.pending {
      assert PendingOk(s, Format(n));
      FormatInjective(n, s.table.pending[Format(n)]);
    }
  }

  /** Distinct calls have distinct keys. */
  lemma KeysDistinct()
    ensures forall n: nat {:trigger Format(n)} :: Parse(Format(n)) == n
  {
    forall n: nat
      ensures Parse(Format(n)) == n
    {
      ParseFormat(n);
    }
  }

  /** Nothing but call n and its entry changed. */
  ghost predicate OnlyCall(s: State, s': State, n: nat) {
    && s'.reader == s.reader && s'.table.closed == s.table.closed && s'.table.readErr == s.table.readErr
    && s'.calls.Keys == s.calls.Keys + {n} && s'.table.chans.Keys == s.table.chans.Keys + {n}
    && (forall m :: m in s.calls && m != n ==> s'.calls[m] == s.calls[m])
    && (forall m :: m in s.table.chans && m != n ==> s'.table.chans[m] == s.table.chans[m])
    && (forall k :: k in s.table.pending && k != Format(n) ==> k in s'.table.pending && s'.table.pending[k] == s.table.pending[k])
    && (forall k :: k in s'.table.pending && k != Format(n) ==> k in s.table.pending)
  }

  // What the invariant says of one call, of one entry, and of the whole.

  lemma InvCall(s: State, n: nat)
    requires Inv(s) && n in s.calls
    ensures n in s.table.chans && ChanOk(s, n) && CallOk(s, n) && 1 <= n <= s.nextId
  {
  }

  lemma InvEntry(s: State, k: Bytes)
    requires Inv(s) && k in s.table.pending
    ensures PendingOk(s, k)
  {
  }

  lemma InvWhole(s: State)
    requires Inv(s)
    ensures s.calls.Keys == s.table.chans.Keys && ReaderOk(s) && (s.table.closed ==> s.table.pending == map[])
  {
  }

  lemma CallKept(s: State, s': State, m: nat)
    requires m in s.calls && m in s.table.chans && ChanOk(s, m) && CallOk(s, m)
    requires m in s'.calls && m in s'.table.chans
    requires s'.calls[m] == s.calls[m] && s'.table.chans[m] == s.table.chans[m]
    requires s'.reader == s.reader && s'.table.closed == s.table.closed && s'.table.readErr == s.table.readErr
    requires Format(m) in s'.table.pending <==> Format(m) in s.table.pending
    ensures ChanOk(s', m) && CallOk(s', m)
  {
  }

  lemma EntryKept(s: State, s': State, k: Bytes)
    requires k in s.table.pending && PendingOk(s, k)
    requires k in s'.table.pending && s'.table.pending[k] == s.table.pending[k]
    requires var m := s.table.pending[k];
             m in s'.calls && m in s'.table.chans && s'.calls[m] == s.calls[m] && s'.table.chans[m] == s.table.chans[m]
    ensures PendingOk(s', k)
  {
  }

  lemma OthersKept(s: State, s': State, n: nat)
    requires Inv(s) && OnlyCall(s, s', n)
    ensures forall m :: m in s.calls && m != n ==> m in s'.calls && m in s'.table.chans && ChanOk(s', m) && CallOk(s', m)
    ensures forall k :: k in s'.table.pending && k != Format(n) ==> PendingOk(s', k)
  {
    hide Format, Inv, ChanOk, CallOk;
    InvWhole(s);
    forall m | m in s.calls && m != n
      ensures m in s'.calls && m in s'.table.chans && ChanOk(s', m) && CallOk(s', m)
    {
      InvCall(s, m);
      if Format(m) == Format(n) {
        FormatInjective(m, n);
      }
      CallKept(s, s', m);
    }
    forall k | k in s'.table.pending && k != Format(n)
      ensures PendingOk(s', k)
    {
      InvEntry(s, k);
      EntryKept(s, s', k);
    }
  }

  /** The invariant after a step that touched call n only. */
  lemma Assemble(s: State, s': State, n: nat)
    requires Inv(s) && OnlyCall(s, s', n)
    requires 1 <= n <= s'.nextId && s.nextId <= s'.nextId
    requires ChanOk(s', n) && CallOk(s', n)
    requires Format(n) in s'.table.pending ==> PendingOk(s', Format(n))
    requires ReaderOk(s') && (s'.table.closed ==> s'.table.pending == map[])
    ensures Inv(s')
  {
    hide Format, ChanOk, CallOk, PendingOk, ReaderOk;
    OthersKept(s, s', n);
  }

  lemma BeginKeeps(s: State)
    requires Inv(s)
    ensures Inv(Apply(s, Begin))
  {
    var n := s.nextId + 1;
    NewKey(s, n);
    InvWhole(s);
    if s.reader.Sending? {
      InvCall(s, s.reader.ch);
    }
    assert n !in s.calls;
    hide Format, Inv;
    Assemble(s, Apply(s, Begin), n);
  }

  lemma RegisterKeeps(s: State, n: nat)
    requires Inv(s) && Enabled(s, Register(n))
    ensures Inv(Apply(s, Register(n)))
  {
    hide Format, Inv;
    InvWhole(s);
    InvCall(s, n);
    if s.reader.Sending? && Format(s.reader.ch) == Format(n) {
      FormatInjective(s.reader.ch, n);
    }
    Assemble(s, Apply(s, Register(n)), n);
  }

  lemma WriteDoneKeeps(s: State, n: nat)
    requires Inv(s) && Enabled(s, WriteDone(n))
    ensures Inv(Apply(s, WriteDone(n)))
  {
    hide Format, Inv;
    InvWhole(s);
    InvCall(s, n);
    if Format(n) in s.table.pending {
      InvEntry(s, Format(n));
      FormatInjective(s.table.pending[Format(n)], n);
    }
    Assemble(s, Apply(s, WriteDone(n)), n);
  }

  lemma GiveUpKeeps(s: State, n: nat, why: Outcome)
    requires Inv(s) && Enabled(s, GiveUp(n, why))
    ensures Inv(Apply(s, GiveUp(n, why)))
  {
    hide Format, Inv;
    InvWhole(s);
    InvCall(s, n);
    if Format(n) in s.table.pending {
      InvEntry(s, Format(n));
      FormatInjective(s.table.pending[Format(n)], n);
    }
    Assemble(s, Apply(s, GiveUp(n, why)), n);
  }

  lemma RemoveKeeps(s: State, n: nat)
    requires Inv(s) && Enabled(s, Remove(n))
    ensures Inv(Apply(s, Remove(n)))
  {
    hide Format, Inv;
    InvWhole(s);
    InvCall(s, n);
    if Format(n) in s.table.pending {
      InvEntry(s, Format(n));
      FormatInjective(s.table.pending[Format(n)], n);
    }
    Assemble(s, Apply(s, Remove(n)), n);
  }

  lemma ReceiveKeeps(s: State, n: nat)
    requires Inv(s) && Enabled(s, Receive(n))
    ensures Inv(Apply(s, Receive(n)))
  {
    hide Format, Inv;
    InvWhole(s);
    InvCall(s, n);
    if Format(n) in s.table.pending {
      InvEntry(s, Format(n));
      FormatInjective(s.table.pending[Format(n)], n);
    }
    Assemble(s, Apply(s, Receive(n)), n);
  }

  lemma TakeKeeps(s: State, frame: Frame)
    requires Inv(s) && Enabled(s, Take(frame))
    ensures Inv(Apply(s, Take(frame)))
  {
    var s' := Apply(s, Take(frame));
    if IsReply(frame) && frame.id in s.table.pending {
      TakenKeeps(s, frame);
    } else {
      assert s'.table.pending == s.table.pending;
      assert s' == s;
    }
  }

  lemma TakenKeeps(s: State, frame: Frame)
    requires Inv(s) && Enabled(s, Take(frame)) && IsReply(frame) && frame.id in s.table.pending
    ensures Inv(Apply(s, Take(frame)))
  {
    hide Format, Parse;
    KeysDistinct();
    var s' := Apply(s, Take(frame));
    assert PendingOk(s, frame.id);
    forall m | m in s.calls
      ensures ChanOk(s', m) && CallOk(s', m)
    {
      InvCall(s, m);
    }
    forall k | k in s'.table.pending
      ensures PendingOk(s', k)
    {
      InvEntry(s, k);
    }
  }

  lemma SendKeeps(s: State)
    requires Inv(s) && Enabled(s, Send)
    ensures Inv(Apply(s, Send))
  {
    hide Format, Parse;
    KeysDistinct();
    var s' := Apply(s, Send);
    forall m | m in s.calls
      ensures ChanOk(s', m) && CallOk(s', m)
    {
      assert ChanOk(s, m) && CallOk(s, m);
    }
    forall k | k in s'.table.pending
      ensures PendingOk(s', k)
    {
      assert PendingOk(s, k);
    }
  }

  /** The failure closes a call's channel exactly if the call was pending. */
  lemma FailureCall(s: State, err: int, m: nat)
    requires Inv(s) && Enabled(s, ReadFailure(err)) && m in s.calls
    ensures var s' := Apply(s, ReadFailure(err)); m in s'.table.chans && ChanOk(s', m) && CallOk(s', m)
  {
    hide Inv, Format, Parse;
    InvWhole(s);
    InvCall(s, m);
    if m in s.table.pending.Values {
      var k :| k in s.table.pending && s.table.pending[k] == m;
      InvEntry(s, k);
    }
    if Format(m) in s.table.pending {
      InvEntry(s, Format(m));
      FormatInjective(m, s.table.pending[Format(m)]);
      assert m in s.table.pending.Values;
    }
  }

  lemma FailureKeeps(s: State, err: int)
    requires Inv(s) && Enabled(s, ReadFailure(err))
    ensures Inv(Apply(s, ReadFailure(err)))
  {
    hide Format, Parse, ChanOk, CallOk;
    InvWhole(s);
    forall m | m in s.calls
      ensures ChanOk(Apply(s, ReadFailure(err)), m) && CallOk(Apply(s, ReadFailure(err)), m)
    {
      FailureCall(s, err, m);
    }
  }

  lemma StepKeepsInv(s: State, step: Step)
    requires Inv(s) && Enabled(s, step)
    ensures Inv(Apply(s, step))
  {
    hide Inv, Enabled, Apply;
    match step
    case Begin => BeginKeeps(s);
    case Register(n) => RegisterKeeps(s, n);
    case WriteDone(n) => WriteDoneKeeps(s, n);
    case GiveUp(n, why) => GiveUpKeeps(s, n, why);
    case Remove(n) => RemoveKeeps(s, n);
    case Receive(n) => ReceiveKeeps(s, n);
    case Take(frame) => TakeKeeps(s, frame);
    case Send => SendKeeps(s);
    case ReadFailure(err) => FailureKeeps(s, err);
  }

  /** The table is what the client's own critical sections need: named, one entry a call. */
  lemma TableReady(s: State)
    requires Inv(s)
    ensures Named(s.table) && Injective(s.table)
  {
    forall k | k in s.table.pending
      ensures PendingOk(s, k)
    {
    }
  }

  lemma {:induction false} RunKeepsInv(steps: seq<Step>)
    requires Runs(steps)
    ensures Inv(After(steps))
  {
    if steps != [] {
      RunKeepsInv(Front(steps));
      StepKeepsInv(After(Front(steps)), steps[|steps| - 1]);
    }
  }

  // ---- what callers may rely on -----------------------------------------------------------

  /** A call that returns an answer returns the reply that carries its own id. */
  lemma OwnReply(steps: seq<Step>, n: nat)
    requires Runs(steps) && n in After(steps).calls
    ensures var pc := After(steps).calls[n]; pc.Returned? && pc.result.Answer? ==> pc.result.reply.id == Format(n)
  {
    RunKeepsInv(steps);
    assert CallOk(After(steps), n);
  }

  /** Whatever is put into a call's channel answers that call, and the channel sees one value
      or one close, never both. */
  lemma ChannelOnce(steps: seq<Step>, n: nat)
    requires Runs(steps) && n in After(steps).table.chans
    ensures var c := After(steps).table.chans[n];
            c.sends + c.closes <= 1 && (c.slot.Some? ==> c.slot.value.id == Format(n))
  {
    RunKeepsInv(steps);
    assert ChanOk(After(steps), n);
  }

  /** The reader never blocks on its send, and never sends on a closed channel. */
  lemma ReaderNeverBlocks(steps: seq<Step>)
    requires Runs(steps) && After(steps).reader.Sending?
    ensures Enabled(After(steps), Send) && After(steps).table.chans[After(steps).reader.ch].closes == 0
  {
    RunKeepsInv(steps);
  }

  /** The table holds only calls that have not returned and whose channel is untouched. */
  lemma PendingUnresolved(steps: seq<Step>, k: Bytes)
    requires Runs(steps) && k in After(steps).table.pending
    ensures var s := After(steps);
            var n := s.table.pending[k];
            n in s.calls && !s.calls[n].Returned? && k == Format(n) && n in s.table.chans && Untouched(s.table.chans[n])
  {
    RunKeepsInv(steps);
    assert PendingOk(After(steps), k);
  }

  /** After a read failure nothing is pending again, whatever happens next, and every caller
      that waits can return at once. */
  lemma {:induction false} FailureIsFinal(steps: seq<Step>, more: seq<Step>)
    requires Runs(steps) && After(steps).reader.Stopped? && Runs(steps + more)
    ensures var s := After(steps + more);
            s.reader.Stopped? && s.table.pending == map[] &&
            forall n :: n in s.calls && s.calls[n] == Waiting ==> Enabled(s, Receive(n))
    decreases |more|
  {
    hide Inv, Apply, Enabled;
    RunKeepsInv(steps + more);
    if more == [] {
      assert steps + more == steps;
    } else {
      assert Front(steps + more) == steps + Front(more);
      FailureIsFinal(steps, Front(more));
      StoppedStays(After(steps + Front(more)), more[|more| - 1]);
    }
    StoppedState(After(steps + more));
  }

  lemma StoppedStays(s: State, step: Step)
    requires Enabled(s, step) && s.reader.Stopped?
    ensures Apply(s, step).reader.Stopped?
  {
  }

  lemma StoppedState(s: State)
    requires Inv(s) && s.reader.Stopped?
    ensures s.table.pending == map[]
    ensures forall n :: n in s.calls && s.calls[n] == Waiting ==> Enabled(s, Receive(n))
  {
    hide Format, Inv;
    InvWhole(s);
    forall n | n in s.calls && s.calls[n] == Waiting
      ensures Enabled(s, Receive(n))
    {
      InvCall(s, n);
    }
  }

  /** Before that, a waiting caller whose entry is gone has its reply in hand or on its way. */
  lemma TakenMeansAnswered(steps: seq<Step>, n: nat)
    requires Runs(steps) && n in After(steps).calls && After(steps).calls[n] == Waiting
    requires Format(n) !in After(steps).table.pending
    ensures var s := After(steps); Enabled(s, Receive(n)) || (s.reader.Sending? && s.reader.ch == n)
  {
    hide Inv, Format;
    RunKeepsInv(steps);
    InvCall(After(steps), n);
  }
}
