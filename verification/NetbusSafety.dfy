/** What the hub keeps in every reachable state: the ring, the queues, the wires and the
    channels, against the unbounded log. */
module NetbusSafety {
  import opened Prelude
  import opened NetbusHub
  import opened NetbusLog
  import opened NetbusProtocol
  import opened NetbusConns
  import opened NetbusResume

  /** The bounded ring answers like the log: its buffer is the last entries, numbered without a
      hole, and what it returns after an id is the log from there, less what was evicted. No
      logged event is without an origin. */
  lemma RingIsLog(cap: nat, steps: seq<Step>, id: nat)
    requires Runs(cap, steps)
    ensures var s := Reach(cap, steps);
            && Numbered(s.log) && s.cap == cap && s.buf == Last(s.log, cap) && |s.buf| == Min(|s.log|, cap)
            && AfterIn(s.buf, id) == s.log[Start(s.log, cap, id)..]
            && forall i :: 0 <= i < |s.log| ==> s.log[i].origin != ""
  {
    hide Reach, ConnsOk, ClientsOk, AfterIn, Start, Last;
    RunKeeps(cap, steps);
    CapStays(cap, steps);
    SnapshotIs(Reach(cap, steps), id);
    LastLength(Reach(cap, steps).log, cap);
  }

  lemma {:induction false} CapStays(cap: nat, steps: seq<Step>)
    requires Runs(cap, steps)
    ensures Reach(cap, steps).cap == cap
    decreases |steps|
  {
    hide Offered, NewConn, Received, Snapshotted, Replayed, Delivered;
    if steps != [] {
      CapStays(cap, Front(steps));
    }
  }

  /** Each queue is an increasing run of matching log events, all of them as long as none was
      dropped; no connection ever carries an id twice; a registered channel was never closed,
      any other exactly once, and none was sent to after its close. */
  lemma Subscriptions(cap: nat, steps: seq<Step>, c: nat)
    requires Runs(cap, steps) && c < |Reach(cap, steps).conns|
    ensures var s := Reach(cap, steps);
            var conn := s.conns[c];
            && Increasing(conn.chan.queue)
            && (forall i :: 0 <= i < |conn.chan.queue| ==> Drawn(conn.topics, s.log, conn.chan.queue[i]))
            && (c in s.subs && !conn.chan.overflowed ==>
                  conn.read <= Broadcasts(s) <= |s.log|
                  && conn.chan.queue == Filtered(conn.topics, s.log, conn.read, Broadcasts(s)))
            && Distinct(conn.wire)
            && (forall i :: 0 <= i < |conn.wire| ==> Drawn(conn.topics, s.log, conn.wire[i]))
            && conn.chan.Sound(c in s.subs)
  {
    hide Reach, Runs, Drawn, Increasing, Distinct, Filtered, PhaseOk, Exact, HubOk, ClientsOk;
    RunKeeps(cap, steps);
    ConnAt(Reach(cap, steps), c);
  }

  /** Only a receive changed the channel, if anything did. */
  predicate Drains(before: Chan, after: Chan, taken: bool) {
    && after.closes == before.closes && after.lateSends == before.lateSends && after.overflowed == before.overflowed
    && (after.queue == before.queue || (taken && before.queue != [] && after.queue == before.queue[1..]))
  }

  /** From the step that closes it on, a channel is neither closed again nor sent to: its queue
      only drains. */
  lemma ClosedForGood(cap: nat, steps: seq<Step>, step: Step, c: nat)
    requires Runs(cap, steps) && Enabled(Reach(cap, steps), step)
    requires c < |Reach(cap, steps).conns| && Reach(cap, steps).conns[c].chan.Closed()
    ensures Drains(Reach(cap, steps).conns[c].chan, Apply(Reach(cap, steps), step).conns[c].chan, step == Deliver(c))
  {
    hide Reach, Runs, Filtered, Offered, NewConn, ConnOk, Drains;
    Subscriptions(cap, steps, c);
    ClosedStep(Reach(cap, steps), step, c);
  }

  lemma ClosedStep(s: State, step: Step, c: nat)
    requires Enabled(s, step) && c < |s.conns| && s.conns[c].chan.Closed() && c !in s.subs
    ensures c < |Apply(s, step).conns| && Drains(s.conns[c].chan, Apply(s, step).conns[c].chan, step == Deliver(c))
  {
    if Single(step) && step.c == c {
      hide AfterIn, Pick;
    } else {
      hide Drains, Offered, NewConn, Received, Snapshotted, Replayed, Delivered;
      assert Apply(s, step).conns[c].chan == s.conns[c].chan;
      Unchanged(s.conns[c].chan, step == Deliver(c));
    }
  }

  lemma Unchanged(chan: Chan, taken: bool)
    requires chan.Closed()
    ensures Drains(chan, chan, taken)
  {
  }

  // ---- the hub object and the protocol ----------------------------------------------------

  /** The hub's subscriber table and channels, as the protocol state has them. */
  function SubsOf(s: State): map<nat, set<Bytes>> {
    map c | c in s.subs && c < |s.conns| :: s.conns[c].topics
  }

  function ChansOf(s: State): map<nat, Chan> {
    map c: nat | c < |s.conns| :: s.conns[c].chan
  }

  /** Each step of the protocol that takes the hub's lock does to the table what the hub's own
      method does to it. */
  lemma BroadcastIsBroadcast(s: State)
    requires HubOk(s) && Enabled(s, Broadcast)
    ensures SubsOf(Apply(s, Broadcast)) == SubsOf(s)
    ensures ChansOf(Apply(s, Broadcast)) == OfferTo(SubsOf(s), ChansOf(s), s.log[|s.log| - 1], SubsOf(s).Keys)
  {
    BroadcastSubs(s);
    BroadcastChans(s);
  }

  lemma BroadcastSubs(s: State)
    requires Enabled(s, Broadcast)
    ensures SubsOf(Apply(s, Broadcast)) == SubsOf(s)
  {
    hide Offer, Matches;
  }

  lemma BroadcastChans(s: State)
    requires Enabled(s, Broadcast)
    ensures ChansOf(Apply(s, Broadcast)) == OfferTo(SubsOf(s), ChansOf(s), s.log[|s.log| - 1], SubsOf(s).Keys)
  {
    hide Offer, Matches;
  }

  lemma CloseAllIsCloseAll(s: State)
    requires HubOk(s)
    ensures SubsOf(Apply(s, CloseAll)) == map[] && ChansOf(Apply(s, CloseAll)) == CloseThese(ChansOf(s), SubsOf(s).Keys)
  {
    hide Last, Numbered, Close;
  }

  lemma SubscribeIsAddSub(s: State, topics: set<Bytes>, last: nat)
    requires HubOk(s) && !s.shutdown
    ensures SubsOf(WithConn(s, topics, last)) == SubsOf(s)[|s.conns| := topics]
    ensures ChansOf(WithConn(s, topics, last)) == ChansOf(s)[|s.conns| := NEW_CHAN]
  {
    hide Last, Numbered;
  }

  lemma RemoveIsRemoveSub(s: State, c: nat)
    requires HubOk(s) && Enabled(s, Remove(c))
    ensures SubsOf(Apply(s, Remove(c))) == SubsOf(s) - {c}
    ensures ChansOf(Apply(s, Remove(c))) == if c in SubsOf(s) then ChansOf(s)[c := Close(ChansOf(s)[c])] else ChansOf(s)
  {
    hide Last, Numbered, Close;
  }
}
