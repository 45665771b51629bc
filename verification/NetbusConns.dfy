/** What every step keeps true of one subscription. */
module NetbusConns {
  import opened Prelude
  import opened NetbusHub
  import opened NetbusLog
  import opened NetbusProtocol

  predicate Clean(c: Conn) {
    !c.chan.overflowed && !c.gapped
  }

  /** Where a clean subscription's deliveries start: after Last-Event-ID, or after the events
      broadcast before it was registered. */
  function Origin(c: Conn): nat {
    if c.last > 0 then c.last else c.born
  }

  predicate Bounds(log: seq<Event>, n: nat, live: bool, c: Conn) {
    && c.born <= c.read <= c.until <= n <= |log|
    && c.from <= c.snap <= |log| && c.upto <= |log|
    && (live ==> c.until == n) && c.chan.Sound(live)
  }

  /** The queue is an increasing run of matching log events not read yet; as long as nothing
      was dropped it is all of them. */
  predicate QueueOk(log: seq<Event>, c: Conn)
    requires c.until <= |log|
  {
    && Increasing(c.chan.queue)
    && (forall i :: 0 <= i < |c.chan.queue| ==> Drawn(c.topics, log, c.chan.queue[i]) && c.read < c.chan.queue[i].id <= c.until)
    && (!c.chan.overflowed ==> c.chan.queue == Filtered(c.topics, log, c.read, c.until))
  }

  predicate Distinct(es: seq<Event>) {
    forall i, j :: 0 <= i < j < |es| ==> es[i].id != es[j].id
  }

  /** The wire holds matching log events, each at most once, from the snapshot or the part of
      the queue already read. */
  predicate WireOk(log: seq<Event>, c: Conn) {
    && Distinct(c.wire)
    && forall i :: 0 <= i < |c.wire| ==>
         Drawn(c.topics, log, c.wire[i]) && (c.from < c.wire[i].id <= c.snap || c.wire[i].id <= c.read)
  }

  /** The replayed set is the snapshot's ids, less those the queue already used up. */
  ghost predicate Remembers(c: Conn) {
    && (forall i :: i in c.replayed ==> c.from < i <= c.snap)
    && (forall i: nat :: c.from < i <= c.snap && c.read < i ==> i in c.replayed)
  }

  predicate FromOk(c: Conn) {
    if c.last == 0 then c.from == c.snap == c.born else !c.gapped ==> c.from == Min(c.last, c.snap)
  }

  ghost predicate PhaseOk(log: seq<Event>, c: Conn)
    requires c.snap <= |log| && c.upto <= |log|
  {
    match c.pc
    case Added => c.wire == [] && c.replayed == {} && c.read == c.born && c.upto == 0 && !c.gapped
    case Replaying(rest) =>
      && c.last > 0 && c.read == c.born <= c.snap && FromOk(c) && Remembers(c)
      && c.from <= c.upto && c.upto + |rest| == c.snap && rest == log[c.upto..c.snap]
      && c.wire == Filtered(c.topics, log, c.from, c.upto)
    case Live => FromOk(c) && Remembers(c) && c.upto == Max(c.snap, c.read)
    case Done => true
  }

  /** A clean subscription's wire, through the client's filter, is exactly the topic-filtered
      log from its origin on. */
  predicate Exact(log: seq<Event>, c: Conn)
    requires c.upto <= |log|
  {
    Clean(c) ==> Accept(c.last, c.wire) == Filtered(c.topics, log, Origin(c), c.upto)
  }

  ghost predicate ConnOk(log: seq<Event>, n: nat, live: bool, c: Conn) {
    Bounds(log, n, live, c) && QueueOk(log, c) && WireOk(log, c) && PhaseOk(log, c) && Exact(log, c)
  }

  /** What a subscription never loses: its parameters and what was written to it. */
  predicate Evolves(c: Conn, c': Conn) {
    c'.topics == c.topics && c'.last == c.last && c.wire <= c'.wire && (Clean(c') ==> Clean(c))
  }

  // ---- registering, publishing, broadcasting ----------------------------------------------

  lemma NewOk(s: State, topics: set<Bytes>, last: nat)
    requires Broadcasts(s) <= |s.log|
    ensures ConnOk(s.log, Broadcasts(s), !s.shutdown, NewConn(s, topics, last))
  {
    hide Drawn;
  }

  lemma DrawnGrows(topics: set<Bytes>, log: seq<Event>, e: Event)
    ensures forall x :: Drawn(topics, log, x) ==> Drawn(topics, log + [e], x)
  {
  }

  lemma PublishOk(log: seq<Event>, e: Event, n: nat, live: bool, c: Conn)
    requires ConnOk(log, n, live, c)
    ensures ConnOk(log + [e], n, live, c)
  {
    hide Drawn, Accept, Filtered, Remembers;
    var log' := log + [e];
    DrawnGrows(c.topics, log, e);
    FilteredGrows(c.topics, log, [e], c.read, c.until);
    FilteredGrows(c.topics, log, [e], c.from, c.upto);
    FilteredGrows(c.topics, log, [e], Origin(c), c.upto);
    assert log'[c.upto..][..] == log[c.upto..] + [e];
    if c.pc.Replaying? {
      assert log'[c.upto..c.snap] == log[c.upto..c.snap];
    }
  }

  lemma RunGrows(topics: set<Bytes>, log: seq<Event>, q: seq<Event>, read: nat, until: nat, ev: Event)
    requires Increasing(q) && forall i :: 0 <= i < |q| ==> Drawn(topics, log, q[i]) && read < q[i].id <= until
    requires Drawn(topics, log, ev) && read <= until < ev.id
    ensures Increasing(q + [ev])
    ensures forall i :: 0 <= i < |q + [ev]| ==> Drawn(topics, log, (q + [ev])[i]) && read < (q + [ev])[i].id <= ev.id
  {
    hide Drawn;
  }

  lemma QueueGrows(log: seq<Event>, c: Conn)
    requires log != [] && Numbered(log) && c.read <= c.until == |log| - 1 && QueueOk(log, c) && c.chan.Sound(true)
    ensures QueueOk(log, Offered(c, log[|log| - 1], |log|))
  {
    hide Matches, Increasing;
    var ev := log[|log| - 1];
    if Matches(c.topics, ev) {
      RunGrows(c.topics, log, c.chan.queue, c.read, c.until, ev);
    }
    assert Filtered(c.topics, log, c.read, |log|) == Filtered(c.topics, log, c.read, |log| - 1) + Pick(c.topics, ev);
    assert Filtered(c.topics, log, c.read, |log| - 1) + [] == Filtered(c.topics, log, c.read, |log| - 1);
  }

  lemma SameMemory(c: Conn, c': Conn)
    requires Remembers(c) && c'.replayed == c.replayed && c'.from == c.from && c'.snap == c.snap && c'.read == c.read
    ensures Remembers(c')
  {
  }

  /** The phase does not look at the queue. */
  lemma SamePhase(log: seq<Event>, c: Conn, c': Conn)
    requires c.snap <= |log| && c.upto <= |log| && PhaseOk(log, c)
    requires c' == c.(chan := c'.chan, until := c'.until)
    ensures PhaseOk(log, c')
  {
    hide Filtered, Remembers;
    if Remembers(c) {
      SameMemory(c, c');
    }
  }

  /** The broadcast of the newest event, to a registered subscription. */
  lemma BroadcastOk(log: seq<Event>, c: Conn)
    requires log != [] && Numbered(log) && ConnOk(log, |log| - 1, true, c)
    ensures ConnOk(log, |log|, true, Offered(c, log[|log| - 1], |log|))
    ensures Evolves(c, Offered(c, log[|log| - 1], |log|))
  {
    hide Accept, Matches, QueueOk, PhaseOk, Filtered, Drawn;
    var c' := Offered(c, log[|log| - 1], |log|);
    QueueGrows(log, c);
    SamePhase(log, c, c');
  }

  /** And past the others. */
  lemma PassedOk(log: seq<Event>, n: nat, c: Conn)
    requires n < |log| && ConnOk(log, n, false, c)
    ensures ConnOk(log, n + 1, false, c)
  {
  }

  /** Closing a registered channel, which unregisters it. */
  lemma CloseOk(log: seq<Event>, n: nat, c: Conn)
    requires ConnOk(log, n, true, c)
    ensures ConnOk(log, n, false, c.(chan := Close(c.chan)))
    ensures Evolves(c, c.(chan := Close(c.chan)))
  {
    hide Accept, Filtered, Drawn, PhaseOk;
    SamePhase(log, c, c.(chan := Close(c.chan)));
  }

  lemma HangUpOk(log: seq<Event>, n: nat, live: bool, c: Conn)
    requires ConnOk(log, n, live, c)
    ensures ConnOk(log, n, live, c.(pc := Done)) && Evolves(c, c.(pc := Done))
  {
    hide Accept, Filtered, Drawn;
  }

  lemma QueueSame(log: seq<Event>, c: Conn, c': Conn)
    requires c.until <= |log| && QueueOk(log, c)
    requires c'.chan == c.chan && c'.topics == c.topics && c'.read == c.read && c'.until == c.until
    ensures QueueOk(log, c')
  {
  }

  // ---- the snapshot -----------------------------------------------------------------------

  lemma {:induction false} AfterInLog(log: seq<Event>, k: nat, id: nat)
    requires Numbered(log) && k <= |log|
    ensures AfterIn(log[k..], id) == log[Min(Max(id, k), |log|)..]
    decreases |log| - k
  {
    if k == |log| {
      assert log[k..] == [];
    } else {
      assert log[k..][1..] == log[k + 1..];
      AfterInLog(log, k + 1, id);
      if k + 1 > id {
        assert log[k..] == [log[k]] + log[k + 1..];
      } else {
        assert [] + AfterIn(log[k + 1..], id) == AfterIn(log[k + 1..], id);
      }
    }
  }

  /** The snapshot is a stretch of the log up to its end. */
  lemma SnapshotIs(s: State, last: nat)
    requires Numbered(s.log) && s.buf == Last(s.log, s.cap)
    ensures AfterIn(s.buf, last) == s.log[Start(s.log, s.cap, last)..]
  {
    var k := Max(|s.log| - s.cap, 0);
    assert s.buf == s.log[k..];
    AfterInLog(s.log, k, last);
  }

  lemma IdsOf(log: seq<Event>, from: nat, rest: seq<Event>, ids: set<nat>)
    requires Numbered(log) && from <= |log| && rest == log[from..]
    requires ids == set i | 0 <= i < |rest| :: rest[i].id
    ensures forall i :: i in ids ==> from < i <= |log|
    ensures forall i: nat :: from < i <= |log| ==> i in ids
  {
    forall i: nat | from < i <= |log|
      ensures i in ids
    {
      assert rest[i - 1 - from].id == i;
    }
  }

  lemma SnapshotPhase(s: State, c: Conn)
    requires Numbered(s.log) && s.buf == Last(s.log, s.cap) && c.pc.Added? && c.born == c.read <= |s.log|
    requires c.wire == [] && c.last > 0
    ensures PhaseOk(s.log, Snapshotted(s, c))
  {
    hide Matches, Last, AfterIn;
    var c' := Snapshotted(s, c);
    SnapshotIs(s, c.last);
    IdsOf(s.log, c'.from, c'.pc.rest, c'.replayed);
  }

  lemma SnapshotOk(s: State, live: bool, c: Conn)
    requires Numbered(s.log) && s.buf == Last(s.log, s.cap) && Broadcasts(s) <= |s.log|
    requires ConnOk(s.log, Broadcasts(s), live, c) && c.pc.Added?
    ensures ConnOk(s.log, Broadcasts(s), live, Snapshotted(s, c)) && Evolves(c, Snapshotted(s, c))
  {
    hide Matches, Drawn, Last, AfterIn;
    var c' := Snapshotted(s, c);
    assert QueueOk(s.log, c') by {
      QueueSame(s.log, c, c');
    }
    hide QueueOk, Increasing, Start;
    if c.last > 0 {
      assert PhaseOk(s.log, c') by {
        SnapshotPhase(s, c);
      }
      hide PhaseOk;
      assert c'.upto == c'.from && c'.snap == |s.log|;
      assert !c'.gapped ==> c'.upto <= c.last;
    }
  }

  // ---- writing ----------------------------------------------------------------------------

  lemma IncreasingDistinct(es: seq<Event>)
    requires Increasing(es)
    ensures Distinct(es)
  {
  }

  lemma ReplayWrites(log: seq<Event>, n: nat, live: bool, c: Conn)
    requires Numbered(log) && ConnOk(log, n, live, c) && c.pc.Replaying? && c.pc.rest != []
    ensures ConnOk(log, n, live, Replayed(c)) && Evolves(c, Replayed(c))
  {
    hide Accept, Remembers, Drawn, Pick, QueueOk;
    var c' := Replayed(c);
    assert c.pc.rest[0] == log[c.upto];
    assert c'.wire == Filtered(c.topics, log, c.from, c.upto + 1);
    hide Filtered;
    FilteredMembers(c.topics, log, c.from, c.upto + 1);
    IncreasingDistinct(c'.wire);
    assert log[c.upto + 1..c.snap] == c.pc.rest[1..];
    if Clean(c) {
      AcceptStretch(c.topics, log, c.last, c.from, c.upto + 1);
      SameStretch(c, log);
    }
    SameMemory(c, c');
    QueueSame(log, c, c');
  }

  /** A clean replay starts at Last-Event-ID (or past the log, where nothing follows). */
  lemma SameStretch(c: Conn, log: seq<Event>)
    requires c.last > 0 && Clean(c) && FromOk(c) && c.snap <= |log| && c.from <= c.upto < c.snap
    ensures Filtered(c.topics, log, Origin(c), c.upto + 1) == Filtered(c.topics, log, c.from, c.upto + 1)
  {
  }

  lemma ReplayEnds(log: seq<Event>, n: nat, live: bool, c: Conn)
    requires Numbered(log) && ConnOk(log, n, live, c) && c.pc.Replaying? && c.pc.rest == []
    ensures ConnOk(log, n, live, Replayed(c)) && Evolves(c, Replayed(c))
  {
    hide Accept, Remembers, Drawn, Pick, QueueOk, Filtered;
    SameMemory(c, Replayed(c));
    QueueSame(log, c, Replayed(c));
  }

  lemma OneFirst(q: seq<Event>, f: seq<Event>)
    requires q != [] && q == [q[0]] + f
    ensures q[1..] == f
  {
  }

  /** The first queued event is the next matching one. */
  lemma NextMatching(topics: set<Bytes>, log: seq<Event>, read: nat, until: nat)
    requires Numbered(log) && read <= until <= |log| && Filtered(topics, log, read, until) != []
    ensures var q := Filtered(topics, log, read, until);
            && read < q[0].id <= until && Filtered(topics, log, read, q[0].id) == [q[0]]
            && Filtered(topics, log, q[0].id, until) == q[1..]
  {
    hide Filtered, Drawn;
    var q := Filtered(topics, log, read, until);
    FilteredMembers(topics, log, read, until);
    assert [q[0]] <= q;
    FilteredPrefix(topics, log, read, until, [q[0]]);
    FilteredSplit(topics, log, read, q[0].id, until);
    OneFirst(q, Filtered(topics, log, q[0].id, until));
  }

  lemma TailRuns(topics: set<Bytes>, log: seq<Event>, q: seq<Event>, until: nat)
    requires q != [] && Increasing(q) && forall i :: 0 <= i < |q| ==> Drawn(topics, log, q[i]) && q[i].id <= until
    ensures Increasing(q[1..])
    ensures forall i :: 0 <= i < |q[1..]| ==> Drawn(topics, log, q[1..][i]) && q[0].id < q[1..][i].id <= until
  {
    hide Drawn;
    forall i | 0 <= i < |q[1..]|
      ensures Drawn(topics, log, q[1..][i]) && q[0].id < q[1..][i].id <= until
    {
      assert q[1..][i] == q[i + 1];
    }
  }

  /** The queue after its first event was taken. */
  lemma QueueTail(log: seq<Event>, c: Conn)
    requires Numbered(log) && c.read <= c.until <= |log| && QueueOk(log, c) && c.chan.queue != []
    ensures var ev := c.chan.queue[0];
            && c.read < ev.id <= c.until && Drawn(c.topics, log, ev)
            && QueueOk(log, c.(chan := c.chan.(queue := c.chan.queue[1..]), read := ev.id))
            && (!c.chan.overflowed ==> Filtered(c.topics, log, c.read, ev.id) == [ev])
  {
    hide Filtered, Drawn, Increasing;
    TailRuns(c.topics, log, c.chan.queue, c.until);
    if !c.chan.overflowed {
      NextMatching(c.topics, log, c.read, c.until);
    }
  }

  /** Between read and ev nothing else matches, so nothing does from any point in between. */
  lemma OnlyLast(topics: set<Bytes>, log: seq<Event>, read: nat, m: nat, ev: Event)
    requires read <= m < ev.id && Drawn(topics, log, ev) && Filtered(topics, log, read, ev.id) == [ev]
    ensures Filtered(topics, log, m, ev.id) == [ev]
  {
    FilteredSplit(topics, log, read, m, ev.id);
    var tail := Filtered(topics, log, m, ev.id);
    assert tail == Filtered(topics, log, m, ev.id - 1) + [ev];
    assert |Filtered(topics, log, read, m)| + |tail| == 1;
  }

  lemma LastAccepted(topics: set<Bytes>, log: seq<Event>, last: nat, a: nat, b: nat)
    requires Numbered(log) && b <= |log|
    ensures last <= LastId(last, Filtered(topics, log, a, b)) || LastId(last, Filtered(topics, log, a, b)) > a
    ensures LastId(last, Filtered(topics, log, a, b)) <= Max(last, b)
  {
    FilteredMembers(topics, log, a, b);
  }

  /** Delivering past the snapshot extends the accepted stretch by exactly that event. */
  lemma DeliverExact(log: seq<Event>, c: Conn, ev: Event)
    requires Numbered(log) && c.upto <= |log| && Clean(c) && Exact(log, c) && FromOk(c)
    requires c.upto == Max(c.snap, c.read) && c.read < ev.id && Drawn(c.topics, log, ev) && c.born <= c.read
    requires Filtered(c.topics, log, c.read, ev.id) == [ev]
    requires !(c.from < ev.id <= c.snap) && c.from <= c.snap
    ensures Accept(c.last, c.wire + [ev]) == Filtered(c.topics, log, Origin(c), Max(c.snap, ev.id))
  {
    hide Matches, Accept, Filtered;
    var o, f := Origin(c), Filtered(c.topics, log, Origin(c), c.upto);
    AcceptSnoc(c.last, c.wire, ev);
    LastAccepted(c.topics, log, c.last, o, c.upto);
    FilteredMembers(c.topics, log, o, c.upto);
    if ev.id > c.snap {
      if ev.id > c.last {
        if o <= c.upto {
          FilteredSplit(c.topics, log, o, c.upto, ev.id);
          OnlyLast(c.topics, log, c.read, c.upto, ev);
        } else {
          FilteredEmpty(c.topics, log, o, c.upto);
          OnlyLast(c.topics, log, c.read, o, ev);
          assert [] + [ev] == [ev];
        }
      } else {
        FilteredEmpty(c.topics, log, o, c.upto);
        FilteredEmpty(c.topics, log, o, ev.id);
      }
    } else {
      assert c.last > 0 && ev.id <= c.last;
    }
  }

  lemma FilteredEmpty(topics: set<Bytes>, log: seq<Event>, a: int, b: nat)
    requires b <= a && b <= |log|
    ensures Filtered(topics, log, a, b) == []
  {
  }

  lemma DeliverOk(log: seq<Event>, n: nat, live: bool, c: Conn)
    requires Numbered(log) && ConnOk(log, n, live, c) && c.pc.Live? && c.chan.queue != []
    ensures ConnOk(log, n, live, Delivered(c)) && Evolves(c, Delivered(c))
  {
    hide Matches, Accept, Filtered, Drawn, Increasing;
    var ev := c.chan.queue[0];
    var c' := Delivered(c);
    QueueTail(log, c);
    assert QueueOk(log, c') by {
      QueueSame(log, c.(chan := c.chan.(queue := c.chan.queue[1..]), read := ev.id), c');
    }
    assert ev.id <= |log| by {
      assert ev.id <= c.until;
    }
    if ev.id !in c.replayed {
      assert !(c.from < ev.id <= c.snap);
      if Clean(c) {
        DeliverExact(log, c, ev);
      }
      assert WireOk(log, c');
    }
  }
}
