/** Exact resume: what netbus clients accept, over every interleaving of publishers, hub
    handlers, disconnects and reconnects. */
module NetbusResume {
  import opened Prelude
  import opened NetbusHub
  import opened NetbusLog
  import opened NetbusProtocol
  import opened NetbusConns

  // ---- the hub's side ---------------------------------------------------------------------

  ghost predicate HubOk(s: State) {
    && Numbered(s.log) && s.buf == Last(s.log, s.cap)
    && (forall i :: 0 <= i < |s.log| ==> s.log[i].origin != "")
    && (s.held ==> s.log != [])
    && (forall c :: c in s.subs ==> c < |s.conns|)
    && (s.shutdown ==> s.subs == {})
  }

  ghost predicate ConnsOk(s: State) {
    forall c: nat :: c < |s.conns| ==> ConnOk(s.log, Broadcasts(s), c in s.subs, s.conns[c])
  }

  /** Nothing already logged or written is ever taken back. */
  predicate Grows(s: State, s': State) {
    && s.log <= s'.log && |s.conns| <= |s'.conns|
    && forall c: nat :: c < |s.conns| ==> Evolves(s.conns[c], s'.conns[c])
  }

  lemma Stays(c: Conn)
    ensures Evolves(c, c)
  {
  }

  lemma ConnAt(s: State, c: nat)
    requires ConnsOk(s) && c < |s.conns|
    ensures ConnOk(s.log, Broadcasts(s), c in s.subs, s.conns[c])
  {
    hide ConnOk;
  }

  lemma PublishHub(s: State, ev: Event)
    requires HubOk(s) && Enabled(s, Publish(ev))
    ensures HubOk(Apply(s, Publish(ev))) && Broadcasts(Apply(s, Publish(ev))) == Broadcasts(s)
  {
    hide Last;
    LastGrows(s.log, Apply(s, Publish(ev)).log[|s.log|], s.cap);
  }

  lemma PublishKeeps(s: State, ev: Event)
    requires HubOk(s) && ConnsOk(s) && Enabled(s, Publish(ev))
    ensures HubOk(Apply(s, Publish(ev))) && ConnsOk(Apply(s, Publish(ev))) && Grows(s, Apply(s, Publish(ev)))
  {
    hide ConnOk, Evolves, HubOk;
    var s' := Apply(s, Publish(ev));
    PublishHub(s, ev);
    forall c: nat | c < |s.conns|
      ensures ConnOk(s'.log, Broadcasts(s'), c in s'.subs, s'.conns[c]) && Evolves(s.conns[c], s'.conns[c])
    {
      ConnAt(s, c);
      PublishOk(s.log, s'.log[|s.log|], Broadcasts(s), c in s.subs, s.conns[c]);
      Stays(s.conns[c]);
    }
  }

  lemma BroadcastKeeps(s: State)
    requires HubOk(s) && ConnsOk(s) && Enabled(s, Broadcast)
    ensures HubOk(Apply(s, Broadcast)) && ConnsOk(Apply(s, Broadcast)) && Grows(s, Apply(s, Broadcast))
  {
    hide ConnOk, Evolves, Offered, Last;
    var s' := Apply(s, Broadcast);
    forall c: nat | c < |s.conns|
      ensures ConnOk(s'.log, Broadcasts(s'), c in s'.subs, s'.conns[c]) && Evolves(s.conns[c], s'.conns[c])
    {
      ConnAt(s, c);
      if c in s.subs {
        BroadcastOk(s.log, s.conns[c]);
      } else {
        PassedOk(s.log, |s.log| - 1, s.conns[c]);
        Stays(s.conns[c]);
      }
    }
  }

  lemma CloseAllKeeps(s: State)
    requires HubOk(s) && ConnsOk(s)
    ensures HubOk(Apply(s, CloseAll)) && ConnsOk(Apply(s, CloseAll)) && Grows(s, Apply(s, CloseAll))
  {
    hide ConnOk, Evolves, Close, Last;
    var s' := Apply(s, CloseAll);
    forall c: nat | c < |s.conns|
      ensures ConnOk(s'.log, Broadcasts(s'), c in s'.subs, s'.conns[c]) && Evolves(s.conns[c], s'.conns[c])
    {
      ConnAt(s, c);
      if c in s.subs {
        CloseOk(s.log, Broadcasts(s), s.conns[c]);
      } else {
        Stays(s.conns[c]);
      }
    }
  }

  lemma SubscribeKeeps(s: State, topics: set<Bytes>, last: nat)
    requires HubOk(s) && ConnsOk(s)
    ensures var s' := WithConn(s, topics, last); HubOk(s') && ConnsOk(s') && Grows(s, s')
  {
    hide ConnOk, Evolves, NewConn, Last;
    var s' := WithConn(s, topics, last);
    forall c: nat | c < |s'.conns|
      ensures ConnOk(s'.log, Broadcasts(s'), c in s'.subs, s'.conns[c])
      ensures c < |s.conns| ==> Evolves(s.conns[c], s'.conns[c])
    {
      if c < |s.conns| {
        ConnAt(s, c);
        Stays(s.conns[c]);
      } else {
        NewOk(s, topics, last);
      }
    }
  }

  /** Steps that change a single subscription. */
  lemma OneKeeps(s: State, s': State, n: nat, conn: Conn)
    requires HubOk(s) && ConnsOk(s) && n < |s.conns|
    requires s' == s.(conns := s.conns[n := conn], subs := s'.subs) && s'.subs <= s.subs
    requires forall c: nat :: c != n ==> (c in s'.subs <==> c in s.subs)
    requires ConnOk(s.log, Broadcasts(s), n in s'.subs, conn) && Evolves(s.conns[n], conn)
    ensures HubOk(s') && ConnsOk(s') && Grows(s, s')
  {
    hide ConnOk, Evolves, Last;
    forall c: nat | c < |s.conns|
      ensures ConnOk(s'.log, Broadcasts(s'), c in s'.subs, s'.conns[c]) && Evolves(s.conns[c], s'.conns[c])
    {
      if c != n {
        ConnAt(s, c);
        Stays(s.conns[c]);
      }
    }
  }

  predicate Single(step: Step) {
    step.Snapshot? || step.Replay? || step.Deliver? || step.HangUp? || step.Remove?
  }

  lemma SingleKeeps(s: State, step: Step)
    requires HubOk(s) && ConnsOk(s) && Enabled(s, step) && Single(step)
    ensures HubOk(Apply(s, step)) && ConnsOk(Apply(s, step)) && Grows(s, Apply(s, step))
  {
    hide ConnOk, Evolves, Snapshotted, Replayed, Delivered, Close, HubOk, ConnsOk;
    var c, n, live := s.conns[step.c], Broadcasts(s), step.c in s.subs;
    ConnAt(s, step.c);
    HubFacts(s);
    match step {
      case Snapshot(_) => SnapshotOk(s, live, c);
      case Replay(_) =>
        if c.pc.rest == [] {
          ReplayEnds(s.log, n, live, c);
        } else {
          ReplayWrites(s.log, n, live, c);
        }
      case Deliver(_) => DeliverOk(s.log, n, live, c);
      case HangUp(_) => HangUpOk(s.log, n, live, c);
      case Remove(_) =>
        if live {
          CloseOk(s.log, n, c);
        } else {
          Stays(c);
        }
    }
    var s' := Apply(s, step);
    OneKeeps(s, s', step.c, s'.conns[step.c]);
  }

  lemma HubFacts(s: State)
    requires HubOk(s)
    ensures Numbered(s.log) && s.buf == Last(s.log, s.cap) && Broadcasts(s) <= |s.log|
  {
    hide Last;
  }

  predicate ClientStep(step: Step) {
    step.Join? || step.Connect? || step.Read? || step.Drop?
  }

  lemma HubKeeps(s: State, step: Step)
    requires HubOk(s) && ConnsOk(s) && Enabled(s, step)
    ensures HubOk(Apply(s, step)) && ConnsOk(Apply(s, step)) && Grows(s, Apply(s, step))
  {
    hide ConnOk, Evolves, WithConn, ConnsOk, Last;
    match step {
      case Publish(ev) => PublishKeeps(s, ev);
      case Broadcast => BroadcastKeeps(s);
      case CloseAll => CloseAllKeeps(s);
      case Subscribe(topics, last) => SubscribeKeeps(s, topics, last);
      case Connect(k) =>
        SubscribeKeeps(s, s.clients[k].topics, s.clients[k].lastId);
        SameHub(WithConn(s, s.clients[k].topics, s.clients[k].lastId), Apply(s, step));
      case Join(_, _) =>
        SameHub(s, Apply(s, step));
        SameGrows(s);
      case Read(_) =>
        SameHub(s, Apply(s, step));
        SameGrows(s);
      case Drop(_) =>
        SameHub(s, Apply(s, step));
        SameGrows(s);
      case _ => SingleKeeps(s, step);
    }
  }

  lemma SameHub(s: State, s': State)
    requires HubOk(s) && ConnsOk(s) && s' == s.(clients := s'.clients)
    ensures HubOk(s') && ConnsOk(s')
  {
    hide ConnOk, Last;
    forall c: nat | c < |s'.conns|
      ensures ConnOk(s'.log, Broadcasts(s'), c in s'.subs, s'.conns[c])
    {
      ConnAt(s, c);
    }
  }

  lemma SameGrows(s: State)
    ensures Grows(s, s)
  {
  }

  // ---- the clients' side ------------------------------------------------------------------

  /** None of a client's subscriptions ever dropped an event or found its last id evicted. */
  predicate AllClean(conns: seq<Conn>, cl: Client) {
    forall i :: 0 <= i < |cl.conns| ==> cl.conns[i] < |conns| && Clean(conns[cl.conns[i]])
  }

  /** Exactly the matching events of the log from the first accepted one to the last. */
  predicate NoGap(topics: set<Bytes>, log: seq<Event>, accepted: seq<Event>) {
    accepted != [] ==>
      var last := accepted[|accepted| - 1].id;
      last <= |log| && accepted == Filtered(topics, log, accepted[0].id - 1, last)
  }

  predicate AcceptedOk(log: seq<Event>, cl: Client) {
    && Increasing(cl.accepted)
    && (forall i :: 0 <= i < |cl.accepted| ==> Drawn(cl.topics, log, cl.accepted[i]))
    && cl.lastId == LastId(0, cl.accepted)
    && cl.base <= |cl.accepted|
    && (cl.conns == [] ==> cl.accepted == [])
  }

  /** Where the client stands on its current subscription. */
  predicate ReadingOk(conns: seq<Conn>, cl: Client)
    requires cl.base <= |cl.accepted|
  {
    && (forall i :: 0 <= i < |cl.conns| ==> cl.conns[i] < |conns|)
    && (cl.conns != [] ==>
          var c := conns[Current(cl)];
          && c.topics == cl.topics && c.last == LastId(0, cl.accepted[..cl.base])
          && cl.pos <= |c.wire| && cl.accepted[cl.base..] == Accept(c.last, c.wire[..cl.pos]))
  }

  predicate ClientOk(log: seq<Event>, conns: seq<Conn>, cl: Client) {
    && AcceptedOk(log, cl) && ReadingOk(conns, cl)
    && (AllClean(conns, cl) ==> NoGap(cl.topics, log, cl.accepted[..cl.base]))
  }

  predicate ClientsOk(s: State) {
    forall k :: k in s.clients ==> ClientOk(s.log, s.conns, s.clients[k])
  }

  lemma NoGapGrows(topics: set<Bytes>, log: seq<Event>, log': seq<Event>, accepted: seq<Event>)
    requires log <= log' && NoGap(topics, log, accepted)
    ensures NoGap(topics, log', accepted)
  {
    if accepted != [] {
      FilteredGrows(topics, log, log'[|log|..], accepted[0].id - 1, accepted[|accepted| - 1].id);
      assert log + log'[|log|..] == log';
    }
  }

  lemma ReadingGrows(s: State, s': State, cl: Client)
    requires Grows(s, s') && cl.base <= |cl.accepted| && ReadingOk(s.conns, cl)
    ensures ReadingOk(s'.conns, cl) && (AllClean(s'.conns, cl) ==> AllClean(s.conns, cl))
  {
    hide Clean, Accept;
    if cl.conns != [] {
      var c, c' := s.conns[Current(cl)], s'.conns[Current(cl)];
      assert c'.wire[..cl.pos] == c.wire[..cl.pos];
    }
    if AllClean(s'.conns, cl) {
      forall i | 0 <= i < |cl.conns|
        ensures Clean(s.conns[cl.conns[i]])
      {
        assert Evolves(s.conns[cl.conns[i]], s'.conns[cl.conns[i]]);
      }
    }
  }

  /** What happens elsewhere keeps a client's account. */
  lemma ClientFrame(s: State, s': State, cl: Client)
    requires Grows(s, s') && ClientOk(s.log, s.conns, cl)
    ensures ClientOk(s'.log, s'.conns, cl)
  {
    hide NoGap, ReadingOk, AllClean, Matches, Evolves;
    ReadingGrows(s, s', cl);
    if AllClean(s.conns, cl) {
      NoGapGrows(cl.topics, s.log, s'.log, cl.accepted[..cl.base]);
    }
  }

  /** Over clean subscriptions a client has the log without a gap. */
  lemma AcceptedNoGap(s: State, cl: Client)
    requires HubOk(s) && ConnsOk(s) && ClientOk(s.log, s.conns, cl) && AllClean(s.conns, cl)
    ensures NoGap(cl.topics, s.log, cl.accepted)
  {
    if cl.conns != [] {
      hide ConnOk, Filtered, Accept, HubOk, ConnsOk, AcceptedOk, ClientOk, AllClean, Clean, NoGap, Increasing;
      CurrentConn(s, cl);
      var c := s.conns[Current(cl)];
      ConnAt(s, Current(cl));
      ExactOf(s.log, Broadcasts(s), Current(cl) in s.subs, c);
      HubFacts(s);
      hide Origin, Last;
      AcceptPrefix(c.last, c.wire, c.wire[..cl.pos]);
      assert cl.base > 0 ==> Origin(c) == cl.accepted[cl.base - 1].id by {
        OriginIs(c);
      }
      assert Origin(c) <= |s.log| by {
        OriginIs(c);
      }
      Extend(cl.topics, s.log, cl.accepted, cl.base, Origin(c), c.upto);
    }
  }

  lemma OriginIs(c: Conn)
    ensures Origin(c) == if c.last > 0 then c.last else c.born
  {
  }

  lemma CurrentConn(s: State, cl: Client)
    requires ClientOk(s.log, s.conns, cl) && AllClean(s.conns, cl) && cl.conns != []
    ensures Current(cl) < |s.conns| && cl.base <= |cl.accepted| && NoGap(cl.topics, s.log, cl.accepted[..cl.base])
    ensures var c := s.conns[Current(cl)];
            && Clean(c) && c.topics == cl.topics && cl.pos <= |c.wire|
            && c.last == (if cl.base == 0 then 0 else cl.accepted[cl.base - 1].id)
            && cl.accepted[cl.base..] == Accept(c.last, c.wire[..cl.pos])
    ensures Increasing(cl.accepted) && forall i :: 0 <= i < |cl.accepted| ==> 1 <= cl.accepted[i].id <= |s.log|
  {
    hide NoGap, Accept, Clean, Increasing;
    FirstIds(s.log, cl);
    hide AcceptedOk;
    assert Current(cl) == cl.conns[|cl.conns| - 1];
  }

  lemma FirstIds(log: seq<Event>, cl: Client)
    requires AcceptedOk(log, cl)
    ensures cl.base <= |cl.accepted|
    ensures forall i :: 0 <= i < |cl.accepted| ==> 1 <= cl.accepted[i].id <= |log|
    ensures Increasing(cl.accepted)
  {
  }

  lemma ExactOf(log: seq<Event>, n: nat, live: bool, c: Conn)
    requires ConnOk(log, n, live, c) && Clean(c)
    ensures c.born <= |log| && c.upto <= |log| && Accept(c.last, c.wire) == Filtered(c.topics, log, Origin(c), c.upto)
  {
    hide Accept, Filtered, QueueOk, WireOk, PhaseOk;
  }

  /** An exact account followed by the beginning of an exact stretch from where it ended. */
  lemma Extend(topics: set<Bytes>, log: seq<Event>, acc: seq<Event>, base: nat, origin: nat, upto: nat)
    requires Numbered(log) && base <= |acc| && upto <= |log| && origin <= |log|
    requires Increasing(acc) && forall i :: 0 <= i < |acc| ==> 1 <= acc[i].id <= |log|
    requires NoGap(topics, log, acc[..base]) && acc[base..] <= Filtered(topics, log, origin, upto)
    requires base > 0 ==> origin == acc[base - 1].id
    ensures NoGap(topics, log, acc)
  {
    hide Filtered, Increasing, Numbered;
    var now := acc[base..];
    assert acc == acc[..base] + now;
    if now != [] {
      FilteredPrefix(topics, log, origin, upto, now);
      var last := acc[|acc| - 1].id;
      assert now == Filtered(topics, log, origin, last);
      if base > 0 {
        FirstFirst(acc, base);
        FilteredSplit(topics, log, acc[0].id - 1, origin, last);
      } else {
        StretchIds(topics, log, origin, last);
        FilteredFirst(topics, log, origin, last);
      }
    }
  }

  lemma FirstFirst(acc: seq<Event>, base: nat)
    requires Increasing(acc) && 0 < base < |acc|
    ensures acc[0].id <= acc[base - 1].id < acc[|acc| - 1].id
  {
  }

  lemma StretchIds(topics: set<Bytes>, log: seq<Event>, origin: nat, last: nat)
    requires Numbered(log) && last <= |log| && Filtered(topics, log, origin, last) != []
    ensures origin < last
  {
  }

  lemma JoinOk(s: State, topics: set<Bytes>)
    ensures ClientOk(s.log, s.conns, Client(topics, 0, [], [], false, 0, 0))
  {
  }

  /** A new subscription resumes from the last id accepted. */
  lemma ConnectOk(s: State, conn: Conn, cl: Client)
    requires HubOk(s) && ConnsOk(s) && ClientOk(s.log, s.conns, cl)
    requires conn.topics == cl.topics && conn.last == cl.lastId && conn.wire == []
    ensures ClientOk(s.log, s.conns + [conn], cl.(conns := cl.conns + [|s.conns|], connected := true, pos := 0, base := |cl.accepted|))
  {
    hide HubOk, ConnsOk, NoGap, Increasing, Drawn, Clean;
    var conns := s.conns + [conn];
    var cl' := cl.(conns := cl.conns + [|s.conns|], connected := true, pos := 0, base := |cl.accepted|);
    assert cl'.accepted[..cl'.base] == cl.accepted;
    if AllClean(conns, cl') {
      assert AllClean(s.conns, cl) by {
        CleanBefore(s.conns, conn, cl, cl');
      }
      hide AllClean, ClientOk;
      AcceptedNoGap(s, cl);
    }
  }

  lemma CleanBefore(conns: seq<Conn>, conn: Conn, cl: Client, cl': Client)
    requires cl'.conns == cl.conns + [|conns|] && AllClean(conns + [conn], cl')
    requires forall i :: 0 <= i < |cl.conns| ==> cl.conns[i] < |conns|
    ensures AllClean(conns, cl)
  {
    hide Clean;
    forall i | 0 <= i < |cl.conns|
      ensures Clean(conns[cl.conns[i]])
    {
      assert cl'.conns[i] == cl.conns[i];
    }
  }

  lemma ReadAccepts(log: seq<Event>, cl: Client, e: Event)
    requires AcceptedOk(log, cl) && Drawn(cl.topics, log, e) && cl.conns != []
    ensures AcceptedOk(log, Received(cl, e))
  {
    hide Drawn;
    assert e.id >= 1 by {
      DrawnId(cl.topics, log, e);
    }
  }

  lemma DrawnId(topics: set<Bytes>, log: seq<Event>, e: Event)
    requires Drawn(topics, log, e)
    ensures 1 <= e.id <= |log|
  {
  }

  lemma ReadReads(conns: seq<Conn>, cl: Client, e: Event)
    requires cl.base <= |cl.accepted| && ReadingOk(conns, cl) && cl.conns != [] && cl.lastId == LastId(0, cl.accepted)
    requires cl.pos < |conns[Current(cl)].wire| && conns[Current(cl)].wire[cl.pos] == e && e.id > 0
    ensures ReadingOk(conns, Received(cl, e))
  {
    hide Accept, LastId;
    var c := conns[Current(cl)];
    AcceptSnoc(c.last, c.wire[..cl.pos], e);
    assert c.wire[..cl.pos + 1] == c.wire[..cl.pos] + [e];
    LastIdTail(cl.accepted, cl.base);
    AcceptedSnoc(cl.accepted, cl.base, e);
  }

  lemma LastIdTail(acc: seq<Event>, base: nat)
    requires base <= |acc|
    ensures LastId(LastId(0, acc[..base]), acc[base..]) == LastId(0, acc)
  {
    if base == |acc| {
      assert acc[..base] == acc;
    }
  }

  lemma AcceptedSnoc(acc: seq<Event>, base: nat, e: Event)
    requires base <= |acc|
    ensures (acc + [e])[..base] == acc[..base] && (acc + [e])[base..] == acc[base..] + [e]
  {
  }

  lemma ReadOk(s: State, cl: Client)
    requires ConnsOk(s) && ClientOk(s.log, s.conns, cl)
    requires cl.conns != [] && Current(cl) < |s.conns| && cl.pos < |s.conns[Current(cl)].wire|
    ensures ClientOk(s.log, s.conns, Received(cl, s.conns[Current(cl)].wire[cl.pos]))
  {
    var c := s.conns[Current(cl)];
    var e := c.wire[cl.pos];
    assert Drawn(cl.topics, s.log, e) && e.id > 0 && cl.lastId == LastId(0, cl.accepted) by {
      hide Accept, ConnOk, NoGap, AllClean, Increasing;
      ConnAt(s, Current(cl));
      WireMember(s.log, Broadcasts(s), Current(cl) in s.subs, c, cl.pos);
      DrawnId(c.topics, s.log, e);
    }
    hide AcceptedOk, ReadingOk, Drawn, NoGap, ConnsOk;
    ReadAccepts(s.log, cl, e);
    ReadReads(s.conns, cl, e);
    assert Received(cl, e).accepted[..cl.base] == cl.accepted[..cl.base] by {
      FirstIds(s.log, cl);
    }
    SameClean(s.conns, cl, Received(cl, e));
  }

  lemma SameClean(conns: seq<Conn>, cl: Client, cl': Client)
    requires cl'.conns == cl.conns
    ensures AllClean(conns, cl') == AllClean(conns, cl)
  {
  }

  lemma WireMember(log: seq<Event>, n: nat, live: bool, c: Conn, i: nat)
    requires ConnOk(log, n, live, c) && i < |c.wire|
    ensures Drawn(c.topics, log, c.wire[i])
  {
    hide Accept, Filtered, QueueOk, PhaseOk, Drawn;
  }

  lemma DropOk(log: seq<Event>, conns: seq<Conn>, cl: Client)
    requires ClientOk(log, conns, cl)
    ensures ClientOk(log, conns, cl.(connected := false))
  {
    hide NoGap, Increasing, Drawn, Accept, AllClean;
    SameClean(conns, cl, cl.(connected := false));
  }

  // ---- every run --------------------------------------------------------------------------

  ghost predicate Inv(s: State) {
    HubOk(s) && ConnsOk(s) && ClientsOk(s)
  }

  lemma InitOk(cap: nat)
    ensures Inv(Initial(cap))
  {
  }

  lemma ClientKeeps(s: State, step: Step)
    requires Inv(s) && Enabled(s, step) && ClientStep(step)
    ensures var s' := Apply(s, step); step.k in s'.clients && ClientOk(s'.log, s'.conns, s'.clients[step.k])
  {
    hide HubOk, ConnsOk, ClientOk, Received;
    match step {
      case Join(_, topics) => JoinOk(s, topics);
      case Connect(k) => ConnectOk(s, NewConn(s, s.clients[k].topics, s.clients[k].lastId), s.clients[k]);
      case Read(k) => ReadOk(s, s.clients[k]);
      case Drop(k) => DropOk(s.log, s.conns, s.clients[k]);
    }
  }

  lemma StepKeeps(s: State, step: Step)
    requires Inv(s) && Enabled(s, step)
    ensures Inv(Apply(s, step))
  {
    hide HubOk, ConnsOk, Grows, ClientOk, Enabled, Apply, ClientStep;
    var s' := Apply(s, step);
    HubKeeps(s, step);
    forall k | k in s'.clients
      ensures ClientOk(s'.log, s'.conns, s'.clients[k])
    {
      if ClientStep(step) && Subject(step) == k {
        ClientKeeps(s, step);
      } else {
        OtherClient(s, step, k);
        ClientFrame(s, s', s.clients[k]);
      }
    }
  }

  function Subject(step: Step): nat
    requires ClientStep(step)
  {
    step.k
  }

  lemma OtherClient(s: State, step: Step, k: nat)
    requires Enabled(s, step) && k in Apply(s, step).clients && !(ClientStep(step) && Subject(step) == k)
    ensures k in s.clients && Apply(s, step).clients[k] == s.clients[k]
  {
  }

  lemma {:induction false} RunKeeps(cap: nat, steps: seq<Step>)
    requires Runs(cap, steps)
    ensures Inv(Reach(cap, steps))
    decreases |steps|
  {
    hide Inv, Apply, Enabled;
    if steps == [] {
      InitOk(cap);
    } else {
      RunKeeps(cap, Front(steps));
      StepKeeps(Reach(cap, Front(steps)), steps[|steps| - 1]);
    }
  }

  /** Across all its connections a client never accepts an id twice or goes back, whatever
      overflowed or was evicted; everything accepted is a matching event of the hub's log. */
  lemma AcceptedIncrease(cap: nat, steps: seq<Step>, k: nat)
    requires Runs(cap, steps) && k in Reach(cap, steps).clients
    ensures var s := Reach(cap, steps);
            var cl := s.clients[k];
            Increasing(cl.accepted) && forall i :: 0 <= i < |cl.accepted| ==> Drawn(cl.topics, s.log, cl.accepted[i])
  {
    hide Apply, Reach, HubOk, ConnsOk, Increasing, Drawn, ReadingOk, NoGap;
    RunKeeps(cap, steps);
  }

  /** Resume is exact: if no queue overflowed and no snapshot had lost an id above the one
      asked for, the accepted events are the topic-filtered log from the first one on. */
  lemma ResumeExact(cap: nat, steps: seq<Step>, k: nat)
    requires Runs(cap, steps) && k in Reach(cap, steps).clients
    requires AllClean(Reach(cap, steps).conns, Reach(cap, steps).clients[k])
    ensures var s := Reach(cap, steps); NoGap(s.clients[k].topics, s.log, s.clients[k].accepted)
  {
    hide Apply, Reach, HubOk, ConnsOk, ClientOk, NoGap, AllClean;
    RunKeeps(cap, steps);
    AcceptedNoGap(Reach(cap, steps), Reach(cap, steps).clients[k]);
  }

  /** The client has read all that its open subscription wrote, and the handler has emptied
      the queue. */
  predicate Idle(s: State, cl: Client) {
    && cl.conns != [] && Current(cl) < |s.conns| && Current(cl) in s.subs
    && var c := s.conns[Current(cl)];
       c.pc.Live? && c.chan.queue == [] && cl.pos == |c.wire|
  }

  /** The client has every event up to id m: what it accepted on its current subscription is
      exactly what matches from where that one started (after the last event accepted before it,
      or after those broadcast before it registered), and if it accepted anything at all, the
      whole is what matches from its first event on. */
  predicate HasAll(s: State, cl: Client, m: nat)
    requires cl.conns != [] && Current(cl) < |s.conns| && m <= |s.log|
  {
    var c := s.conns[Current(cl)];
    && cl.base <= |cl.accepted| && Origin(c) == (if cl.base > 0 then cl.accepted[cl.base - 1].id else c.born)
    && cl.accepted[cl.base..] == Filtered(cl.topics, s.log, Origin(c), m)
    && (cl.accepted != [] ==> cl.accepted == Filtered(cl.topics, s.log, cl.accepted[0].id - 1, m))
  }

  /** Nothing is withheld either: an idle client whose subscriptions were all clean has every
      event that was broadcast, also when that is none. */
  lemma CaughtUp(cap: nat, steps: seq<Step>, k: nat) returns (m: nat)
    requires Runs(cap, steps) && k in Reach(cap, steps).clients
    requires var s := Reach(cap, steps); AllClean(s.conns, s.clients[k]) && Idle(s, s.clients[k])
    ensures var s := Reach(cap, steps); Broadcasts(s) <= m <= |s.log| && HasAll(s, s.clients[k], m)
  {
    hide Inv, Reach, AllClean, HasAll;
    RunKeeps(cap, steps);
    m := IdleHasAll(Reach(cap, steps), k);
  }

  lemma IdleHasAll(s: State, k: nat) returns (m: nat)
    requires Inv(s) && k in s.clients && AllClean(s.conns, s.clients[k]) && Idle(s, s.clients[k])
    ensures Broadcasts(s) <= m <= |s.log| && HasAll(s, s.clients[k], m)
  {
    hide HubOk, ConnsOk, ConnOk, Filtered, Accept, NoGap, Increasing, ClientOk, AllClean, Clean;
    var cl := s.clients[k];
    var c := s.conns[Current(cl)];
    ConnAt(s, Current(cl));
    HubFacts(s);
    AcceptedNoGap(s, cl);
    CurrentConn(s, cl);
    ExactOf(s.log, Broadcasts(s), true, c);
    Drained(s.log, Broadcasts(s), c);
    assert c.wire[..cl.pos] == c.wire;
    var top := Max(c.upto, Broadcasts(s));
    m := Max(Origin(c), top);
    NothingMore(cl.topics, s.log, Origin(c), c.upto, top);
    Whole(cl.topics, s.log, cl.accepted, cl.base, Origin(c), m);
  }

  /** A stretch does not change when its end moves past entries that do not match. */
  lemma NothingMore(topics: set<Bytes>, log: seq<Event>, origin: nat, upto: nat, top: nat)
    requires upto <= top <= |log| && origin <= |log| && Filtered(topics, log, upto, top) == []
    ensures Filtered(topics, log, origin, Max(origin, top)) == Filtered(topics, log, origin, upto)
  {
    hide Filtered;
    if origin <= upto {
      FilteredSplit(topics, log, origin, upto, top);
    } else {
      FilteredEmpty(topics, log, origin, upto);
      FilteredEmpty(topics, log, origin, origin);
      if origin <= top {
        FilteredSplit(topics, log, upto, origin, top);
      }
    }
  }

  lemma Whole(topics: set<Bytes>, log: seq<Event>, acc: seq<Event>, base: nat, origin: nat, m: nat)
    requires Numbered(log) && base <= |acc| && origin <= m <= |log| && Increasing(acc)
    requires forall i :: 0 <= i < |acc| ==> 1 <= acc[i].id <= |log|
    requires NoGap(topics, log, acc[..base]) && acc[base..] == Filtered(topics, log, origin, m)
    requires base > 0 ==> origin == acc[base - 1].id
    ensures acc != [] ==> acc == Filtered(topics, log, acc[0].id - 1, m)
  {
    hide Filtered, Increasing, Numbered;
    assert acc == acc[..base] + acc[base..];
    if base > 0 {
      Ordered(acc, base);
      assert acc[..base] == Filtered(topics, log, acc[0].id - 1, origin);
      hide NoGap;
      FilteredSplit(topics, log, acc[0].id - 1, origin, m);
    } else if acc != [] {
      FilteredFirst(topics, log, origin, m);
    }
  }

  lemma Ordered(acc: seq<Event>, n: nat)
    requires Increasing(acc) && 0 < n <= |acc|
    ensures acc[0].id <= acc[n - 1].id
  {
  }

  /** With nothing dropped and nothing queued, nothing between the last event read and the
      last broadcast matches. */
  lemma Drained(log: seq<Event>, n: nat, c: Conn)
    requires Numbered(log) && ConnOk(log, n, true, c) && Clean(c) && c.chan.queue == [] && c.pc.Live?
    ensures c.upto <= |log| && Filtered(c.topics, log, c.upto, Max(c.upto, n)) == [] && Max(c.upto, n) <= |log|
  {
    hide Filtered, Accept, Remembers;
    if c.upto < n {
      FilteredSplit(c.topics, log, c.read, c.upto, n);
    } else {
      FilteredEmpty(c.topics, log, c.upto, c.upto);
    }
  }
}
