/** Which events a subscriber gets, said of the log and of the topics themselves, and what the
    client lets through. */
module NetbusTopics {
  import opened Prelude
  import opened NetbusHub
  import opened NetbusLog
  import opened NetbusProtocol
  import opened NetbusConns
  import opened NetbusResume
  import NetbusClient

  // ---- publishing -------------------------------------------------------------------------

  /** A published event is logged under the next id, otherwise as it came; only an empty origin
      is replaced. */
  lemma PublishLogs(s: State, ev: Event)
    requires Enabled(s, Publish(ev))
    ensures var t := Apply(s, Publish(ev));
            && |t.log| == |s.log| + 1 && t.log[..|s.log|] == s.log
            && var e := t.log[|s.log|];
               && e.id == |t.log| && e.topic == ev.topic && e.kind == ev.kind && e.data == ev.data
               && e.origin == (if ev.origin == "" then "external" else ev.origin)
  {
  }

  /** A snapshot after an id has exactly the logged events above it that are among the last
      `cap`, in order. */
  lemma SnapshotHas(log: seq<Event>, cap: nat, id: nat)
    requires Numbered(log)
    ensures var out := After(log, cap, id);
            && Increasing(out) && (forall k :: 0 <= k < |out| ==> out[k] in log)
            && forall i :: 0 <= i < |log| ==> (log[i] in out <==> log[i].id > id && log[i].id > |log| - cap)
  {
    var k := Start(log, cap, id);
    var out := After(log, cap, id);
    forall i | 0 <= i < |log|
      ensures log[i] in out <==> log[i].id > id && log[i].id > |log| - cap
    {
      if i >= k {
        assert out[i - k] == log[i];
      }
    }
  }

  // ---- topics -----------------------------------------------------------------------------

  /** Without topics a subscriber gets everything. */
  lemma {:induction false} WithoutTopics(log: seq<Event>, a: nat, b: nat)
    requires a <= b <= |log|
    ensures Filtered({}, log, a, b) == log[a..b]
    decreases b
  {
    if b > a {
      WithoutTopics(log, a, b - 1);
      assert log[a..b] == log[a..b - 1] + [log[b - 1]];
    }
  }

  /** With topics it gets exactly the events on one of them. */
  lemma {:induction false} WithTopics(topics: set<Bytes>, log: seq<Event>, a: nat, b: nat, i: nat)
    requires topics != {} && a <= i < b <= |log|
    ensures log[i] in Filtered(topics, log, a, b) <==> log[i].topic in topics
    decreases b
  {
    if i < b - 1 {
      WithTopics(topics, log, a, b - 1, i);
    } else {
      OnTopic(topics, log, a, b - 1);
    }
  }

  lemma {:induction false} OnTopic(topics: set<Bytes>, log: seq<Event>, a: nat, b: nat)
    requires topics != {} && b <= |log|
    ensures forall k :: 0 <= k < |Filtered(topics, log, a, b)| ==> Filtered(topics, log, a, b)[k].topic in topics
    decreases b
  {
    if b > a {
      OnTopic(topics, log, a, b - 1);
    }
  }

  /** One broadcast, channel by channel: a registered open channel gets the event at its end if
      it asked for everything or for the event's topic and has room; if it is full the event is
      lost for it and that is recorded; any other channel stays as it was. */
  lemma BroadcastReaches(subs: map<nat, set<Bytes>>, chans: map<nat, Chan>, ev: Event, n: nat)
    requires Consistent(subs, chans) && n in chans
    ensures var after := OfferTo(subs, chans, ev, subs.Keys);
            && n in after
            && (n in subs && (subs[n] == {} || ev.topic in subs[n]) && |chans[n].queue| < 64 ==>
                  after[n] == chans[n].(queue := chans[n].queue + [ev]))
            && (n in subs && (subs[n] == {} || ev.topic in subs[n]) && |chans[n].queue| >= 64 ==>
                  after[n] == chans[n].(overflowed := true))
            && (n !in subs || (subs[n] != {} && ev.topic !in subs[n]) ==> after[n] == chans[n])
  {
  }

  /** Exact resume for a client without topics: what it accepted is a contiguous slice of the
      hub's log. */
  lemma ResumeSlice(cap: nat, steps: seq<Step>, k: nat)
    requires Runs(cap, steps) && k in Reach(cap, steps).clients && Reach(cap, steps).clients[k].topics == {}
    requires AllClean(Reach(cap, steps).conns, Reach(cap, steps).clients[k])
    ensures var s := Reach(cap, steps);
            var acc := s.clients[k].accepted;
            acc != [] ==>
              && 1 <= acc[0].id <= acc[|acc| - 1].id <= |s.log|
              && acc == s.log[acc[0].id - 1..acc[|acc| - 1].id]
  {
    hide Reach, Runs, AllClean, Filtered, Drawn, Apply;
    ResumeExact(cap, steps, k);
    AcceptedIncrease(cap, steps, k);
    var s := Reach(cap, steps);
    var acc := s.clients[k].accepted;
    if acc != [] {
      DrawnIds({}, s.log, acc);
      WithoutTopics(s.log, acc[0].id - 1, acc[|acc| - 1].id);
    }
  }

  lemma DrawnIds(topics: set<Bytes>, log: seq<Event>, acc: seq<Event>)
    requires acc != [] && Increasing(acc) && forall i :: 0 <= i < |acc| ==> Drawn(topics, log, acc[i])
    ensures 1 <= acc[0].id <= acc[|acc| - 1].id <= |log|
  {
    assert Drawn(topics, log, acc[0]) && Drawn(topics, log, acc[|acc| - 1]);
  }

  /** And for a client with topics: the accepted events are those of that slice on its topics. */
  lemma ResumeOnTopics(cap: nat, steps: seq<Step>, k: nat, i: nat)
    requires Runs(cap, steps) && k in Reach(cap, steps).clients && Reach(cap, steps).clients[k].topics != {}
    requires AllClean(Reach(cap, steps).conns, Reach(cap, steps).clients[k])
    requires var s := Reach(cap, steps);
             var acc := s.clients[k].accepted;
             acc != [] && i < |s.log| && acc[0].id <= i + 1 <= acc[|acc| - 1].id
    ensures var s := Reach(cap, steps); s.log[i] in s.clients[k].accepted <==> s.log[i].topic in s.clients[k].topics
  {
    hide Reach, Runs, AllClean, Filtered, Drawn, Apply;
    ResumeExact(cap, steps, k);
    AcceptedIncrease(cap, steps, k);
    var s := Reach(cap, steps);
    var cl := s.clients[k];
    DrawnIds(cl.topics, s.log, cl.accepted);
    WithTopics(cl.topics, s.log, cl.accepted[0].id - 1, cl.accepted[|cl.accepted| - 1].id, i);
  }

  // ---- the client's filters ---------------------------------------------------------------

  /** The duplicate filter lets an event through exactly if its id is above all seen before. */
  lemma PassesIff(last: nat, wire: seq<Event>, e: Event)
    requires NetbusClient.Positive(wire) && e.id > 0
    ensures Accept(last, wire + [e]) ==
            if e.id > last && (forall i :: 0 <= i < |wire| ==> wire[i].id < e.id) then Accept(last, wire) + [e]
            else Accept(last, wire)
  {
    AcceptSnoc(last, wire, e);
    HighestAccepted(last, wire);
  }

  lemma NothingAccepted(last: nat)
    ensures LastId(last, Accept(last, [])) == last
  {
  }

  lemma NextHighest(last: nat, front: seq<Event>, e: Event)
    requires e.id > 0
    ensures LastId(last, Accept(last, front + [e])) == Max(LastId(last, Accept(last, front)), e.id)
  {
    hide Accept;
    AcceptSnoc(last, front, e);
  }

  lemma {:induction false} HighestAccepted(last: nat, wire: seq<Event>)
    requires NetbusClient.Positive(wire)
    ensures var h := LastId(last, Accept(last, wire));
            && h >= last && (forall i :: 0 <= i < |wire| ==> wire[i].id <= h)
            && (h == last || exists i :: 0 <= i < |wire| && wire[i].id == h)
    decreases |wire|
  {
    hide Accept, LastId;
    if wire == [] {
      NothingAccepted(last);
    } else {
      var front, e := wire[..|wire| - 1], wire[|wire| - 1];
      HighestAccepted(last, front);
      NextHighest(last, front, e);
      assert front + [e] == wire;
      var h := LastId(last, Accept(last, front));
      if e.id <= h && h != last {
        var i :| 0 <= i < |front| && front[i].id == h;
        assert wire[i].id == h;
      }
    }
  }

  /** An event without a number is always let through and does not move the last id. */
  lemma UnnumberedPasses(last: nat, wire: seq<Event>, e: Event)
    requires e.id == 0
    ensures NetbusClient.Passed(last, wire + [e]) == NetbusClient.Passed(last, wire) + [e]
    ensures NetbusClient.Seen(last, wire + [e]) == NetbusClient.Seen(last, wire)
  {
    NetbusClient.Snoc(last, wire, e);
    SeenGrows(last, wire);
  }

  lemma {:induction false} SeenGrows(last: nat, wire: seq<Event>)
    ensures NetbusClient.Seen(last, wire) >= last
    decreases |wire|
  {
    if wire != [] {
      SeenGrows(last, wire[..|wire| - 1]);
    }
  }

  /** What passes is injected exactly if it has another origin than the client's. */
  lemma {:induction false} InjectedIff(origin: Bytes, es: seq<Event>, e: Event)
    requires e in es
    ensures e in NetbusClient.Others(origin, es) <==> e.origin != origin
    decreases |es|
  {
    var front := es[..|es| - 1];
    NoneOwn(origin, es);
    if e in front {
      InjectedIff(origin, front, e);
    } else {
      assert es == front + [es[|es| - 1]];
      assert e == es[|es| - 1];
    }
  }

  lemma {:induction false} NoneOwn(origin: Bytes, es: seq<Event>)
    ensures forall k :: 0 <= k < |NetbusClient.Others(origin, es)| ==> NetbusClient.Others(origin, es)[k].origin != origin
    decreases |es|
  {
    if es != [] {
      NoneOwn(origin, es[..|es| - 1]);
    }
  }

  // ---- one event from publisher to client -------------------------------------------------

  lemma RunsSnoc(cap: nat, steps: seq<Step>, step: Step)
    requires Runs(cap, steps) && Enabled(Reach(cap, steps), step)
    ensures Runs(cap, steps + [step]) && Reach(cap, steps + [step]) == Apply(Reach(cap, steps), step)
  {
    hide Enabled, Apply;
    assert Front(steps + [step]) == steps;
  }

  /** A new client joins and is connected, an event is published and broadcast, delivered and
      read. */
  function Relay(s: State, k: nat, topics: set<Bytes>, ev: Event): seq<Step> {
    var c := |s.conns|;
    [Join(k, topics), Connect(k), Snapshot(c), Publish(ev), Broadcast, Deliver(c), Read(k)]
  }

  /** From any reachable state of a hub that is not shutting down, with no publish under way:
      these steps can be taken in order, and the new client has accepted the event, under the
      next id and with its origin, whatever the event's topic if it gave none. */
  lemma EventReaches(cap: nat, steps: seq<Step>, k: nat, topics: set<Bytes>, ev: Event)
    requires Runs(cap, steps)
    requires var s := Reach(cap, steps); !s.shutdown && !s.held && k !in s.clients
    requires topics != {} ==> ev.topic in topics
    ensures var s := Reach(cap, steps);
            && Runs(cap, steps + Relay(s, k, topics, ev))
            && var t := Reach(cap, steps + Relay(s, k, topics, ev));
               var e := Event(|s.log| + 1, ev.topic, if ev.origin == "" then "external" else ev.origin, ev.kind, ev.data);
               t.log == s.log + [e] && k in t.clients && t.clients[k].accepted == [e] && t.clients[k].lastId == e.id
  {
    hide Apply, Enabled, Runs, Reach;
    var s := Reach(cap, steps);
    var c := |s.conns|;
    Joins(s, k, topics);
    var s1 := Apply(s, Join(k, topics));
    var s2 := Apply(s1, Connect(k));
    var s3 := Apply(s2, Snapshot(c));
    Delivers(s3, c, k, ev);
    var s4 := Apply(s3, Publish(ev));
    var s5 := Apply(s4, Broadcast);
    var s6 := Apply(s5, Deliver(c));
    RunsSnoc(cap, steps, Join(k, topics));
    RunsSnoc(cap, steps + [Join(k, topics)], Connect(k));
    RunsSnoc(cap, steps + [Join(k, topics)] + [Connect(k)], Snapshot(c));
    var three := steps + [Join(k, topics)] + [Connect(k)] + [Snapshot(c)];
    RunsSnoc(cap, three, Publish(ev));
    RunsSnoc(cap, three + [Publish(ev)], Broadcast);
    RunsSnoc(cap, three + [Publish(ev)] + [Broadcast], Deliver(c));
    RunsSnoc(cap, three + [Publish(ev)] + [Broadcast] + [Deliver(c)], Read(k));
    assert three + [Publish(ev)] + [Broadcast] + [Deliver(c)] + [Read(k)] == steps + Relay(s, k, topics, ev);
  }

  /** The client is connected and its subscription serves an empty queue. */
  predicate Serving(s: State, c: nat, k: nat) {
    && k in s.clients && c < |s.conns| && c in s.subs && !s.held && !s.shutdown
    && s.conns[c].pc == Live && s.conns[c].chan == NEW_CHAN && s.conns[c].wire == [] && s.conns[c].replayed == {}
    && s.conns[c].topics == s.clients[k].topics
    && s.clients[k].conns != [] && Current(s.clients[k]) == c && s.clients[k].connected && s.clients[k].pos == 0
    && s.clients[k].accepted == [] && s.clients[k].lastId == 0
  }

  lemma Joins(s: State, k: nat, topics: set<Bytes>)
    requires !s.shutdown && !s.held && k !in s.clients
    ensures Enabled(s, Join(k, topics)) && var a := Apply(s, Join(k, topics));
            Enabled(a, Connect(k)) && var b := Apply(a, Connect(k));
            Enabled(b, Snapshot(|s.conns|)) && var c := Apply(b, Snapshot(|s.conns|));
            Serving(c, |s.conns|, k) && c.log == s.log && c.clients[k].topics == topics
  {
    hide AfterIn, Matches;
  }

  lemma Delivers(s: State, c: nat, k: nat, ev: Event)
    requires Serving(s, c, k) && (s.clients[k].topics != {} ==> ev.topic in s.clients[k].topics)
    ensures Enabled(s, Publish(ev)) && var a := Apply(s, Publish(ev));
            Enabled(a, Broadcast) && var b := Apply(a, Broadcast);
            Enabled(b, Deliver(c)) && var d := Apply(b, Deliver(c));
            Enabled(d, Read(k)) && var t := Apply(d, Read(k));
            var e := Event(|s.log| + 1, ev.topic, if ev.origin == "" then "external" else ev.origin, ev.kind, ev.data);
            t.log == s.log + [e] && k in t.clients && t.clients[k].accepted == [e] && t.clients[k].lastId == e.id
  {
    hide Serving;
    Broadcasted(s, c, k, ev);
    var b := Apply(Apply(s, Publish(ev)), Broadcast);
    Reads(b, c, k, b.log[|s.log|]);
  }

  /** Like `Serving`, with e queued. */
  predicate Queued(s: State, c: nat, k: nat, e: Event) {
    && k in s.clients && c < |s.conns| && s.conns[c].pc == Live && s.conns[c].chan == NEW_CHAN.(queue := [e])
    && s.conns[c].wire == [] && s.conns[c].replayed == {}
    && s.clients[k].conns != [] && Current(s.clients[k]) == c && s.clients[k].connected && s.clients[k].pos == 0
    && s.clients[k].accepted == [] && s.clients[k].lastId == 0
  }

  lemma Broadcasted(s: State, c: nat, k: nat, ev: Event)
    requires Serving(s, c, k) && (s.clients[k].topics != {} ==> ev.topic in s.clients[k].topics)
    ensures Enabled(s, Publish(ev)) && var a := Apply(s, Publish(ev));
            Enabled(a, Broadcast) && var b := Apply(a, Broadcast);
            var e := Event(|s.log| + 1, ev.topic, if ev.origin == "" then "external" else ev.origin, ev.kind, ev.data);
            b.log == s.log + [e] && Queued(b, c, k, e)
  {
    var e := Event(|s.log| + 1, ev.topic, if ev.origin == "" then "external" else ev.origin, ev.kind, ev.data);
    var a := Apply(s, Publish(ev));
    assert a.log[|a.log| - 1] == e;
    var b := Apply(a, Broadcast);
    assert b.conns[c] == Offered(s.conns[c], e, |a.log|);
  }

  lemma Reads(b: State, c: nat, k: nat, e: Event)
    requires Queued(b, c, k, e) && e.id > 0
    ensures Enabled(b, Deliver(c)) && var d := Apply(b, Deliver(c));
            Enabled(d, Read(k)) && var t := Apply(d, Read(k));
            t.log == b.log && k in t.clients && t.clients[k].accepted == [e] && t.clients[k].lastId == e.id
  {
    var d := Apply(b, Deliver(c));
    assert d.conns[c].wire == [e];
  }
}
