/** A client that reconnects can be brought up to date by the replay alone. */
module NetbusReplay {
  import opened Prelude
  import opened NetbusHub
  import opened NetbusLog
  import opened NetbusProtocol
  import NetbusResume
  import NetbusSafety
  import NetbusTopics

  // ---- the replay -------------------------------------------------------------------------

  /** Client k reads subscription c. */
  predicate Reader(s: State, c: nat, k: nat, cl: Client) {
    && k in s.clients && s.clients[k] == cl && c < |s.conns|
    && cl.connected && cl.conns != [] && Current(cl) == c && s.conns[c].topics == cl.topics
  }

  function Resumed(cl: Client, c: nat): Client {
    cl.(conns := cl.conns + [c], connected := true, pos := 0, base := |cl.accepted|)
  }

  lemma Reconnects(s: State, k: nat)
    requires k in s.clients && !s.clients[k].connected && s.clients[k].lastId > 0 && !s.shutdown
    ensures var c, cl := |s.conns|, s.clients[k];
            Enabled(s, Connect(k)) && var a := Apply(s, Connect(k));
            Enabled(a, Snapshot(c)) && var b := Apply(a, Snapshot(c));
            && Reader(b, c, k, Resumed(cl, c)) && b.log == s.log && b.buf == s.buf
            && b.conns[c].pc == Replaying(AfterIn(s.buf, cl.lastId)) && b.conns[c].wire == []
  {
    hide AfterIn;
  }

  /** What the replay writes of a list of events. */
  function Picked(topics: set<Bytes>, es: seq<Event>): seq<Event> {
    if es == [] then [] else Picked(topics, es[..|es| - 1]) + Pick(topics, es[|es| - 1])
  }

  lemma PickedSnoc(topics: set<Bytes>, es: seq<Event>, e: Event)
    ensures Picked(topics, es + [e]) == Picked(topics, es) + Pick(topics, e)
  {
    assert (es + [e])[..|es|] == es;
  }

  lemma {:induction false} PickedIsFiltered(topics: set<Bytes>, log: seq<Event>, a: nat, b: nat)
    requires a <= b <= |log|
    ensures Picked(topics, log[a..b]) == Filtered(topics, log, a, b)
    decreases b
  {
    hide Pick;
    if a < b {
      PickedIsFiltered(topics, log, a, b - 1);
      assert log[a..b] == log[a..b - 1] + [log[b - 1]];
      PickedSnoc(topics, log[a..b - 1], log[b - 1]);
    }
  }

  lemma ReplayOne(s: State, c: nat, k: nat, cl: Client, rest: seq<Event>)
    requires Reader(s, c, k, cl) && s.conns[c].pc == Replaying(rest)
    ensures Enabled(s, Replay(c)) && var t := Apply(s, Replay(c));
            && Reader(t, c, k, cl) && t.log == s.log
            && if rest == [] then t.conns[c].pc == Live && t.conns[c].wire == s.conns[c].wire
               else t.conns[c].pc == Replaying(rest[1..]) && t.conns[c].wire == s.conns[c].wire + Pick(cl.topics, rest[0])
  {
    hide Pick;
  }

  function Repeat(step: Step, n: nat): seq<Step> {
    if n == 0 then [] else Repeat(step, n - 1) + [step]
  }

  lemma {:induction false} ReplayAll(cap: nat, steps: seq<Step>, c: nat, k: nat, cl: Client, rest: seq<Event>, n: nat)
    requires Runs(cap, steps) && Reader(Reach(cap, steps), c, k, cl)
    requires Reach(cap, steps).conns[c].pc == Replaying(rest) && Reach(cap, steps).conns[c].wire == []
    requires n <= |rest|
    ensures Runs(cap, steps + Repeat(Replay(c), n))
    ensures var t := Reach(cap, steps + Repeat(Replay(c), n));
            && Reader(t, c, k, cl) && t.log == Reach(cap, steps).log
            && t.conns[c].pc == Replaying(rest[n..]) && t.conns[c].wire == Picked(cl.topics, rest[..n])
    decreases n
  {
    hide Runs, Reach, Apply, Enabled, Reader, Picked;
    NoneYet(cl.topics);
    if n == 0 {
      assert steps + [] == steps && rest[0..] == rest && rest[..0] == [];
    } else {
      ReplayAll(cap, steps, c, k, cl, rest, n - 1);
      var before := steps + Repeat(Replay(c), n - 1);
      ReplayOne(Reach(cap, before), c, k, cl, rest[n - 1..]);
      NetbusTopics.RunsSnoc(cap, before, Replay(c));
      assert before + [Replay(c)] == steps + Repeat(Replay(c), n);
      assert rest[..n] == rest[..n - 1] + [rest[n - 1]];
      PickedSnoc(cl.topics, rest[..n - 1], rest[n - 1]);
      ReaderThere(Reach(cap, steps + Repeat(Replay(c), n)), c, k, cl);
    }
  }

  lemma NoneYet(topics: set<Bytes>)
    ensures Picked(topics, []) == []
  {
  }

  lemma ReaderThere(s: State, c: nat, k: nat, cl: Client)
    requires Reader(s, c, k, cl)
    ensures k in s.clients && c < |s.conns|
  {
  }

  // ---- reading it -------------------------------------------------------------------------

  /** The client after n events of the wire. */
  function ReadOn(cl: Client, wire: seq<Event>, n: nat): Client
    requires n <= |wire|
  {
    cl.(pos := n, accepted := cl.accepted + wire[..n], lastId := if n == 0 then cl.lastId else wire[n - 1].id)
  }

  lemma ReadOne(s: State, c: nat, k: nat, cl: Client, e: Event)
    requires Reader(s, c, k, cl) && cl.pos < |s.conns[c].wire| && s.conns[c].wire[cl.pos] == e && e.id > cl.lastId
    ensures Enabled(s, Read(k)) && var t := Apply(s, Read(k));
            && Reader(t, c, k, cl.(pos := cl.pos + 1, lastId := e.id, accepted := cl.accepted + [e]))
            && t.log == s.log && t.conns == s.conns
  {
  }

  lemma {:induction false} ReadAll(cap: nat, steps: seq<Step>, c: nat, k: nat, cl: Client, wire: seq<Event>, n: nat)
    requires Runs(cap, steps) && Reader(Reach(cap, steps), c, k, cl) && cl.pos == 0
    requires Reach(cap, steps).conns[c].wire == wire && n <= |wire|
    requires Increasing(wire) && forall i :: 0 <= i < |wire| ==> wire[i].id > cl.lastId
    ensures Runs(cap, steps + Repeat(Read(k), n))
    ensures var t := Reach(cap, steps + Repeat(Read(k), n));
            Reader(t, c, k, ReadOn(cl, wire, n)) && t.log == Reach(cap, steps).log && t.conns[c].wire == wire
    decreases n
  {
    hide Runs, Reach, Apply, Enabled, Reader;
    if n == 0 {
      assert steps + [] == steps;
      assert cl.accepted + wire[..0] == cl.accepted;
    } else {
      ReadAll(cap, steps, c, k, cl, wire, n - 1);
      var before := steps + Repeat(Read(k), n - 1);
      ReadOne(Reach(cap, before), c, k, ReadOn(cl, wire, n - 1), wire[n - 1]);
      NetbusTopics.RunsSnoc(cap, before, Read(k));
      assert before + [Read(k)] == steps + Repeat(Read(k), n);
      assert cl.accepted + wire[..n - 1] + [wire[n - 1]] == cl.accepted + wire[..n];
    }
  }

  // ---- the whole --------------------------------------------------------------------------

  /** From any reachable state of a hub that is not shut down, with a client that has seen
      events, is not connected, and has missed none that the ring has lost: it can reconnect,
      have its replay written, and read it; it has then accepted exactly the events on its topics
      that it had missed, in order. */
  lemma ResumeReaches(cap: nat, steps: seq<Step>, k: nat) returns (more: seq<Step>)
    requires Runs(cap, steps)
    requires var s := Reach(cap, steps);
             && !s.shutdown && k in s.clients && !s.clients[k].connected
             && 0 < s.clients[k].lastId && |s.log| - cap <= s.clients[k].lastId
    ensures Runs(cap, steps + more)
    ensures var s, t := Reach(cap, steps), Reach(cap, steps + more);
            && t.log == s.log && k in t.clients && s.clients[k].lastId <= |s.log|
            && t.clients[k].accepted == s.clients[k].accepted + Filtered(s.clients[k].topics, s.log, s.clients[k].lastId, |s.log|)
  {
    hide Runs, Reach, Apply, Enabled, Reader, Picked, Filtered, AfterIn, Increasing, Numbered;
    var s := Reach(cap, steps);
    var c, last := |s.conns|, s.clients[k].lastId;
    SeenIsLogged(cap, steps, k);
    Reconnects(s, k);
    var first := steps + [Connect(k)] + [Snapshot(c)];
    NetbusTopics.RunsSnoc(cap, steps, Connect(k));
    NetbusTopics.RunsSnoc(cap, steps + [Connect(k)], Snapshot(c));
    NetbusSafety.RingIsLog(cap, steps, last);
    var rest := s.log[last..];
    assert AfterIn(s.buf, last) == rest;
    var cl := Resumed(s.clients[k], c);
    ReplayAll(cap, first, c, k, cl, rest, |rest|);
    var second := first + Repeat(Replay(c), |rest|);
    assert rest[..|rest|] == rest && s.log[last..|s.log|] == rest && rest[|rest|..] == [];
    PickedIsFiltered(cl.topics, s.log, last, |s.log|);
    ReplayOne(Reach(cap, second), c, k, cl, []);
    NetbusTopics.RunsSnoc(cap, second, Replay(c));
    var third := second + [Replay(c)];
    var wire := Filtered(cl.topics, s.log, last, |s.log|);
    Above(cl.topics, s.log, last);
    ReadAll(cap, third, c, k, cl, wire, |wire|);
    assert wire[..|wire|] == wire;
    more := [Connect(k)] + [Snapshot(c)] + Repeat(Replay(c), |rest|) + [Replay(c)] + Repeat(Read(k), |wire|);
    assert third + Repeat(Read(k), |wire|) == steps + more;
    ReaderIs(Reach(cap, steps + more), c, k, ReadOn(cl, wire, |wire|));
  }

  lemma SeenIsLogged(cap: nat, steps: seq<Step>, k: nat)
    requires Runs(cap, steps) && k in Reach(cap, steps).clients
    ensures Reach(cap, steps).clients[k].lastId <= |Reach(cap, steps).log|
  {
    hide Reach, Runs, NetbusResume.HubOk, NetbusResume.ConnsOk, NetbusResume.ReadingOk, NetbusResume.NoGap, Increasing;
    NetbusResume.RunKeeps(cap, steps);
    NetbusResume.AcceptedIncrease(cap, steps, k);
  }

  lemma Above(topics: set<Bytes>, log: seq<Event>, last: nat)
    requires Numbered(log)
    ensures var f := Filtered(topics, log, last, |log|);
            Increasing(f) && forall i :: 0 <= i < |f| ==> f[i].id > last
  {
    hide Filtered, Increasing;
    FilteredMembers(topics, log, last, |log|);
  }

  lemma ReaderIs(s: State, c: nat, k: nat, cl: Client)
    requires Reader(s, c, k, cl)
    ensures k in s.clients && s.clients[k] == cl
  {
  }
}
