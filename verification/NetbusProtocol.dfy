/** The hub and its clients as one transition system. Every step is one critical section, one
    write, or one read; assigning an id and broadcasting the event are separate steps, as are
    registering a subscriber and taking its replay snapshot. */
module NetbusProtocol {
  import opened Prelude
  import opened NetbusHub
  import opened NetbusLog

  // ---- state ------------------------------------------------------------------------------

  /** Where a handleSubscribe is: registered, replaying what is left of its snapshot, serving
      its queue, or returned. */
  datatype Pc = Added | Replaying(rest: seq<Event>) | Live | Done

  /** One subscription. `wire` is everything written to it. The last fields record history for
      the statements: how far its queue has been offered and read, what its snapshot covered,
      how far the wire reaches, and whether the snapshot had lost an id above `last`. */
  datatype Conn = Conn(topics: set<Bytes>, last: nat, chan: Chan, pc: Pc, replayed: set<nat>, wire: seq<Event>,
                       born: nat, read: nat, until: nat, from: nat, snap: nat, upto: nat, gapped: bool)

  /** One netbus client: its subscriptions so far, how much of the current one's wire it has
      read, and what its filter let through. `base` is how much of that was there when the
      current subscription was opened. */
  datatype Client = Client(topics: set<Bytes>, lastId: nat, accepted: seq<Event>, conns: seq<nat>, connected: bool, pos: nat, base: nat)

  /** `held` is true between ring.add and broadcast, while the publish lock is held. `buf` is
      the ring's buffer, `log` every event it was ever given. */
  datatype State = State(cap: nat, log: seq<Event>, buf: seq<Event>, held: bool, subs: set<nat>, conns: seq<Conn>,
                         clients: map<nat, Client>, shutdown: bool)

  function Initial(cap: nat): State {
    State(cap, [], [], false, {}, [], map[], false)
  }

  // ---- steps ------------------------------------------------------------------------------

  datatype Step =
    | Publish(ev: Event)
    | Broadcast
    | Subscribe(topics: set<Bytes>, last: nat)
    | Snapshot(c: nat)
    | Replay(c: nat)
    | Deliver(c: nat)
    | HangUp(c: nat)
    | Remove(c: nat)
    | CloseAll
    | Join(k: nat, topics: set<Bytes>)
    | Connect(k: nat)
    | Read(k: nat)
    | Drop(k: nat)

  predicate Enabled(s: State, step: Step) {
    match step
    case Publish(_) => !s.held
    case Broadcast => s.held && s.log != []
    case Subscribe(_, _) => true
    case Snapshot(c) => c < |s.conns| && s.conns[c].pc.Added?
    case Replay(c) => c < |s.conns| && s.conns[c].pc.Replaying?
    case Deliver(c) => c < |s.conns| && s.conns[c].pc.Live? && s.conns[c].chan.queue != []
    case HangUp(c) => c < |s.conns| && !s.conns[c].pc.Done?
    case Remove(c) => c < |s.conns| && s.conns[c].pc.Done?
    case CloseAll => true
    case Join(k, _) => k !in s.clients
    case Connect(k) => k in s.clients && !s.clients[k].connected
    case Read(k) => k in s.clients && s.clients[k].connected && s.clients[k].conns != []
                    && Current(s.clients[k]) < |s.conns| && s.clients[k].pos < |s.conns[Current(s.clients[k])].wire|
    case Drop(k) => k in s.clients && s.clients[k].connected
  }

  function Current(cl: Client): nat
    requires cl.conns != []
  {
    cl.conns[|cl.conns| - 1]
  }

  /** How many events have been broadcast. */
  function Broadcasts(s: State): nat {
    if s.held && s.log != [] then |s.log| - 1 else |s.log|
  }

  function NewConn(s: State, topics: set<Bytes>, last: nat): Conn {
    var b := Broadcasts(s);
    Conn(topics, last, if s.shutdown then Close(NEW_CHAN) else NEW_CHAN, Added, {}, [], b, b, b, 0, 0, 0, false)
  }

  function WithConn(s: State, topics: set<Bytes>, last: nat): State {
    s.(conns := s.conns + [NewConn(s, topics, last)], subs := if s.shutdown then s.subs else s.subs + {|s.conns|})
  }

  /** The event just broadcast reaches one subscription. */
  function Offered(c: Conn, ev: Event, n: nat): Conn {
    c.(chan := if Matches(c.topics, ev) then Offer(c.chan, ev) else c.chan, until := n)
  }

  /** The replay snapshot: everything buffered above Last-Event-ID, if one was given. */
  function Snapshotted(s: State, c: Conn): Conn {
    if c.last == 0 then c.(pc := Live, from := c.born, snap := c.born, upto := Max(c.born, c.read))
    else
      var from := Start(s.log, s.cap, c.last);
      var rest := AfterIn(s.buf, c.last);
      c.(pc := Replaying(rest), replayed := set i | 0 <= i < |rest| :: rest[i].id,
         from := from, snap := |s.log|, upto := from, gapped := from > c.last)
  }

  /** ring.after on the buffer. */
  function AfterIn(buf: seq<Event>, id: nat): seq<Event> {
    if buf == [] then [] else (if buf[0].id > id then [buf[0]] else []) + AfterIn(buf[1..], id)
  }

  function Replayed(c: Conn): Conn
    requires c.pc.Replaying?
  {
    if c.pc.rest == [] then c.(pc := Live, upto := Max(c.snap, c.read))
    else
      c.(pc := Replaying(c.pc.rest[1..]), wire := c.wire + Pick(c.topics, c.pc.rest[0]), upto := c.upto + 1)
  }

  /** One event off the queue: skipped once if the replay already wrote it. */
  function Delivered(c: Conn): Conn
    requires c.chan.queue != []
  {
    var ev := c.chan.queue[0];
    var c' := c.(chan := c.chan.(queue := c.chan.queue[1..]), read := ev.id, upto := Max(c.snap, ev.id));
    if ev.id in c.replayed then c'.(replayed := c.replayed - {ev.id}) else c'.(wire := c.wire + [ev])
  }

  /** One event off the wire, through the client's filter. */
  function Received(cl: Client, e: Event): Client {
    if e.id != 0 && e.id <= cl.lastId then cl.(pos := cl.pos + 1)
    else cl.(pos := cl.pos + 1, lastId := Max(cl.lastId, e.id), accepted := cl.accepted + [e])
  }

  function Apply(s: State, step: Step): State
    requires Enabled(s, step)
  {
    match step
    case Publish(ev) =>
      var e := WithOrigin(ev).(id := |s.log| + 1);
      var buf := s.buf + [e];
      s.(log := s.log + [e], buf := if |buf| > s.cap then buf[|buf| - s.cap..] else buf, held := true)
    case Broadcast =>
      var ev := s.log[|s.log| - 1];
      s.(conns := seq(|s.conns|, i requires 0 <= i < |s.conns| =>
                        if i in s.subs then Offered(s.conns[i], ev, |s.log|) else s.conns[i]),
         held := false)
    case Subscribe(topics, last) => WithConn(s, topics, last)
    case Snapshot(c) => s.(conns := s.conns[c := Snapshotted(s, s.conns[c])])
    case Replay(c) => s.(conns := s.conns[c := Replayed(s.conns[c])])
    case Deliver(c) => s.(conns := s.conns[c := Delivered(s.conns[c])])
    case HangUp(c) => s.(conns := s.conns[c := s.conns[c].(pc := Done)])
    case Remove(c) =>
      if c in s.subs then s.(conns := s.conns[c := s.conns[c].(chan := Close(s.conns[c].chan))], subs := s.subs - {c}) else s
    case CloseAll =>
      s.(conns := seq(|s.conns|, i requires 0 <= i < |s.conns| =>
                        if i in s.subs then s.conns[i].(chan := Close(s.conns[i].chan)) else s.conns[i]),
         subs := {}, shutdown := true)
    case Join(k, topics) => s.(clients := s.clients[k := Client(topics, 0, [], [], false, 0, 0)])
    case Connect(k) =>
      var cl := s.clients[k];
      WithConn(s, cl.topics, cl.lastId).(clients := s.clients[k :=
        cl.(conns := cl.conns + [|s.conns|], connected := true, pos := 0, base := |cl.accepted|)])
    case Read(k) =>
      var cl := s.clients[k];
      s.(clients := s.clients[k := Received(cl, s.conns[Current(cl)].wire[cl.pos])])
    case Drop(k) => s.(clients := s.clients[k := s.clients[k].(connected := false)])
  }

  // ---- runs -------------------------------------------------------------------------------

  predicate Runs(cap: nat, steps: seq<Step>)
    decreases |steps|, 0
  {
    steps == [] || (Runs(cap, Front(steps)) && Enabled(Reach(cap, Front(steps)), steps[|steps| - 1]))
  }

  /** The state after any interleaving of steps. */
  function Reach(cap: nat, steps: seq<Step>): State
    requires Runs(cap, steps)
    decreases |steps|, 1
  {
    if steps == [] then Initial(cap) else Apply(Reach(cap, Front(steps)), steps[|steps| - 1])
  }
}
