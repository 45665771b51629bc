/** a2a/taskstore.go: the event broker of one running task, as a mutable object over the
    unbounded log of its events. */
module TaskBroker {
  import opened Prelude
  import opened A2aTypes

  const DEFAULT_MAX_EVENTS: nat := 4096
  const QUEUE_CAP: nat := 64

  /** A subscriber's channel, with how often it was closed and how often something was sent to
      it after that (Go panics on either), and whether it was dropped for being slow. */
  datatype Chan = Chan(queue: seq<TaskEvent>, closes: nat, lateSends: nat, overflow: bool) {
    predicate Closed() {
      closes > 0
    }

    /** Closed exactly if it is not open, and never twice; never sent to once closed. */
    predicate Sound(open: bool) {
      closes == (if open then 0 else 1) && lateSends == 0
    }
  }

  const NEW_CHAN := Chan([], 0, 0, false)

  /** Sending never blocks: a full channel is marked and closed instead. */
  function Offer(c: Chan, ev: TaskEvent): Chan {
    if c.Closed() then c.(lateSends := c.lateSends + 1)
    else if |c.queue| < QUEUE_CAP then c.(queue := c.queue + [ev])
    else Close(c.(overflow := true))
  }

  function Close(c: Chan): Chan {
    c.(closes := c.closes + 1)
  }

  /** The events of emitFinal: the latest buffered artifact, then the latest buffered status. */
  function LatestStatus(buf: seq<TaskEvent>): Option<TaskEvent> {
    if buf == [] then None
    else if buf[|buf| - 1].StatusEvent? then Some(buf[|buf| - 1])
    else LatestStatus(buf[..|buf| - 1])
  }

  function LatestArtifact(buf: seq<TaskEvent>): Option<TaskEvent> {
    if buf == [] then None
    else if buf[|buf| - 1].ArtifactEvent? then Some(buf[|buf| - 1])
    else LatestArtifact(buf[..|buf| - 1])
  }

  function ToSeq(e: Option<TaskEvent>): seq<TaskEvent> {
    if e.Some? then [e.value] else []
  }

  function FinalEvents(buf: seq<TaskEvent>): seq<TaskEvent> {
    ToSeq(LatestArtifact(buf)) + ToSeq(LatestStatus(buf))
  }

  // ---- what publish and close do to the channels ------------------------------------------

  function OfferTo(chans: map<nat, Chan>, who: set<nat>, ev: TaskEvent): map<nat, Chan> {
    map n | n in chans :: if n in who then Offer(chans[n], ev) else chans[n]
  }

  /** The subscribers that had room. */
  function WithRoom(chans: map<nat, Chan>, subs: set<nat>): set<nat> {
    set n | n in subs && n in chans && |chans[n].queue| < QUEUE_CAP
  }

  function CloseThese(chans: map<nat, Chan>, who: set<nat>): map<nat, Chan> {
    map n | n in chans :: if n in who then Close(chans[n]) else chans[n]
  }

  lemma OfferedMore(chans: map<nat, Chan>, who: set<nat>, ev: TaskEvent, n: nat)
    requires n in chans && n !in who
    ensures OfferTo(chans, who + {n}, ev) == OfferTo(chans, who, ev)[n := Offer(chans[n], ev)]
    ensures OfferTo(chans, who, ev)[n] == chans[n]
  {
    hide Offer;
  }

  lemma ClosedMore(chans: map<nat, Chan>, who: set<nat>, n: nat)
    requires n in chans && n !in who
    ensures CloseThese(chans, who + {n}) == CloseThese(chans, who)[n := Close(chans[n])]
    ensures CloseThese(chans, who)[n] == chans[n]
  {
    hide Close;
  }

  lemma Nobody(chans: map<nat, Chan>, ev: TaskEvent)
    ensures OfferTo(chans, {}, ev) == chans && CloseThese(chans, {}) == chans
  {
  }

  /** The registered channels are the open ones. */
  predicate Registry(chans: map<nat, Chan>, subs: set<nat>, nextId: nat) {
    && (forall n :: n in subs ==> n in chans)
    && forall n :: n in chans ==> n < nextId && chans[n].Sound(n in subs)
  }

  lemma RegistryOffer(chans: map<nat, Chan>, subs: set<nat>, nextId: nat, n: nat, ev: TaskEvent)
    requires Registry(chans, subs, nextId) && n in subs
    ensures n in chans
    ensures Registry(chans[n := Offer(chans[n], ev)], if |chans[n].queue| < QUEUE_CAP then subs else subs - {n}, nextId)
  {
  }

  lemma RegistryClose(chans: map<nat, Chan>, subs: set<nat>, nextId: nat, n: nat)
    requires Registry(chans, subs, nextId) && n in subs
    ensures n in chans && Registry(chans[n := Close(chans[n])], subs - {n}, nextId)
  {
  }

  lemma RegistryKeys(chans: map<nat, Chan>, subs: set<nat>, nextId: nat)
    requires Registry(chans, subs, nextId)
    ensures subs <= chans.Keys
  {
  }

  class TaskBroker {
    const max: nat
    var buf: seq<TaskEvent>
    var subs: set<nat>
    var chans: map<nat, Chan>
    var nextId: nat
    var done: bool
    ghost var log: seq<TaskEvent>

    /** The buffer is the end of the log; a registered channel was never closed, any other
        exactly once, and none was sent to after its close; after close none is registered. */
    ghost predicate Valid()
      reads this
    {
      && max > 0 && buf == Last(log, max) && (done ==> subs == {})
      && Registry(chans, subs, nextId)
    }

    constructor (max: int)
      ensures Valid() && log == [] && chans == map[] && subs == {} && !done
      ensures this.max == if max <= 0 then DEFAULT_MAX_EVENTS else max
    {
      this.max := if max <= 0 then DEFAULT_MAX_EVENTS else max;
      buf, subs, chans, nextId, done, log := [], {}, map[], 0, false, [];
    }

    /** Buffers the event and offers it to every subscriber, dropping those that are full. */
    method Publish(ev: TaskEvent)
      requires Valid()
      modifies this`buf, this`subs, this`chans, this`log
      ensures Valid() && log == old(log) + [ev]
      ensures chans == OfferTo(old(chans), old(subs), ev) && subs == WithRoom(old(chans), old(subs))
    {
      hide Offer, OfferTo, Close, Last, WithRoom, Registry;
      LastGrows(log, ev, max);
      buf := buf + [ev];
      if |buf| > max {
        buf := buf[|buf| - max..];
      }
      log := log + [ev];
      ghost var before, all := chans, subs;
      var todo := subs;
      RegistryKeys(chans, subs, nextId);
      Nobody(chans, ev);
      NoRoom(chans);
      assert all - todo == {};
      while todo != {}
        invariant Valid() && todo <= all <= before.Keys && todo <= subs && log == old(log) + [ev]
        invariant chans == OfferTo(before, all - todo, ev)
        invariant subs == todo + WithRoom(before, all - todo)
        decreases todo
      {
        var n :| n in todo;
        OfferedMore(before, all - todo, ev, n);
        assert all - (todo - {n}) == all - todo + {n};
        RoomMore(before, all - todo, n);
        RegistryOffer(chans, subs, nextId, n, ev);
        todo := todo - {n};
        if |chans[n].queue| < QUEUE_CAP {
          chans := chans[n := Offer(chans[n], ev)];
        } else {
          chans := chans[n := Offer(chans[n], ev)];
          subs := subs - {n};
        }
      }
      assert all - todo == all;
    }

    method CloseBroker()
      requires Valid()
      modifies this`subs, this`chans, this`done
      ensures Valid() && done && subs == {}
      ensures chans == if old(done) then old(chans) else CloseThese(old(chans), old(subs))
    {
      hide CloseThese, Registry, Close;
      if done {
        return;
      }
      done := true;
      ghost var before, all := chans, subs;
      RegistryKeys(chans, subs, nextId);
      Nobody(chans, StatusEvent(Status(Working, None, None), false));
      var todo := subs;
      assert all - todo == {};
      while todo != {}
        invariant todo <= all <= before.Keys && subs == todo && done && max > 0 && buf == Last(log, max)
        invariant Registry(chans, subs, nextId)
        invariant chans == CloseThese(before, all - todo)
        decreases todo
      {
        var n :| n in todo;
        ClosedMore(before, all - todo, n);
        assert all - (todo - {n}) == all - todo + {n};
        RegistryClose(chans, subs, nextId, n);
        chans := chans[n := Close(chans[n])];
        todo := todo - {n};
        subs := subs - {n};
      }
      assert all - todo == all;
    }

    /** The replay buffer and a live channel; a closed one once the broker is done. */
    method Subscribe() returns (replay: seq<TaskEvent>, ch: Chan, id: Option<nat>)
      requires Valid()
      modifies this`subs, this`chans, this`nextId
      ensures Valid() && replay == Last(log, max) && ch == if done then Close(NEW_CHAN) else NEW_CHAN
      ensures if done then id == None && subs == old(subs) && chans == old(chans)
              else id == Some(old(nextId)) && subs == old(subs) + {id.value} && chans == old(chans)[id.value := ch]
    {
      replay := buf;
      ch := NEW_CHAN;
      if done {
        ch := Close(ch);
        return replay, ch, None;
      }
      id := Some(nextId);
      chans := chans[nextId := ch];
      subs := subs + {nextId};
      nextId := nextId + 1;
    }

    /** Closes the channel unless it was dropped or closed already. */
    method Unsubscribe(id: nat)
      requires Valid()
      modifies this`subs, this`chans
      ensures Valid() && subs == old(subs) - {id}
      ensures chans == if id in old(subs) then old(chans)[id := Close(old(chans)[id])] else old(chans)
    {
      if id in subs {
        chans := chans[id := Close(chans[id])];
        subs := subs - {id};
      }
    }

    /** emitFinal's backward walk over the buffer. */
    method EmitFinal() returns (out: seq<TaskEvent>)
      requires Valid()
      ensures out == FinalEvents(buf)
    {
      var status, artifact: Option<TaskEvent> := None, None;
      var i := |buf|;
      assert buf[..i] == buf;
      while i > 0 && !(status.Some? && artifact.Some?)
        invariant 0 <= i <= |buf|
        invariant if status.Some? then status == LatestStatus(buf) else LatestStatus(buf) == LatestStatus(buf[..i])
        invariant if artifact.Some? then artifact == LatestArtifact(buf) else LatestArtifact(buf) == LatestArtifact(buf[..i])
      {
        i := i - 1;
        assert buf[..i + 1][..i] == buf[..i];
        if status.None? && buf[i].StatusEvent? {
          status := Some(buf[i]);
        }
        if artifact.None? && buf[i].ArtifactEvent? {
          artifact := Some(buf[i]);
        }
      }
      out := ToSeq(artifact) + ToSeq(status);
    }
  }

  lemma NoRoom(chans: map<nat, Chan>)
    ensures WithRoom(chans, {}) == {}
  {
  }

  lemma RoomMore(chans: map<nat, Chan>, who: set<nat>, n: nat)
    requires n in chans && n !in who
    ensures WithRoom(chans, who) <= who
    ensures WithRoom(chans, who + {n}) == WithRoom(chans, who) + if |chans[n].queue| < QUEUE_CAP then {n} else {}
  {
  }
}
