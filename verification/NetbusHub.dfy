/** netbus/hub.go: the replay ring and the subscriber table, as mutable objects proved against
    an unbounded log. */
module NetbusHub {
  import opened Prelude

  datatype Event = Event(id: nat, topic: Bytes, origin: Bytes, kind: Bytes, data: Bytes)

  /** handlePublish: an event without an origin is marked as external. */
  function WithOrigin(ev: Event): (e: Event)
    ensures e.origin != ""
  {
    if ev.origin == "" then ev.(origin := "external") else ev
  }

  /** An empty topic set subscribes to everything. */
  predicate Matches(topics: set<Bytes>, ev: Event) {
    topics == {} || ev.topic in topics
  }

  // ---- the log --------------------------------------------------------------------------

  /** Ids count up from one without a hole. */
  predicate Numbered(log: seq<Event>) {
    forall i :: 0 <= i < |log| ==> log[i].id == i + 1
  }

  /** Where the events after `id` start among the last `cap` of the log. */
  function Start(log: seq<Event>, cap: nat, id: int): (i: nat)
    ensures i <= |log|
  {
    Min(Max(id, Max(|log| - cap, 0)), |log|)
  }

  /** What a snapshot after `id` can return: the log from there on, less what was evicted. */
  function After(log: seq<Event>, cap: nat, id: int): seq<Event> {
    log[Start(log, cap, id)..]
  }

  class Ring {
    var lastId: nat
    var buf: seq<Event>
    const cap: nat
    ghost var log: seq<Event>

    ghost predicate Valid()
      reads this
    {
      lastId == |log| && Numbered(log) && buf == Last(log, cap)
    }

    constructor (cap: nat)
      ensures Valid() && log == [] && this.cap == cap
    {
      this.cap, lastId, buf, log := cap, 0, [], [];
    }

    /** The next id, the newest cap events kept. */
    method Add(ev: Event) returns (e: Event)
      requires Valid()
      modifies this
      ensures Valid() && log == old(log) + [e] && e == ev.(id := |log|)
    {
      lastId := lastId + 1;
      e := ev.(id := lastId);
      buf := buf + [e];
      if |buf| > cap {
        buf := buf[|buf| - cap..];
      }
      log := log + [e];
    }

    /** The buffered events above `id`, found by walking the whole buffer. */
    method EventsAfter(id: int) returns (out: seq<Event>)
      requires Valid()
      ensures out == After(log, cap, id)
    {
      hide Numbered, Last, Start;
      out := [];
      ghost var first := |log| - |buf|;
      ghost var from := Start(log, cap, id);
      LastLength(log, cap);
      StartBounds(log, cap, id);
      for k := 0 to |buf|
        invariant out == Walked(log, from, first, first + k)
      {
        BufferAt(log, cap, k);
        StartAt(log, cap, id, first + k);
        WalkOn(log, from, first, first + k);
        if buf[k].id > id {
          out := out + [buf[k]];
        }
      }
    }
  }

  /** The part of log[from..] among the entries from `first` up to n. */
  function Walked(log: seq<Event>, from: nat, first: nat, n: nat): seq<Event>
    requires first <= from && first <= n <= |log|
  {
    if n <= from then [] else log[from..n]
  }

  lemma WalkOn(log: seq<Event>, from: nat, first: nat, n: nat)
    requires first <= from && first <= n < |log|
    ensures Walked(log, from, first, n + 1) == if n < from then Walked(log, from, first, n) else Walked(log, from, first, n) + [log[n]]
  {
  }

  lemma LastLength(log: seq<Event>, cap: nat)
    ensures |Last(log, cap)| == Min(|log|, cap)
  {
  }

  lemma BufferAt(log: seq<Event>, cap: nat, k: nat)
    requires Numbered(log) && k < |Last(log, cap)|
    ensures var n := |log| - |Last(log, cap)| + k; Last(log, cap)[k] == log[n] && log[n].id == n + 1
  {
  }

  lemma StartBounds(log: seq<Event>, cap: nat, id: int)
    ensures |log| - Min(|log|, cap) <= Start(log, cap, id)
  {
  }

  lemma StartAt(log: seq<Event>, cap: nat, id: int, n: nat)
    requires |log| - Min(|log|, cap) <= n < |log|
    ensures n < Start(log, cap, id) <==> n + 1 <= id
  {
  }

  // ---- subscribers ----------------------------------------------------------------------

  const QUEUE_CAP: nat := 64

  /** A subscriber's channel, with how often it was closed and how often something was sent to
      it after that: Go panics on a second close and on any send to a closed channel.
      `overflowed` remembers that an event was dropped. */
  datatype Chan = Chan(queue: seq<Event>, closes: nat, lateSends: nat, overflowed: bool) {
    predicate Closed() {
      closes > 0
    }

    /** Closed exactly if it is not open, and never twice; never sent to once closed. */
    predicate Sound(open: bool) {
      closes == (if open then 0 else 1) && lateSends == 0
    }
  }

  const NEW_CHAN := Chan([], 0, 0, false)

  function Offer(c: Chan, ev: Event): Chan {
    if c.Closed() then c.(lateSends := c.lateSends + 1)
    else if |c.queue| < QUEUE_CAP then c.(queue := c.queue + [ev])
    else c.(overflowed := true)
  }

  function Close(c: Chan): Chan {
    c.(closes := c.closes + 1)
  }

  /** The registered channels are the open ones; the others were closed once. */
  predicate Consistent(subs: map<nat, set<Bytes>>, chans: map<nat, Chan>) {
    && (forall n :: n in subs ==> n in chans)
    && forall n :: n in chans ==> chans[n].Sound(n in subs)
  }

  function OfferTo(subs: map<nat, set<Bytes>>, chans: map<nat, Chan>, ev: Event, who: set<nat>): map<nat, Chan> {
    map n | n in chans :: if n in who && n in subs && Matches(subs[n], ev) then Offer(chans[n], ev) else chans[n]
  }

  function CloseThese(chans: map<nat, Chan>, who: set<nat>): map<nat, Chan> {
    map n | n in chans :: if n in who then Close(chans[n]) else chans[n]
  }

  lemma OfferedIs(subs: map<nat, set<Bytes>>, chans: map<nat, Chan>, ev: Event)
    requires forall n :: n in subs ==> n in chans
    ensures forall n :: n in subs ==>
              OfferTo(subs, chans, ev, subs.Keys)[n] == if subs[n] == {} || ev.topic in subs[n] then Offer(chans[n], ev) else chans[n]
  {
    hide Offer;
  }

  class Hub {
    var subs: map<nat, set<Bytes>>
    var chans: map<nat, Chan>
    var nextSub: nat
    var shutdown: bool

    ghost predicate Valid()
      reads this
    {
      Consistent(subs, chans) && forall n :: n in chans ==> n < nextSub
    }

    constructor ()
      ensures Valid() && subs == map[] && chans == map[] && nextSub == 0 && !shutdown
    {
      subs, chans, nextSub, shutdown := map[], map[], 0, false;
    }

    /** A registered open channel, or after shutdown no registration (and a closed channel). */
    method AddSub(topics: set<Bytes>) returns (id: int, ch: Chan)
      requires Valid()
      modifies this
      ensures Valid() && shutdown == old(shutdown)
      ensures old(shutdown) ==> id == -1 && ch == Close(NEW_CHAN) && subs == old(subs) && chans == old(chans) && nextSub == old(nextSub)
      ensures !old(shutdown) ==>
                && id == old(nextSub) && nextSub == id + 1 && ch == NEW_CHAN
                && subs == old(subs)[id := topics] && chans == old(chans)[id := ch]
    {
      ch := NEW_CHAN;
      if shutdown {
        ch := Close(ch);
        return -1, ch;
      }
      id := nextSub;
      nextSub := nextSub + 1;
      subs := subs[id := topics];
      chans := chans[id := ch];
    }

    /** Closes the channel once: a second call, or one after CloseAll, does nothing. */
    method RemoveSub(id: int)
      requires Valid()
      modifies this`subs, this`chans
      ensures Valid() && (id < 0 || id !in subs)
      ensures if id >= 0 && id in old(subs) then subs == old(subs) - {id} && chans == old(chans)[id := Close(old(chans)[id])]
              else subs == old(subs) && chans == old(chans)
    {
      if id >= 0 && id in subs {
        chans := chans[id := Close(chans[id])];
        subs := subs - {id};
      }
    }

    /** Offers the event to every matching subscriber, in any order, dropping it for the full
        ones; `Valid` says that no closed channel was sent to. */
    method Broadcast(ev: Event)
      requires Valid()
      modifies this`chans
      ensures Valid()
      ensures chans == OfferTo(subs, old(chans), ev, subs.Keys)
      ensures forall n :: n in subs ==>
                chans[n] == if subs[n] == {} || ev.topic in subs[n] then Offer(old(chans)[n], ev) else old(chans)[n]
    {
      hide Matches, Offer, Consistent;
      ghost var before := chans;
      Registered(subs, chans);
      var todo := subs.Keys;
      Nobody(subs, chans, ev);
      while todo != {}
        invariant todo <= subs.Keys <= before.Keys && Valid()
        invariant chans == OfferTo(subs, before, ev, subs.Keys - todo)
        decreases todo
      {
        var n :| n in todo;
        OneMore(subs, before, ev, subs.Keys - todo, n);
        assert subs.Keys - (todo - {n}) == subs.Keys - todo + {n};
        if Matches(subs[n], ev) {
          OfferOpen(subs, chans, n, ev);
          chans := chans[n := Offer(chans[n], ev)];
        }
        todo := todo - {n};
      }
      OfferedIs(subs, before, ev);
    }

    /** Shutdown: every registered channel is closed exactly once and forgotten. */
    method CloseAll()
      requires Valid()
      modifies this
      ensures Valid() && shutdown && subs == map[] && nextSub == old(nextSub)
      ensures chans == CloseThese(old(chans), old(subs).Keys)
    {
      hide CloseThese, Close, Consistent;
      shutdown := true;
      ghost var before, all := chans, subs.Keys;
      CloseNone(before);
      assert all - subs.Keys == {};
      while subs != map[]
        invariant shutdown && Valid() && nextSub == old(nextSub)
        invariant subs.Keys <= all
        invariant chans == CloseThese(before, all - subs.Keys)
        decreases subs.Keys
      {
        var n :| n in subs;
        Registered(subs, chans);
        CloseOneMore(before, all - subs.Keys, n);
        CloseOpen(subs, chans, n);
        ghost var keys := subs.Keys;
        chans := chans[n := Close(chans[n])];
        subs := subs - {n};
        assert subs.Keys == keys - {n};
        assert all - subs.Keys == all - keys + {n};
      }
      assert all - subs.Keys == all;
    }
  }

  lemma CloseNone(chans: map<nat, Chan>)
    ensures CloseThese(chans, {}) == chans
  {
  }

  lemma CloseOneMore(chans: map<nat, Chan>, who: set<nat>, n: nat)
    requires n in CloseThese(chans, who) && n !in who
    ensures CloseThese(chans, who + {n}) == CloseThese(chans, who)[n := Close(CloseThese(chans, who)[n])]
  {
  }

  lemma Registered(subs: map<nat, set<Bytes>>, chans: map<nat, Chan>)
    requires Consistent(subs, chans)
    ensures subs.Keys <= chans.Keys
  {
  }

  /** Sending to a registered channel and closing it keep the registry. */
  lemma OfferOpen(subs: map<nat, set<Bytes>>, chans: map<nat, Chan>, n: nat, ev: Event)
    requires Consistent(subs, chans) && n in subs && n in chans
    ensures Consistent(subs, chans[n := Offer(chans[n], ev)])
  {
  }

  lemma CloseOpen(subs: map<nat, set<Bytes>>, chans: map<nat, Chan>, n: nat)
    requires Consistent(subs, chans) && n in subs && n in chans
    ensures Consistent(subs - {n}, chans[n := Close(chans[n])])
  {
  }

  lemma Nobody(subs: map<nat, set<Bytes>>, chans: map<nat, Chan>, ev: Event)
    ensures OfferTo(subs, chans, ev, {}) == chans
    ensures subs.Keys - subs.Keys == {}
  {
  }

  lemma OneMore(subs: map<nat, set<Bytes>>, chans: map<nat, Chan>, ev: Event, who: set<nat>, n: nat)
    requires n in subs && n in chans && n !in who
    ensures OfferTo(subs, chans, ev, who + {n}) ==
            var now := OfferTo(subs, chans, ev, who);
            if Matches(subs[n], ev) then now[n := Offer(now[n], ev)] else now
  {
    hide Matches, Offer;
  }
}
