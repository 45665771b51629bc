/** internal/rpc/client.go: the pending table, its reader and its callers. */
module RpcClient {
  import opened Prelude
  import opened Decimal

  // ---- messages -------------------------------------------------------------------------

  /** A frame from the transport, as readLoop probes it. `decodes` is whether it unmarshals
      into a response at all; `id` is the raw JSON of its id (section 5 of the JSON-RPC 2.0
      Specification: a response repeats the id of its request). */
  datatype Frame = Frame(decodes: bool, request: Bytes, hasResult: bool, hasError: bool, id: Bytes, body: int)

  datatype Reply = Reply(id: Bytes, body: int)

  /** Server-initiated requests carry a method and neither result nor error; they and
      undecodable frames are skipped. */
  predicate IsReply(f: Frame) {
    f.decodes && !(f.request != "" && !f.hasResult && !f.hasError)
  }

  // ---- the table behind the mutex ---------------------------------------------------------

  /** A one-slot channel, with the number of sends and closes it has seen. */
  datatype Chan = Chan(slot: Option<Reply>, sends: nat, closes: nat)

  const FRESH := Chan(None, 0, 0)

  predicate Untouched(c: Chan) {
    c.slot.None? && c.sends == 0 && c.closes == 0
  }

  /** Channels are named by the number of the call that made them. */
  datatype Table = Table(pending: map<Bytes, nat>, closed: bool, readErr: Option<int>, chans: map<nat, Chan>)

  predicate Named(t: Table) {
    forall k :: k in t.pending ==> t.pending[k] in t.chans
  }

  function Registered(t: Table, n: nat): Table {
    t.(pending := t.pending[Format(n) := n])
  }

  function Removed(t: Table, key: Bytes): Table {
    t.(pending := t.pending - {key})
  }

  function Closed(c: Chan): Chan {
    c.(closes := c.closes + 1)
  }

  function Sent(c: Chan, r: Reply): Chan
    requires c.slot.None?
  {
    c.(slot := Some(r), sends := c.sends + 1)
  }

  /** The table after a read failure: closed, nothing pending, every pending channel closed. */
  ghost predicate FailedFrom(t: Table, err: int, t': Table) {
    && t'.closed && t'.readErr == Some(err) && t'.pending == map[]
    && t'.chans.Keys == t.chans.Keys
    && forall n :: n in t.chans ==>
         t'.chans[n] == if n in t.pending.Values then Closed(t.chans[n]) else t.chans[n]
  }

  function Failed(t: Table, err: int): (t': Table)
    ensures FailedFrom(t, err, t')
  {
    Table(map[], true, Some(err),
          map n | n in t.chans :: if n in t.pending.Values then Closed(t.chans[n]) else t.chans[n])
  }

  /** Every pending entry has its own channel. */
  predicate Injective(t: Table) {
    forall j, k :: j in t.pending && k in t.pending && t.pending[j] == t.pending[k] ==> j == k
  }

  /** The channels after closing those in `done`. */
  function CloseEach(chans: map<nat, Chan>, done: set<nat>): map<nat, Chan> {
    map n | n in chans :: if n in done then Closed(chans[n]) else chans[n]
  }

  /** The channels registered under `keys`. */
  function ChansOf(pending: map<Bytes, nat>, keys: set<Bytes>): set<nat> {
    set k | k in keys && k in pending :: pending[k]
  }

  lemma CloseOneMore(t: Table, keys: set<Bytes>, k: Bytes)
    requires Named(t) && Injective(t) && k in t.pending && k !in keys
    ensures var before := CloseEach(t.chans, ChansOf(t.pending, keys));
            && t.pending[k] in before
            && before[t.pending[k] := Closed(before[t.pending[k]])] == CloseEach(t.chans, ChansOf(t.pending, keys + {k}))
  {
    assert ChansOf(t.pending, keys + {k}) == ChansOf(t.pending, keys) + {t.pending[k]};
    assert t.pending[k] !in ChansOf(t.pending, keys);
  }

  lemma NothingLeft(t: Table, gone: set<Bytes>, err: int)
    requires t.pending - gone == map[] && gone <= t.pending.Keys
    ensures FailedFrom(t, err, Table(map[], true, Some(err), CloseEach(t.chans, ChansOf(t.pending, gone))))
  {
    forall k | k in t.pending
      ensures k in gone
    {
      assert k !in t.pending - gone;
    }
    assert gone == t.pending.Keys;
    AllClosed(t);
  }

  lemma AllClosed(t: Table)
    ensures CloseEach(t.chans, {}) == t.chans && ChansOf(t.pending, {}) == {}
    ensures ChansOf(t.pending, t.pending.Keys) == t.pending.Values
  {
  }

  /** The mutable client: its methods are the source's critical sections. */
  class Client {
    var nextId: nat
    var pending: map<Bytes, nat>
    var closed: bool
    var readErr: Option<int>
    var chans: map<nat, Chan>

    constructor ()
      ensures nextId == 0 && View() == Table(map[], false, None, map[])
    {
      nextId, pending, closed, readErr, chans := 0, map[], false, None, map[];
    }

    ghost function View(): Table
      reads this
    {
      Table(pending, closed, readErr, chans)
    }

    /** Call, up to and including registration: a fresh number and channel, registered unless
        the reader is gone. */
    method Register() returns (n: nat, ok: bool)
      modifies this
      ensures n == nextId == old(nextId) + 1 && ok == !old(closed)
      ensures var made := old(View()).(chans := old(chans)[n := FRESH]);
              View() == if ok then Registered(made, n) else made
    {
      nextId := nextId + 1;
      n := nextId;
      chans := chans[n := FRESH];
      ok := !closed;
      if ok {
        pending := pending[Format(n) := n];
      }
    }

    method Remove(key: Bytes)
      modifies this`pending
      ensures View() == Removed(old(View()), key)
    {
      pending := pending - {key};
    }

    /** The reader's lookup: the channel registered under the key, which leaves the table. */
    method Take(key: Bytes) returns (ch: Option<nat>)
      modifies this`pending
      ensures View() == Removed(old(View()), key)
      ensures ch == if key in old(pending) then Some(old(pending)[key]) else None
    {
      ch := if key in pending then Some(pending[key]) else None;
      pending := pending - {key};
    }

    /** The reader's last act: close and forget every pending channel, in any order. */
    method Fail(err: int)
      requires Named(View()) && Injective(View())
      modifies this
      ensures nextId == old(nextId)
      ensures FailedFrom(old(View()), err, View())
    {
      hide CloseEach, ChansOf, Named, Injective, FailedFrom;
      ghost var was := View();
      ghost var gone: set<Bytes> := {};
      AllClosed(was);
      closed := true;
      readErr := Some(err);
      while pending != map[]
        invariant closed && readErr == Some(err) && nextId == old(nextId)
        invariant pending == was.pending - gone && gone <= was.pending.Keys
        invariant chans == CloseEach(was.chans, ChansOf(was.pending, gone))
        decreases was.pending.Keys - gone
      {
        var k :| k in pending;
        CloseOneMore(was, gone, k);
        var ch := pending[k];
        chans := chans[ch := Closed(chans[ch])];
        pending := pending - {k};
        gone := gone + {k};
      }
      NothingLeft(was, gone, err);
    }
  }
}
