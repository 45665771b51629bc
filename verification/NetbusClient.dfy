/** netbus/client.go: the read loop of one connection and the reconnect loop around it. */
module NetbusClient {
  import opened Prelude
  import opened NetbusHub
  import opened NetbusLog

  // ---- what the loops compute -------------------------------------------------------------

  /** The highest id seen. */
  function Seen(last: nat, wire: seq<Event>): nat {
    if wire == [] then last else Max(Seen(last, wire[..|wire| - 1]), wire[|wire| - 1].id)
  }

  predicate Fresh(last: nat, e: Event) {
    e.id == 0 || e.id > last
  }

  /** The events that pass the duplicate filter. */
  function Passed(last: nat, wire: seq<Event>): seq<Event> {
    if wire == [] then []
    else
      var e := wire[|wire| - 1];
      var before := Passed(last, wire[..|wire| - 1]);
      if Fresh(Seen(last, wire[..|wire| - 1]), e) then before + [e] else before
  }

  /** Events of other origins. */
  function Others(origin: Bytes, es: seq<Event>): seq<Event> {
    if es == [] then []
    else if es[|es| - 1].origin == origin then Others(origin, es[..|es| - 1])
    else Others(origin, es[..|es| - 1]) + [es[|es| - 1]]
  }

  lemma Snoc(last: nat, wire: seq<Event>, e: Event)
    ensures Seen(last, wire + [e]) == Max(Seen(last, wire), e.id)
    ensures Passed(last, wire + [e]) == if Fresh(Seen(last, wire), e) then Passed(last, wire) + [e] else Passed(last, wire)
  {
    assert (wire + [e])[..|wire|] == wire;
  }

  lemma Longer(before: seq<Event>, wire: seq<Event>, i: nat)
    requires i < |wire|
    ensures before + wire[..i + 1] == before + wire[..i] + [wire[i]]
  {
  }

  lemma OthersSnoc(origin: Bytes, es: seq<Event>, e: Event)
    ensures Others(origin, es + [e]) == if e.origin == origin then Others(origin, es) else Others(origin, es) + [e]
  {
    assert (es + [e])[..|es|] == es;
  }

  predicate Positive(wire: seq<Event>) {
    forall i :: 0 <= i < |wire| ==> wire[i].id > 0
  }

  /** On what a hub sends (its ids start at one) this is the filter of the resume protocol. */
  lemma {:induction false} PassedIsAccept(last: nat, wire: seq<Event>)
    requires Positive(wire)
    ensures Passed(last, wire) == Accept(last, wire) && Seen(last, wire) == LastId(last, Accept(last, wire))
    decreases |wire|
  {
    if wire != [] {
      var front := wire[..|wire| - 1];
      PassedIsAccept(last, front);
      AcceptIncreases(last, front);
    }
  }

  // ---- the loops --------------------------------------------------------------------------

  const INITIAL_BACKOFF: nat := 100
  const MAX_BACKOFF: nat := 30000

  /** The backoff after so many connections in a row that did not stay up. */
  function Backoff(failures: nat): nat {
    if failures == 0 then INITIAL_BACKOFF else Min(2 * Backoff(failures - 1), MAX_BACKOFF)
  }

  function Power(n: nat): nat {
    if n == 0 then 1 else 2 * Power(n - 1)
  }

  /** A tenth of a second, doubled every time, never above half a minute. */
  lemma {:induction false} BackoffIs(failures: nat)
    ensures Backoff(failures) == Min(100 * Power(failures), 30000)
  {
    if failures > 0 {
      BackoffIs(failures - 1);
    }
  }

  /** How many connections at the end did not stay up. */
  function Streak(stable: seq<bool>): nat {
    if stable == [] || stable[|stable| - 1] then 0 else Streak(stable[..|stable| - 1]) + 1
  }

  lemma BackoffStep(failures: nat)
    ensures Backoff(0) == INITIAL_BACKOFF && Backoff(failures + 1) == Min(2 * Backoff(failures), MAX_BACKOFF) && Streak([]) == 0
  {
  }

  lemma Nothing()
    ensures Flatten<Event>([]) == []
  {
  }

  lemma StreakGrows(stable: seq<bool>, i: nat)
    requires i < |stable|
    ensures Streak(stable[..i + 1]) == if stable[i] then 0 else Streak(stable[..i]) + 1
  {
    assert stable[..i + 1][..i] == stable[..i];
  }

  class Receiver {
    const origin: Bytes
    var lastId: nat
    var backoff: nat
    var injected: seq<Event>
    ghost var seen: seq<Event>

    /** Everything injected is what the filters leave of everything read on all connections. */
    ghost predicate Valid()
      reads this
    {
      && lastId == Seen(0, seen) && injected == Others(origin, Passed(0, seen))
      && INITIAL_BACKOFF <= backoff <= MAX_BACKOFF
    }

    constructor (origin: Bytes)
      ensures Valid() && this.origin == origin && seen == [] && injected == [] && backoff == Backoff(0)
    {
      this.origin, lastId, backoff, injected, seen := origin, 0, INITIAL_BACKOFF, [], [];
    }

    /** One connection: events are read until it ends. */
    method Stream(wire: seq<Event>)
      requires Valid()
      modifies this`lastId, this`injected, this`seen
      ensures Valid() && seen == old(seen) + wire
    {
      hide Seen, Passed, Others;
      assert old(seen) + wire[..0] == old(seen);
      for i := 0 to |wire|
        invariant Valid() && seen == old(seen) + wire[..i]
      {
        var e := wire[i];
        Snoc(0, seen, e);
        OthersSnoc(origin, Passed(0, seen), e);
        Longer(old(seen), wire, i);
        seen := seen + [e];
        if e.id != 0 && e.id <= lastId {
          continue;
        }
        if e.id > lastId {
          lastId := e.id;
        }
        if e.origin == origin {
          continue;
        }
        injected := injected + [e];
      }
      assert wire[..|wire|] == wire;
    }

    /** After a connection that stayed up the wait starts over, otherwise it doubles up to its
        limit; the wait before the next connection is returned. */
    method Back(stable: bool) returns (wait: nat)
      requires Valid()
      modifies this`backoff
      ensures Valid()
      ensures wait == if stable then INITIAL_BACKOFF else old(backoff)
      ensures backoff == if stable then INITIAL_BACKOFF else Min(2 * old(backoff), MAX_BACKOFF)
    {
      if stable {
        backoff := INITIAL_BACKOFF;
      }
      wait := backoff;
      if !stable {
        backoff := backoff * 2;
        if backoff > MAX_BACKOFF {
          backoff := MAX_BACKOFF;
        }
      }
    }

    /** The reconnect loop, over whatever the connections deliver and however long they last. */
    method Receive(conns: seq<seq<Event>>, stable: seq<bool>)
      requires Valid() && seen == [] && backoff == Backoff(0) && |stable| == |conns|
      modifies this
      ensures Valid() && seen == Flatten(conns) && backoff == Backoff(Streak(stable))
      ensures lastId == Seen(0, Flatten(conns)) && injected == Others(origin, Passed(0, Flatten(conns)))
    {
      hide Seen, Passed, Others, Flatten, Streak, Backoff;
      BackoffStep(0);
      Nothing();
      assert conns[..0] == [] && stable[..0] == [];
      for i := 0 to |conns|
        invariant Valid() && seen == Flatten(conns[..i]) && backoff == Backoff(Streak(stable[..i]))
      {
        StreakGrows(stable, i);
        BackoffStep(Streak(stable[..i]));
        FlattenSnoc(conns[..i], conns[i]);
        assert conns[..i + 1] == conns[..i] + [conns[i]];
        Stream(conns[i]);
        var _ := Back(stable[i]);
      }
      assert conns[..|conns|] == conns && stable[..|conns|] == stable;
    }
  }

  /** Whatever the connections deliver, in whatever order, no numbered event is injected twice:
      ids strictly increase across all of them, and none has the client's own origin. */
  lemma {:induction false} InjectedIncrease(origin: Bytes, wire: seq<Event>)
    requires Positive(wire)
    ensures var out := Others(origin, Passed(0, wire));
            Increasing(out) && forall i :: 0 <= i < |out| ==> out[i] in wire && out[i].origin != origin
  {
    PassedIsAccept(0, wire);
    AcceptIncreases(0, wire);
    OthersIncrease(origin, Passed(0, wire));
  }

  lemma {:induction false} OthersIncrease(origin: Bytes, es: seq<Event>)
    requires Increasing(es)
    ensures var out := Others(origin, es);
            Increasing(out) && forall i :: 0 <= i < |out| ==> out[i] in es && out[i].origin != origin
    decreases |es|
  {
    hide Increasing;
    if es == [] {
      IncreasingNone();
    } else {
      var front, e := es[..|es| - 1], es[|es| - 1];
      assert es == front + [e];
      var out := Others(origin, front);
      IncreasingFront(front, e);
      OthersIncrease(origin, front);
      forall i | 0 <= i < |out|
        ensures out[i].id < e.id && out[i] in es
      {
        var j :| 0 <= j < |front| && front[j] == out[i];
        assert es[j] == out[i];
      }
      IncreasingSnoc(out, e);
    }
  }

  lemma IncreasingFront(front: seq<Event>, e: Event)
    requires Increasing(front + [e])
    ensures Increasing(front) && forall i :: 0 <= i < |front| ==> front[i].id < e.id
  {
    forall i, j | 0 <= i < j < |front|
      ensures front[i].id < front[j].id
    {
      assert (front + [e])[i] == front[i] && (front + [e])[j] == front[j];
    }
    forall i | 0 <= i < |front|
      ensures front[i].id < e.id
    {
      assert (front + [e])[i] == front[i] && (front + [e])[|front|] == e;
    }
  }
}
