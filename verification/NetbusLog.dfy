/** Topic-filtered stretches of the hub's log, and what a client's filter makes of a wire. */
module NetbusLog {
  import opened Prelude
  import opened NetbusHub

  /** The matching events with ids above a and up to b. */
  function Filtered(topics: set<Bytes>, log: seq<Event>, a: int, b: nat): seq<Event>
    requires b <= |log|
  {
    if b <= a || b == 0 then []
    else Filtered(topics, log, a, b - 1) + Pick(topics, log[b - 1])
  }

  function Pick(topics: set<Bytes>, ev: Event): seq<Event> {
    if Matches(topics, ev) then [ev] else []
  }

  lemma {:induction false} FilteredSplit(topics: set<Bytes>, log: seq<Event>, a: int, m: nat, b: nat)
    requires a <= m <= b <= |log|
    ensures Filtered(topics, log, a, b) == Filtered(topics, log, a, m) + Filtered(topics, log, m, b)
    decreases b
  {
    hide Pick;
    if b == m {
      assert Filtered(topics, log, a, m) + [] == Filtered(topics, log, a, m);
    } else {
      FilteredSplit(topics, log, a, m, b - 1);
      assert Filtered(topics, log, a, m) + (Filtered(topics, log, m, b - 1) + Pick(topics, log[b - 1]))
          == Filtered(topics, log, a, m) + Filtered(topics, log, m, b - 1) + Pick(topics, log[b - 1]);
    }
  }

  lemma {:induction false} FilteredGrows(topics: set<Bytes>, log: seq<Event>, more: seq<Event>, a: int, b: nat)
    requires b <= |log|
    ensures Filtered(topics, log + more, a, b) == Filtered(topics, log, a, b)
    decreases b
  {
    hide Pick;
    if b > a && b > 0 {
      FilteredGrows(topics, log, more, a, b - 1);
    }
  }

  /** Members of a stretch: in the log, matching, with ids in range and increasing. */
  predicate Drawn(topics: set<Bytes>, log: seq<Event>, e: Event) {
    1 <= e.id <= |log| && log[e.id - 1] == e && Matches(topics, e)
  }

  predicate Increasing(es: seq<Event>) {
    forall i, j :: 0 <= i < j < |es| ==> es[i].id < es[j].id
  }

  lemma IncreasingNone()
    ensures Increasing([])
  {
  }

  lemma IncreasingSnoc(es: seq<Event>, e: Event)
    requires Increasing(es) && forall i :: 0 <= i < |es| ==> es[i].id < e.id
    ensures Increasing(es + [e])
  {
  }

  lemma NumberedAt(log: seq<Event>, i: nat)
    requires Numbered(log) && i < |log|
    ensures log[i].id == i + 1
  {
  }

  lemma DrawnAt(topics: set<Bytes>, log: seq<Event>, i: nat)
    requires Numbered(log) && i < |log| && Matches(topics, log[i])
    ensures Drawn(topics, log, log[i])
  {
  }

  lemma {:induction false} FilteredMembers(topics: set<Bytes>, log: seq<Event>, a: int, b: nat)
    requires b <= |log| && Numbered(log)
    ensures var f := Filtered(topics, log, a, b);
            Increasing(f) && forall i :: 0 <= i < |f| ==> Drawn(topics, log, f[i]) && a < f[i].id <= b
    decreases b
  {
    hide Matches, Increasing, Drawn, Numbered;
    if b <= a || b == 0 {
      IncreasingNone();
    } else {
      FilteredMembers(topics, log, a, b - 1);
      var f, e := Filtered(topics, log, a, b - 1), log[b - 1];
      assert e.id == b by {
        NumberedAt(log, b - 1);
      }
      if Matches(topics, e) {
        DrawnAt(topics, log, b - 1);
        IncreasingSnoc(f, e);
      } else {
        assert f + [] == f;
      }
    }
  }

  /** A non-empty beginning of a stretch is the stretch up to its own last event. */
  lemma {:induction false} FilteredPrefix(topics: set<Bytes>, log: seq<Event>, a: int, b: nat, p: seq<Event>)
    requires b <= |log| && Numbered(log)
    requires p != [] && p <= Filtered(topics, log, a, b)
    ensures p[|p| - 1].id <= b && p == Filtered(topics, log, a, p[|p| - 1].id)
    decreases b
  {
    hide Matches;
    var shorter := Filtered(topics, log, a, b - 1);
    if p <= shorter {
      FilteredPrefix(topics, log, a, b - 1, p);
    } else {
      assert p == shorter + [log[b - 1]];
    }
  }

  /** Nothing matches before the first event of a stretch. */
  lemma {:induction false} FilteredFirst(topics: set<Bytes>, log: seq<Event>, a: int, b: nat)
    requires 0 <= a <= b <= |log| && Numbered(log) && Filtered(topics, log, a, b) != []
    ensures var f := Filtered(topics, log, a, b);
            a < f[0].id <= b && f == Filtered(topics, log, f[0].id - 1, b)
  {
    FilteredMembers(topics, log, a, b);
    var f := Filtered(topics, log, a, b);
    var m := f[0].id - 1;
    FilteredSplit(topics, log, a, m, b);
    FilteredMembers(topics, log, a, m);
    assert [] + Filtered(topics, log, m, b) == Filtered(topics, log, m, b);
  }

  // ---- the client's filter ----------------------------------------------------------------

  function LastId(before: nat, accepted: seq<Event>): nat {
    if accepted == [] then before else accepted[|accepted| - 1].id
  }

  /** What stream lets through of a wire, starting from the last id it was given: an event with
      an id at or below the last one seen is a duplicate. (An id of zero would always pass; the
      hub never gives one out.) */
  function Accept(last: nat, wire: seq<Event>): seq<Event> {
    if wire == [] then []
    else
      var acc := Accept(last, wire[..|wire| - 1]);
      var e := wire[|wire| - 1];
      if e.id != 0 && e.id <= LastId(last, acc) then acc else acc + [e]
  }

  lemma AcceptSnoc(last: nat, wire: seq<Event>, e: Event)
    ensures Accept(last, wire + [e]) ==
            if e.id != 0 && e.id <= LastId(last, Accept(last, wire)) then Accept(last, wire) else Accept(last, wire) + [e]
  {
    assert (wire + [e])[..|wire|] == wire;
  }

  lemma {:induction false} AcceptPrefix(last: nat, wire: seq<Event>, p: seq<Event>)
    requires p <= wire
    ensures Accept(last, p) <= Accept(last, wire)
    decreases |wire|
  {
    if p != wire {
      AcceptPrefix(last, wire[..|wire| - 1], p);
    }
  }

  /** Accepted ids increase, whatever order the wire has. */
  lemma {:induction false} AcceptIncreases(last: nat, wire: seq<Event>)
    requires forall i :: 0 <= i < |wire| ==> wire[i].id > 0
    ensures var acc := Accept(last, wire);
            Increasing(acc) && (forall i :: 0 <= i < |acc| ==> acc[i].id > last && acc[i] in wire)
    decreases |wire|
  {
    hide Increasing;
    if wire == [] {
      IncreasingNone();
    } else {
      var front, e := wire[..|wire| - 1], wire[|wire| - 1];
      AcceptIncreases(last, front);
      var acc := Accept(last, front);
      if e.id > LastId(last, acc) {
        UpToLast(last, acc);
        IncreasingSnoc(acc, e);
      }
    }
  }

  lemma UpToLast(last: nat, acc: seq<Event>)
    requires Increasing(acc) && forall i :: 0 <= i < |acc| ==> acc[i].id > last
    ensures last <= LastId(last, acc) && forall i :: 0 <= i < |acc| ==> acc[i].id <= LastId(last, acc)
  {
  }

  /** An increasing stretch of the log above `last` passes unchanged. */
  lemma {:induction false} AcceptStretch(topics: set<Bytes>, log: seq<Event>, last: nat, a: nat, b: nat)
    requires last <= a && b <= |log| && Numbered(log)
    ensures Accept(last, Filtered(topics, log, a, b)) == Filtered(topics, log, a, b)
    decreases b
  {
    hide Matches, Accept, Numbered, Drawn, Increasing;
    if b <= a || b == 0 {
      assert Accept(last, []) == [] by {
        AcceptNone(last);
      }
    } else {
      AcceptStretch(topics, log, last, a, b - 1);
      FilteredMembers(topics, log, a, b - 1);
      var f := Filtered(topics, log, a, b - 1);
      NumberedAt(log, b - 1);
      AcceptSnoc(last, f, log[b - 1]);
      assert f + [] == f;
    }
  }

  lemma AcceptNone(last: nat)
    ensures Accept(last, []) == []
  {
  }
}
