/** a2a/taskstore.go: one task's broker and any number of Subscribe calls, every critical
    section, channel receive and sink call a step of its own. */
module TaskSubscribe {
  import opened Prelude
  import opened A2aTypes
  import opened TaskBroker

  /** Replaying the buffer, serving the channel, returned on a closed channel, or gone because
      of a sink error or a cancelled context. */
  datatype Pc = Replaying | Live | Ended | Left

  /** One Subscribe call. `got` went to the sink from the replay and the channel, `extra` from
      emitFinal. For the statements: `born` is how many events there were when it subscribed,
      `upto` how many it was offered, `seen` how many there were when it found the channel
      closed. */
  datatype Sub = Sub(chan: Chan, pc: Pc, rest: seq<TaskEvent>, got: seq<TaskEvent>, extra: seq<TaskEvent>,
                     born: nat, upto: nat, seen: nat)

  datatype State = State(max: nat, log: seq<TaskEvent>, buf: seq<TaskEvent>, done: bool, open: set<nat>, subs: seq<Sub>)

  datatype Step =
    | Publish(ev: TaskEvent)
    | CloseBroker
    | Subscribe
    | Replay(c: nat)
    | Take(c: nat)
    | SeeClosed(c: nat)
    | Leave(c: nat)
    | Unsubscribe(c: nat)

  /** newTaskBroker, whatever the configured limit. */
  function Initial(max: int): State {
    State(if max <= 0 then DEFAULT_MAX_EVENTS else max, [], [], false, {}, [])
  }

  /** The task's goroutine closes the broker after its last event. */
  predicate Enabled(s: State, step: Step) {
    match step
    case Publish(_) => !s.done
    case CloseBroker => !s.done
    case Subscribe => true
    case Replay(c) => c < |s.subs| && s.subs[c].pc == Replaying
    case Take(c) => c < |s.subs| && s.subs[c].pc == Live && s.subs[c].chan.queue != []
    case SeeClosed(c) => c < |s.subs| && s.subs[c].pc == Live && s.subs[c].chan.queue == [] && s.subs[c].chan.Closed()
    case Leave(c) => c < |s.subs| && (s.subs[c].pc == Replaying || s.subs[c].pc == Live)
    case Unsubscribe(c) => c < |s.subs| && (s.subs[c].pc == Ended || s.subs[c].pc == Left)
  }

  function Offered(sub: Sub, ev: TaskEvent, n: nat): Sub {
    sub.(chan := Offer(sub.chan, ev), upto := if |sub.chan.queue| < QUEUE_CAP then n else sub.upto)
  }

  function Replayed(sub: Sub): Sub {
    if sub.rest == [] then sub.(pc := Live) else sub.(got := sub.got + [sub.rest[0]], rest := sub.rest[1..])
  }

  function Taken(sub: Sub): Sub
    requires sub.chan.queue != []
  {
    sub.(got := sub.got + [sub.chan.queue[0]], chan := sub.chan.(queue := sub.chan.queue[1..]))
  }

  /** A dropped subscriber is given the broker's final events instead of what it missed. */
  function SawClosed(s: State, sub: Sub): Sub {
    sub.(pc := Ended, seen := |s.log|, extra := if sub.chan.overflow then FinalEvents(s.buf) else [])
  }

  function Apply(s: State, step: Step): State
    requires Enabled(s, step)
  {
    match step
    case Publish(ev) =>
      var buf := s.buf + [ev];
      s.(log := s.log + [ev], buf := if |buf| > s.max then buf[|buf| - s.max..] else buf,
         open := (set c | c in s.open && c < |s.subs| && |s.subs[c].chan.queue| < QUEUE_CAP),
         subs := seq(|s.subs|, c requires 0 <= c < |s.subs| =>
                       if c in s.open then Offered(s.subs[c], ev, |s.log| + 1) else s.subs[c]))
    case CloseBroker =>
      s.(done := true, open := {},
         subs := seq(|s.subs|, c requires 0 <= c < |s.subs| =>
                       if c in s.open then s.subs[c].(chan := Close(s.subs[c].chan)) else s.subs[c]))
    case Subscribe =>
      s.(open := if s.done then s.open else s.open + {|s.subs|},
         subs := s.subs + [Sub(if s.done then Close(NEW_CHAN) else NEW_CHAN, Replaying, s.buf, [], [], |s.log|, |s.log|, 0)])
    case Replay(c) => s.(subs := s.subs[c := Replayed(s.subs[c])])
    case Take(c) => s.(subs := s.subs[c := Taken(s.subs[c])])
    case SeeClosed(c) => s.(subs := s.subs[c := SawClosed(s, s.subs[c])])
    case Leave(c) => s.(subs := s.subs[c := s.subs[c].(pc := Left)])
    case Unsubscribe(c) =>
      if c in s.open then s.(open := s.open - {c}, subs := s.subs[c := s.subs[c].(chan := Close(s.subs[c].chan))]) else s
  }

  predicate Runs(max: int, steps: seq<Step>)
    decreases |steps|, 0
  {
    steps == [] || (Runs(max, Front(steps)) && Enabled(Reach(max, Front(steps)), steps[|steps| - 1]))
  }

  function Reach(max: int, steps: seq<Step>): State
    requires Runs(max, steps)
    decreases |steps|, 1
  {
    if steps == [] then Initial(max) else Apply(Reach(max, Front(steps)), steps[|steps| - 1])
  }

  // ---- the invariant ----------------------------------------------------------------------

  /** Where the replay of a subscriber that joined after n events starts. */
  function First(max: nat, n: nat): (f: nat)
    ensures f <= n && n - f == Min(max, n)
  {
    if n <= max then 0 else n - max
  }

  /** Replay, live events and what is still queued make a contiguous stretch of the log. */
  predicate StretchOk(max: nat, log: seq<TaskEvent>, sub: Sub) {
    && sub.born <= sub.upto <= |log|
    && sub.got + sub.rest + sub.chan.queue == log[First(max, sub.born)..sub.upto]
    && (sub.pc == Replaying || sub.pc == Left || sub.rest == [])
  }

  predicate ChanOk(n: nat, done: bool, open: bool, sub: Sub) {
    && sub.chan.Sound(open)
    && (open ==> sub.upto == n && !sub.chan.overflow && sub.pc != Ended)
    && (!open && !sub.chan.overflow && sub.pc != Left ==> done && sub.upto == n)
  }

  predicate EndOk(max: nat, log: seq<TaskEvent>, sub: Sub) {
    sub.pc == Ended ==>
      && sub.chan.Closed() && sub.chan.queue == [] && sub.seen <= |log|
      && sub.extra == if sub.chan.overflow then FinalEvents(Last(log[..sub.seen], max)) else []
  }

  predicate SubOk(max: nat, log: seq<TaskEvent>, done: bool, open: bool, sub: Sub) {
    StretchOk(max, log, sub) && ChanOk(|log|, done, open, sub) && EndOk(max, log, sub)
  }

  predicate Inv(s: State) {
    && s.max > 0 && s.buf == Last(s.log, s.max)
    && (s.done ==> s.open == {})
    && (forall c :: c in s.open ==> c < |s.subs|)
    && forall c :: 0 <= c < |s.subs| ==> SubOk(s.max, s.log, s.done, c in s.open, s.subs[c])
  }

  lemma PublishSub(max: nat, log: seq<TaskEvent>, ev: TaskEvent, open: bool, sub: Sub)
    requires SubOk(max, log, false, open, sub)
    ensures SubOk(max, log + [ev], false, open && |sub.chan.queue| < QUEUE_CAP,
                  if open then Offered(sub, ev, |log| + 1) else sub)
  {
    hide FinalEvents, Last;
    var log' := log + [ev];
    var f := First(max, sub.born);
    if open && |sub.chan.queue| < QUEUE_CAP {
      assert log'[f..|log| + 1] == log[f..|log|] + [ev];
      assert sub.got + sub.rest + (sub.chan.queue + [ev]) == sub.got + sub.rest + sub.chan.queue + [ev];
    } else {
      assert log'[f..sub.upto] == log[f..sub.upto];
    }
    if sub.pc == Ended {
      assert log'[..sub.seen] == log[..sub.seen];
    }
  }

  lemma CloseSub(max: nat, log: seq<TaskEvent>, open: bool, sub: Sub)
    requires SubOk(max, log, false, open, sub)
    ensures SubOk(max, log, true, false, if open then sub.(chan := Close(sub.chan)) else sub)
  {
    hide FinalEvents, Last;
  }

  lemma ReplaySub(max: nat, log: seq<TaskEvent>, done: bool, open: bool, sub: Sub)
    requires SubOk(max, log, done, open, sub) && sub.pc == Replaying
    ensures SubOk(max, log, done, open, Replayed(sub))
  {
    hide FinalEvents, Last;
    if sub.rest != [] {
      assert sub.rest == [sub.rest[0]] + sub.rest[1..];
      assert sub.got + [sub.rest[0]] + sub.rest[1..] + sub.chan.queue == sub.got + sub.rest + sub.chan.queue;
    }
  }

  lemma TakeSub(max: nat, log: seq<TaskEvent>, done: bool, open: bool, sub: Sub)
    requires SubOk(max, log, done, open, sub) && sub.pc == Live && sub.chan.queue != []
    ensures SubOk(max, log, done, open, Taken(sub))
  {
    hide FinalEvents, Last;
    assert sub.got + [sub.chan.queue[0]] + [] + sub.chan.queue[1..] == sub.got + sub.rest + sub.chan.queue;
  }

  lemma SubscribeSub(s: State)
    requires s.buf == Last(s.log, s.max)
    ensures SubOk(s.max, s.log, s.done, !s.done, Sub(if s.done then Close(NEW_CHAN) else NEW_CHAN, Replaying, s.buf, [], [], |s.log|, |s.log|, 0))
  {
    assert [] + s.buf + [] == s.log[First(s.max, |s.log|)..|s.log|];
  }

  lemma ClosedSub(s: State, open: bool, sub: Sub)
    requires s.buf == Last(s.log, s.max) && SubOk(s.max, s.log, s.done, open, sub)
    requires sub.pc == Live && sub.chan.queue == [] && sub.chan.Closed()
    ensures SubOk(s.max, s.log, s.done, open, SawClosed(s, sub))
  {
    hide FinalEvents, Last;
    assert s.log[..|s.log|] == s.log;
  }

  lemma LeaveSub(max: nat, log: seq<TaskEvent>, done: bool, open: bool, sub: Sub)
    requires SubOk(max, log, done, open, sub) && (sub.pc == Replaying || sub.pc == Live)
    ensures SubOk(max, log, done, open, sub.(pc := Left))
  {
    hide FinalEvents, Last;
  }

  lemma UnsubscribeSub(max: nat, log: seq<TaskEvent>, done: bool, sub: Sub)
    requires SubOk(max, log, done, true, sub) && (sub.pc == Ended || sub.pc == Left)
    ensures SubOk(max, log, done, false, sub.(chan := Close(sub.chan)))
  {
    hide FinalEvents, Last;
  }

  lemma SubAt(s: State, c: nat)
    requires Inv(s) && c < |s.subs|
    ensures SubOk(s.max, s.log, s.done, c in s.open, s.subs[c])
  {
    hide SubOk;
  }

  lemma OneSub(s: State, c: nat, sub: Sub, open: set<nat>)
    requires Inv(s) && c < |s.subs| && open <= s.open && forall x :: x in s.open && x != c ==> x in open
    requires SubOk(s.max, s.log, s.done, c in open, sub)
    ensures Inv(s.(subs := s.subs[c := sub], open := open))
  {
    hide SubOk, Last;
  }

  lemma AllSubs(s: State, step: Step)
    requires Inv(s) && Enabled(s, step) && (step.Publish? || step.CloseBroker?)
    ensures Inv(Apply(s, step))
  {
    hide SubOk, Offered, Close, Last;
    var s' := Apply(s, step);
    if step.Publish? {
      LastGrows(s.log, step.ev, s.max);
    }
    forall c | 0 <= c < |s.subs|
      ensures SubOk(s'.max, s'.log, s'.done, c in s'.open, s'.subs[c])
    {
      SubAt(s, c);
      if step.Publish? {
        PublishSub(s.max, s.log, step.ev, c in s.open, s.subs[c]);
      } else {
        CloseSub(s.max, s.log, c in s.open, s.subs[c]);
      }
    }
  }

  lemma SubscribeKeeps(s: State)
    requires Inv(s)
    ensures Inv(Apply(s, Subscribe))
  {
    hide SubOk, Last;
    SubscribeSub(s);
    var s' := Apply(s, Subscribe);
    forall c | 0 <= c < |s'.subs|
      ensures SubOk(s'.max, s'.log, s'.done, c in s'.open, s'.subs[c])
    {
      if c < |s.subs| {
        SubAt(s, c);
      }
    }
  }

  lemma StepKeeps(s: State, step: Step)
    requires Inv(s) && Enabled(s, step)
    ensures Inv(Apply(s, step))
  {
    hide SubOk, Replayed, Taken, SawClosed, Inv, Close;
    match step {
      case Publish(_) => AllSubs(s, step);
      case CloseBroker => AllSubs(s, step);
      case Subscribe => SubscribeKeeps(s);
      case Replay(c) =>
        SubAt(s, c);
        ReplaySub(s.max, s.log, s.done, c in s.open, s.subs[c]);
        OneSub(s, c, Replayed(s.subs[c]), s.open);
      case Take(c) =>
        SubAt(s, c);
        TakeSub(s.max, s.log, s.done, c in s.open, s.subs[c]);
        OneSub(s, c, Taken(s.subs[c]), s.open);
      case SeeClosed(c) =>
        SubAt(s, c);
        Buffered(s);
        ClosedSub(s, c in s.open, s.subs[c]);
        OneSub(s, c, SawClosed(s, s.subs[c]), s.open);
      case Leave(c) =>
        SubAt(s, c);
        LeaveSub(s.max, s.log, s.done, c in s.open, s.subs[c]);
        OneSub(s, c, s.subs[c].(pc := Left), s.open);
      case Unsubscribe(c) =>
        if c in s.open {
          SubAt(s, c);
          UnsubscribeSub(s.max, s.log, s.done, s.subs[c]);
          OneSub(s, c, Apply(s, step).subs[c], s.open - {c});
        }
    }
  }

  lemma Buffered(s: State)
    requires Inv(s)
    ensures s.buf == Last(s.log, s.max)
  {
  }

  lemma {:induction false} RunKeeps(max: int, steps: seq<Step>)
    requires Runs(max, steps)
    ensures Inv(Reach(max, steps))
    decreases |steps|
  {
    hide Inv, Apply, Enabled;
    if steps == [] {
      assert Inv(Initial(max)) by {
        InitialOk(max);
      }
    } else {
      RunKeeps(max, Front(steps));
      StepKeeps(Reach(max, Front(steps)), steps[|steps| - 1]);
    }
  }

  lemma InitialOk(max: int)
    ensures Inv(Initial(max))
  {
  }

  // ---- the statements ---------------------------------------------------------------------

  /** Replay and live events are one contiguous stretch of the task's events, starting no later
      than the last `max` events at subscription time; for a subscriber that is still registered,
      or found its channel closed without having been dropped, the stretch is a suffix. */
  lemma Suffix(max: int, steps: seq<Step>, c: nat)
    requires Runs(max, steps) && c < |Reach(max, steps).subs|
    ensures var s := Reach(max, steps);
            var sub := s.subs[c];
            && sub.born <= sub.upto <= |s.log| && sub.born - First(s.max, sub.born) == Min(s.max, sub.born)
            && sub.got + sub.rest + sub.chan.queue == s.log[First(s.max, sub.born)..sub.upto]
            && (c in s.open ==> sub.upto == |s.log|)
            && (sub.pc == Ended && !sub.chan.overflow ==> sub.got + sub.extra == s.log[First(s.max, sub.born)..])
  {
    hide Runs, Reach, FinalEvents, Last;
    RunKeeps(max, steps);
    var s := Reach(max, steps);
    SubAt(s, c);
    var sub := s.subs[c];
    if sub.pc == Ended && !sub.chan.overflow {
      assert sub.got + [] + [] == sub.got;
      assert sub.got + [] == sub.got;
      assert s.log[First(s.max, sub.born)..|s.log|] == s.log[First(s.max, sub.born)..];
    }
  }

  /** Publish, drop, close and unsubscribe may meet in any order: a registered channel was never
      closed, any other exactly once, and none was sent to after its close. */
  lemma ClosedOnce(max: int, steps: seq<Step>, c: nat)
    requires Runs(max, steps) && c < |Reach(max, steps).subs|
    ensures var s := Reach(max, steps);
            s.subs[c].chan.closes == (if c in s.open then 0 else 1) && s.subs[c].chan.lateSends == 0
  {
    hide Runs, Reach, FinalEvents, Last, StretchOk, EndOk;
    RunKeeps(max, steps);
    SubAt(Reach(max, steps), c);
  }

  /** From the step that closes it on, a channel is neither closed again nor sent to: its queue
      only drains. */
  lemma ClosedForGood(max: int, steps: seq<Step>, step: Step, c: nat)
    requires Runs(max, steps) && Enabled(Reach(max, steps), step) && c < |Reach(max, steps).subs|
    requires Reach(max, steps).subs[c].chan.Closed()
    ensures var s := Reach(max, steps);
            var before, after := s.subs[c].chan, Apply(s, step).subs[c].chan;
            && after.closes == before.closes == 1 && after.lateSends == 0 && after.overflow == before.overflow
            && (after.queue == before.queue || (step == Take(c) && before.queue != [] && after.queue == before.queue[1..]))
  {
    hide Runs, Reach, FinalEvents, Last, Offered;
    ClosedOnce(max, steps, c);
  }

  /** emitFinal replays an artifact and the status after it exactly when the buffer holds two
      events. */
  lemma FinalTwo(log: seq<TaskEvent>, max: nat)
    requires |log| >= 2 && max >= 1
    requires log[|log| - 2].ArtifactEvent? && log[|log| - 1].StatusEvent?
    ensures FinalEvents(Last(log, max)) == log[|log| - 2..] <==> max >= 2
  {
    var buf := Last(log, max);
    if max == 1 {
      assert buf == [log[|log| - 1]];
      assert LatestArtifact(buf) == LatestArtifact(buf[..0]);
      return;
    }
    assert buf[|buf| - 1] == log[|log| - 1] && buf[|buf| - 2] == log[|log| - 2];
    assert buf[..|buf| - 1][|buf| - 2] == buf[|buf| - 2];
    assert LatestArtifact(buf) == LatestArtifact(buf[..|buf| - 1]);
  }

  /** Whenever it came and however slow it was, a subscriber that found its channel closed after
      the last event was given events of the log only, ending with the log's last two. */
  lemma EndsOnFinal(max: int, steps: seq<Step>, c: nat)
    requires Runs(max, steps) && c < |Reach(max, steps).subs|
    requires var s := Reach(max, steps);
             && s.max >= 2 && |s.log| >= 2 && s.log[|s.log| - 2].ArtifactEvent? && s.log[|s.log| - 1].StatusEvent?
             && s.subs[c].pc == Ended && s.subs[c].seen == |s.log|
    ensures var s := Reach(max, steps);
            var given := s.subs[c].got + s.subs[c].extra;
            && |given| >= 2 && given[|given| - 2..] == s.log[|s.log| - 2..]
            && forall i :: 0 <= i < |given| ==> given[i] in s.log
  {
    hide Runs, Reach, FinalEvents, Last;
    Suffix(max, steps, c);
    RunKeeps(max, steps);
    var s := Reach(max, steps);
    SubAt(s, c);
    var sub := s.subs[c];
    assert s.log[..sub.seen] == s.log;
    if sub.chan.overflow {
      FinalTwo(s.log, s.max);
      assert sub.got + [] + [] == sub.got;
    }
  }

  lemma FinalOne(log: seq<TaskEvent>, max: nat)
    requires log != [] && max >= 1 && log[|log| - 1].StatusEvent?
    ensures var f := FinalEvents(Last(log, max)); f != [] && f[|f| - 1] == log[|log| - 1] && forall e :: e in f ==> e in log
  {
    hide LatestArtifact, Last;
    LastEnd(log, max);
    var buf := Last(log, max);
    assert LatestStatus(buf) == Some(log[|log| - 1]);
    FoundThere(buf);
  }

  lemma LastEnd(log: seq<TaskEvent>, max: nat)
    requires log != [] && max >= 1
    ensures var buf := Last(log, max); buf != [] && buf[|buf| - 1] == log[|log| - 1] && forall e :: e in buf ==> e in log
  {
  }

  lemma {:induction false} FoundThere(buf: seq<TaskEvent>)
    ensures LatestArtifact(buf).Some? ==> LatestArtifact(buf).value in buf && LatestArtifact(buf).value.ArtifactEvent?
    decreases |buf|
  {
    if buf != [] {
      FoundThere(buf[..|buf| - 1]);
    }
  }

  /** However small the buffer, such a subscriber was given the final status last. */
  lemma EndsOnStatus(max: int, steps: seq<Step>, c: nat)
    requires Runs(max, steps) && c < |Reach(max, steps).subs|
    requires var s := Reach(max, steps);
             s.log != [] && s.log[|s.log| - 1].StatusEvent? && s.subs[c].pc == Ended && s.subs[c].seen == |s.log|
    ensures var s := Reach(max, steps);
            var given := s.subs[c].got + s.subs[c].extra;
            && given != [] && given[|given| - 1] == s.log[|s.log| - 1]
            && forall i :: 0 <= i < |given| ==> given[i] in s.log
  {
    hide Runs, Reach, FinalEvents, Last;
    Suffix(max, steps, c);
    RunKeeps(max, steps);
    var s := Reach(max, steps);
    SubAt(s, c);
    var sub := s.subs[c];
    assert s.log[..sub.seen] == s.log;
    if sub.chan.overflow {
      FinalOne(s.log, s.max);
      assert sub.got + [] + [] == sub.got;
    }
  }

  /** One event at one registered subscriber, in any run: with fewer than 64 events queued it is
      queued and the subscriber stays; otherwise the subscriber is dropped, its channel closed
      once, without the event. One that is not registered is not touched. */
  lemma PublishReaches(max: int, steps: seq<Step>, ev: TaskEvent, c: nat)
    requires Runs(max, steps) && Enabled(Reach(max, steps), Publish(ev)) && c < |Reach(max, steps).subs|
    ensures var s := Reach(max, steps);
            var t := Apply(s, Publish(ev));
            var before, after := s.subs[c].chan, t.subs[c].chan;
            if c !in s.open then after == before && c !in t.open
            else if |before.queue| < 64 then after == before.(queue := before.queue + [ev]) && c in t.open
            else after.queue == before.queue && after.closes == 1 && after.overflow && c !in t.open
  {
    hide Runs, Reach;
    ClosedOnce(max, steps, c);
  }

  /** The buffer is the last events, 4096 of them unless another number was configured. */
  lemma BufferIs(max: int, steps: seq<Step>)
    requires Runs(max, steps)
    ensures Reach(max, steps).buf == Last(Reach(max, steps).log, if max > 0 then max else 4096)
  {
    hide Inv;
    RunKeeps(max, steps);
    Buffered(Reach(max, steps));
    MaxStays(max, steps);
  }

  lemma {:induction false} MaxStays(max: int, steps: seq<Step>)
    requires Runs(max, steps)
    ensures Reach(max, steps).max == if max > 0 then max else 4096
    decreases |steps|
  {
    if steps != [] {
      MaxStays(max, Front(steps));
      MaxKept(Reach(max, Front(steps)), steps[|steps| - 1]);
    }
  }

  lemma MaxKept(s: State, step: Step)
    requires Enabled(s, step)
    ensures Apply(s, step).max == s.max
  {
  }

  lemma RunsSnoc(max: int, steps: seq<Step>, step: Step)
    requires Runs(max, steps) && Enabled(Reach(max, steps), step)
    ensures Runs(max, steps + [step]) && Reach(max, steps + [step]) == Apply(Reach(max, steps), step)
  {
    hide Enabled, Apply;
    assert Front(steps + [step]) == steps;
  }

  /** The replay of what subscriber c has left. */
  function Replays(c: nat, n: nat): seq<Step> {
    if n == 0 then [] else Replays(c, n - 1) + [Replay(c)]
  }

  /** Someone who subscribes while the task runs can hear the buffered events and the next one:
      the replay is the last events, 4096 unless another number was configured, in order, and
      what is published then comes through the channel; when the broker is closed it finds its
      channel closed and is done. */
  lemma SubscriberHears(max: int, steps: seq<Step>, ev: TaskEvent)
    requires Runs(max, steps) && !Reach(max, steps).done
    ensures var s := Reach(max, steps);
            var c := |s.subs|;
            var more := steps + [Subscribe] + Replays(c, |s.buf| + 1) + [Publish(ev)] + [Take(c)] + [CloseBroker] + [SeeClosed(c)];
            && Runs(max, more) && Reach(max, more).log == s.log + [ev]
            && c < |Reach(max, more).subs| && Reach(max, more).subs[c].pc == Ended && Reach(max, more).subs[c].seen == |s.log| + 1
            && Reach(max, more).subs[c].got == Last(s.log, if max > 0 then max else 4096) + [ev] && Reach(max, more).subs[c].extra == []
  {
    hide Runs, Reach, Apply, Enabled, Last;
    var s := Reach(max, steps);
    var c := |s.subs|;
    BufferIs(max, steps);
    Subscribes(s);
    RunsSnoc(max, steps, Subscribe);
    var joined := steps + [Subscribe];
    ReplayAll(max, joined, c, |s.buf| + 1);
    var live := joined + Replays(c, |s.buf| + 1);
    Hears(Reach(max, live), c, ev);
    RunsSnoc(max, live, Publish(ev));
    RunsSnoc(max, live + [Publish(ev)], Take(c));
    RunsSnoc(max, live + [Publish(ev)] + [Take(c)], CloseBroker);
    RunsSnoc(max, live + [Publish(ev)] + [Take(c)] + [CloseBroker], SeeClosed(c));
    assert s.buf[..|s.buf|] == s.buf;
  }

  lemma Subscribes(s: State)
    requires !s.done
    ensures Enabled(s, Subscribe) && var t := Apply(s, Subscribe);
            && |t.subs| == |s.subs| + 1 && t.log == s.log && !t.done && |s.subs| in t.open
            && t.subs[|s.subs|].chan == NEW_CHAN && t.subs[|s.subs|].pc == Replaying && t.subs[|s.subs|].rest == s.buf && t.subs[|s.subs|].got == []
  {
  }

  /** n replays after subscribing. */
  lemma {:induction false} ReplayAll(max: int, joined: seq<Step>, c: nat, n: nat)
    requires Runs(max, joined) && c < |Reach(max, joined).subs|
    requires var s := Reach(max, joined);
             && !s.done && c in s.open && s.subs[c].pc == Replaying && s.subs[c].got == [] && s.subs[c].chan == NEW_CHAN
             && n <= |s.subs[c].rest| + 1
    ensures Runs(max, joined + Replays(c, n))
    ensures var s, t := Reach(max, joined), Reach(max, joined + Replays(c, n));
            && t.log == s.log && !t.done && |t.subs| == |s.subs| && c in t.open && t.subs[c].chan == NEW_CHAN
            && if n <= |s.subs[c].rest| then
                 t.subs[c].pc == Replaying && t.subs[c].got == s.subs[c].rest[..n] && t.subs[c].rest == s.subs[c].rest[n..]
               else t.subs[c].pc == Live && t.subs[c].got == s.subs[c].rest
    decreases n
  {
    hide Runs, Reach;
    if n == 0 {
      assert joined + [] == joined;
    } else {
      ReplayAll(max, joined, c, n - 1);
      RunsSnoc(max, joined + Replays(c, n - 1), Replay(c));
      assert joined + Replays(c, n - 1) + [Replay(c)] == joined + Replays(c, n);
    }
  }

  lemma Hears(s: State, c: nat, ev: TaskEvent)
    requires c < |s.subs| && c in s.open && !s.done && s.subs[c].pc == Live && s.subs[c].chan == NEW_CHAN
    ensures Enabled(s, Publish(ev)) && var a := Apply(s, Publish(ev));
            Enabled(a, Take(c)) && var b := Apply(a, Take(c));
            Enabled(b, CloseBroker) && var d := Apply(b, CloseBroker);
            Enabled(d, SeeClosed(c)) && var e := Apply(d, SeeClosed(c));
            && e.log == s.log + [ev] && |e.subs| == |s.subs| && e.subs[c].pc == Ended && e.subs[c].seen == |s.log| + 1
            && e.subs[c].got == s.subs[c].got + [ev] && e.subs[c].extra == []
  {
  }

  // ---- the broker object and its subscribers ----------------------------------------------

  /** The broker's channels, as the transition system has them. */
  function ChansOf(s: State): map<nat, Chan> {
    map c: nat | c < |s.subs| :: s.subs[c].chan
  }

  /** Each step that takes the broker's lock does to its table and buffer what the broker's own
      method does. */
  lemma PublishIsPublish(s: State, ev: TaskEvent)
    requires Inv(s) && Enabled(s, Publish(ev))
    ensures var t := Apply(s, Publish(ev));
            t.buf == Last(s.log + [ev], s.max) && ChansOf(t) == OfferTo(ChansOf(s), s.open, ev) && t.open == WithRoom(ChansOf(s), s.open)
  {
    hide Offer, SubOk, Last, OfferTo, WithRoom, ChansOf;
    LastGrows(s.log, ev, s.max);
    PublishChans(s, ev);
    PublishOpen(s, ev);
  }

  lemma PublishChans(s: State, ev: TaskEvent)
    requires Enabled(s, Publish(ev))
    ensures ChansOf(Apply(s, Publish(ev))) == OfferTo(ChansOf(s), s.open, ev)
  {
    hide Offer;
  }

  lemma PublishOpen(s: State, ev: TaskEvent)
    requires Enabled(s, Publish(ev))
    ensures Apply(s, Publish(ev)).open == WithRoom(ChansOf(s), s.open)
  {
    hide Offered;
  }

  lemma CloseIsCloseBroker(s: State)
    requires Inv(s) && Enabled(s, CloseBroker)
    ensures var t := Apply(s, CloseBroker); t.done && t.open == {} && ChansOf(t) == CloseThese(ChansOf(s), s.open)
  {
    hide SubOk, Last, Close;
  }

  lemma SubscribeIsSubscribe(s: State)
    requires Inv(s)
    ensures var t := Apply(s, Subscribe);
            && t.subs[|s.subs|].rest == Last(s.log, s.max) && t.open == (if s.done then s.open else s.open + {|s.subs|})
            && ChansOf(t) == ChansOf(s)[|s.subs| := if s.done then Close(NEW_CHAN) else NEW_CHAN]
  {
    hide SubOk, Last;
  }

  lemma UnsubscribeIsUnsubscribe(s: State, c: nat)
    requires Inv(s) && Enabled(s, Unsubscribe(c))
    ensures var t := Apply(s, Unsubscribe(c));
            t.open == s.open - {c} && ChansOf(t) == if c in s.open then ChansOf(s)[c := Close(ChansOf(s)[c])] else ChansOf(s)
  {
    hide SubOk, Last, Close;
  }
}
