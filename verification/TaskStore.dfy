/** a2a/taskstore.go: the task table with its retention rules, as a mutable object whose
    methods compute functions on the stored value. */
module TaskStore {
  import opened Prelude
  import opened A2aTypes

  const SECOND: int := 1000000000
  const DEFAULT_MAX_AGE: int := 3600 * SECOND
  const DEFAULT_MAX_TASKS: nat := 1024

  /** The zero time, which an unparseable timestamp counts as when the table is over its cap:
      the first second of year one, before the Unix epoch. */
  const ZERO_TIME: int := -62135596800 * SECOND

  /** Timestamps have whole seconds. */
  function Truncate(now: int): (t: int)
    ensures t <= now < t + SECOND
  {
    now - now % SECOND
  }

  /** The four coupled maps. A cancel function or a broker is there or not. */
  datatype Store = Store(tasks: map<nat, Task>, inFlight: set<nat>, brokers: set<nat>, terminalAt: map<nat, int>)

  predicate Terminal(s: Store, id: nat) {
    id in s.tasks && IsTerminal(s.tasks[id].status.state)
  }

  /** A task that may be evicted. */
  predicate Idle(s: Store, id: nat) {
    Terminal(s, id) && id !in s.inFlight
  }

  predicate Inv(s: Store) {
    && s.brokers <= s.inFlight <= s.tasks.Keys
    && s.terminalAt.Keys <= s.tasks.Keys
    && forall id :: id in s.tasks && !Terminal(s, id) ==> id in s.inFlight
  }

  // ---- single updates ---------------------------------------------------------------------

  function Began(s: Store, id: nat, now: int): Store {
    s.(tasks := s.tasks[id := Task(Status(Working, None, Some(Truncate(now))), [])], inFlight := s.inFlight + {id})
  }

  function DoCompleted(s: Store, id: nat, parts: seq<Part>, now: int): Store
    requires id in s.tasks
  {
    if Terminal(s, id) then s
    else s.(tasks := s.tasks[id := Task(Status(Completed, None, Some(Truncate(now))), [Artifact(ArtifactId(id), parts)])],
            terminalAt := s.terminalAt[id := Truncate(now)])
  }

  function DoFailed(s: Store, id: nat, error: Bytes, now: int): Store
    requires id in s.tasks
  {
    if Terminal(s, id) then s
    else s.(tasks := s.tasks[id := s.tasks[id].(status := Status(Failed, Some([TextPart(error)]), Some(Truncate(now))))],
            terminalAt := s.terminalAt[id := Truncate(now)])
  }

  function DoCanceled(s: Store, id: nat, now: int): Store {
    if id !in s.tasks || Terminal(s, id) then s
    else s.(tasks := s.tasks[id := s.tasks[id].(status := Status(Canceled, None, Some(Truncate(now))))])
  }

  function Ended(s: Store, id: nat): Store {
    s.(inFlight := s.inFlight - {id}, brokers := s.brokers - {id})
  }

  // ---- eviction ---------------------------------------------------------------------------

  function TimeOf(s: Store, id: nat): Option<int>
    requires id in s.tasks
  {
    if id in s.terminalAt then Some(s.terminalAt[id]) else s.tasks[id].status.stamp
  }

  function Age(s: Store, id: nat): int
    requires id in s.tasks
  {
    if TimeOf(s, id).Some? then TimeOf(s, id).value else ZERO_TIME
  }

  predicate Stale(s: Store, id: nat, cutoff: int) {
    Idle(s, id) && TimeOf(s, id).Some? && TimeOf(s, id).value < cutoff
  }

  function MaxAge(maxAge: int): int {
    if maxAge <= 0 then DEFAULT_MAX_AGE else maxAge
  }

  function MaxTasks(maxTasks: int): nat {
    if maxTasks <= 0 then DEFAULT_MAX_TASKS else maxTasks
  }

  /** `t` is a part of `s`: entries are dropped, never changed, and only idle ones; times are
      at most looked up earlier. */
  predicate Shrinks(s: Store, t: Store) {
    && t.inFlight == s.inFlight && t.brokers == s.brokers
    && (forall id :: id in t.terminalAt ==> id in t.tasks && (id in s.terminalAt || Terminal(t, id)))
    && (forall id :: id in t.tasks ==> id in s.tasks && t.tasks[id] == s.tasks[id] && TimeOf(t, id) == TimeOf(s, id))
    && forall id :: id in s.tasks && id !in t.tasks ==> Idle(s, id)
  }

  predicate AgedOut(s: Store, t: Store, cutoff: int) {
    Shrinks(s, t) && forall id :: id in s.tasks ==> (id in t.tasks <==> !Stale(s, id, cutoff))
  }

  /** The cap pass: nothing while within the cap; otherwise down to the cap or to the last idle
      task, dropping none newer than one it keeps. */
  predicate Capped(s: Store, t: Store, cap: nat) {
    && Shrinks(s, t)
    && (|s.tasks.Keys| <= cap ==> t.tasks == s.tasks)
    && (|s.tasks.Keys| > cap ==> |t.tasks.Keys| >= cap)
    && (|t.tasks.Keys| > cap ==> forall id :: id in t.tasks ==> !Idle(t, id))
    && forall gone, kept :: gone in s.tasks && gone !in t.tasks && kept in t.tasks && Idle(t, kept) ==> Age(s, gone) <= Age(s, kept)
  }

  /** evictLocked as a relation: which of several equally old tasks go is not determined. */
  ghost predicate Evicted(s: Store, t: Store, now: int, maxAge: int, maxTasks: int) {
    exists m :: AgedOut(s, m, now - MaxAge(maxAge)) && Capped(m, t, MaxTasks(maxTasks))
  }

  lemma ShrinksTrans(s: Store, m: Store, t: Store)
    requires Shrinks(s, m) && Shrinks(m, t)
    ensures Shrinks(s, t)
  {
  }

  lemma ShrinksInv(s: Store, t: Store)
    requires Inv(s) && Shrinks(s, t)
    ensures Inv(t)
  {
  }

  /** What any eviction does. */
  lemma EvictedFacts(s: Store, t: Store, now: int, maxAge: int, maxTasks: int)
    requires Inv(s) && Evicted(s, t, now, maxAge, maxTasks)
    ensures Shrinks(s, t) && Inv(t) && |t.tasks.Keys| <= Max(MaxTasks(maxTasks), |t.inFlight|)
  {
    var m :| AgedOut(s, m, now - MaxAge(maxAge)) && Capped(m, t, MaxTasks(maxTasks));
    hide Age, TimeOf, Stale;
    ShrinksTrans(s, m, t);
    ShrinksInv(s, t);
    if |t.tasks.Keys| > MaxTasks(maxTasks) {
      assert t.tasks.Keys <= t.inFlight;
      Smaller(t.tasks.Keys, t.inFlight);
    }
  }

  /** Cached times are the wire timestamps of terminal tasks. */
  predicate TimesAgree(s: Store) {
    && (forall id :: id in s.terminalAt ==> Terminal(s, id))
    && forall id :: id in s.tasks ==> TimeOf(s, id) == s.tasks[id].status.stamp
  }

  lemma ShrinksTimes(s: Store, t: Store)
    requires TimesAgree(s) && Shrinks(s, t)
    ensures TimesAgree(t)
  {
    hide TimeOf;
  }

  function When(t: Task): int {
    if t.status.stamp.Some? then t.status.stamp.value else -62135596800 * SECOND
  }

  /** What an eviction keeps and drops, by the tasks' own timestamps: every terminal task with no
      handler running whose timestamp is known and more than the maximal age (an hour by default)
      old is dropped. Any other dropped task is terminal with no handler running, was dropped
      because the table was over its cap (1024 by default), which it still fills, and is no newer
      than any such task kept; an unknown timestamp then counts as the zero time. */
  lemma EvictedByStamp(s: Store, t: Store, now: int, maxAge: int, maxTasks: int, id: nat)
    requires Inv(s) && TimesAgree(s) && Evicted(s, t, now, maxAge, maxTasks) && id in s.tasks
    ensures var stamp := s.tasks[id].status.stamp;
            var aged := stamp.Some? && stamp.value < now - (if maxAge > 0 then maxAge else 3600 * 1000000000);
            var cap := if maxTasks > 0 then maxTasks else 1024;
            && (Idle(s, id) && aged ==> id !in t.tasks)
            && (id !in t.tasks ==> Idle(s, id))
            && (id !in t.tasks && !aged ==>
                  && |t.tasks.Keys| >= cap
                  && forall kept :: kept in t.tasks && Idle(t, kept) ==> When(s.tasks[id]) <= When(s.tasks[kept]))
            && (id in t.tasks ==> t.tasks[id] == s.tasks[id])
  {
    var m :| AgedOut(s, m, now - MaxAge(maxAge)) && Capped(m, t, MaxTasks(maxTasks));
    hide TimeOf, Age, AgedOut, Capped, Shrinks, TimesAgree, Inv;
    AgedByStamp(s, m, now - MaxAge(maxAge), id);
    SameTasks(s, m);
    CapTasks(m, t, MaxTasks(maxTasks));
    if id in m.tasks {
      CappedByStamp(m, t, MaxTasks(maxTasks), id);
    }
  }

  lemma AgedByStamp(s: Store, m: Store, cutoff: int, id: nat)
    requires TimesAgree(s) && AgedOut(s, m, cutoff) && id in s.tasks
    ensures var stamp := s.tasks[id].status.stamp;
            id in m.tasks <==> !(Idle(s, id) && stamp.Some? && stamp.value < cutoff)
    ensures TimesAgree(m) && Shrinks(s, m) && m.inFlight == s.inFlight
  {
    hide TimeOf;
    ShrinksTimes(s, m);
  }

  lemma SameTasks(s: Store, m: Store)
    requires Shrinks(s, m)
    ensures forall x :: x in m.tasks ==> x in s.tasks && m.tasks[x] == s.tasks[x]
    ensures forall x :: x in m.tasks ==> (Idle(m, x) <==> Idle(s, x))
  {
    hide TimeOf;
  }

  lemma CappedByStamp(m: Store, t: Store, cap: nat, id: nat)
    requires TimesAgree(m) && Capped(m, t, cap) && id in m.tasks
    ensures id in t.tasks ==> t.tasks[id] == m.tasks[id]
    ensures id !in t.tasks ==>
              && Idle(m, id) && |t.tasks.Keys| >= cap
              && forall kept :: kept in t.tasks && Idle(t, kept) ==> When(m.tasks[id]) <= When(m.tasks[kept])
  {
    hide TimeOf;
    AgeIsWhen(m);
  }

  lemma CapTasks(m: Store, t: Store, cap: nat)
    requires Capped(m, t, cap)
    ensures forall x :: x in t.tasks ==> x in m.tasks
  {
    hide TimeOf, Age;
  }

  lemma AgeIsWhen(s: Store)
    requires TimesAgree(s)
    ensures forall id :: id in s.tasks ==> Age(s, id) == When(s.tasks[id])
  {
    hide TimeOf;
  }

  lemma Smaller(a: set<nat>, b: set<nat>)
    requires a <= b
    ensures |a| <= |b|
  {
    if a != b {
      assert b == a + (b - a);
      assert |b| == |a| + |b - a|;
    }
  }

  lemma {:induction false} Oldest(s: Store, ids: set<nat>) returns (id: nat)
    requires ids != {} && ids <= s.tasks.Keys
    ensures id in ids && forall x :: x in ids ==> Age(s, id) <= Age(s, x)
    decreases ids
  {
    hide Age;
    var one :| one in ids;
    if ids == {one} {
      id := one;
    } else {
      var rest := Oldest(s, ids - {one});
      id := if Age(s, one) <= Age(s, rest) then one else rest;
      assert forall x :: x in ids ==> x == one || x in ids - {one};
    }
  }

  lemma SelfShrinks(s: Store)
    requires Inv(s)
    ensures Shrinks(s, s)
  {
  }

  lemma Kept(s: Store, t: Store, id: nat)
    requires Shrinks(s, t) && id in t.tasks
    ensures id in s.tasks && t.tasks[id] == s.tasks[id] && t.inFlight == s.inFlight && TimeOf(t, id) == TimeOf(s, id)
  {
  }

  lemma Remains(s: Store, t: Store, id: nat)
    requires Shrinks(s, t)
    ensures forall x :: x in t.tasks ==> x in s.tasks
    ensures id in s.tasks && !Idle(s, id) ==> id in t.tasks && t.tasks[id] == s.tasks[id]
  {
  }

  function Without(t: Store, id: nat): Store {
    t.(tasks := t.tasks - {id}, terminalAt := t.terminalAt - {id})
  }

  lemma DropOne(t: Store, id: nat)
    requires Inv(t) && Idle(t, id)
    ensures Shrinks(t, Without(t, id))
  {
    hide TimeOf;
    forall x | x in Without(t, id).tasks
      ensures TimeOf(Without(t, id), x) == TimeOf(t, x)
    {
      SameTime(t, id, x);
    }
  }

  lemma OneLess(t: Store, id: nat)
    requires id in t.tasks
    ensures |Without(t, id).tasks.Keys| == |t.tasks.Keys| - 1
  {
    assert Without(t, id).tasks.Keys == t.tasks.Keys - {id};
  }

  lemma Drop(s: Store, t: Store, id: nat)
    requires Inv(t) && Shrinks(s, t) && Idle(t, id)
    ensures Inv(Without(t, id)) && Shrinks(s, Without(t, id)) && |Without(t, id).tasks.Keys| == |t.tasks.Keys| - 1
    ensures forall x :: Idle(Without(t, id), x) <==> x != id && Idle(t, x)
  {
    hide Shrinks, Inv;
    DropOne(t, id);
    OneLess(t, id);
    ShrinksInv(t, Without(t, id));
    ShrinksTrans(s, t, Without(t, id));
  }

  lemma SameTime(t: Store, id: nat, x: nat)
    requires x in t.tasks && x != id
    ensures TimeOf(Without(t, id), x) == TimeOf(t, x)
  {
  }

  /** The cap pass under way: `terms` are the idle tasks left, and nothing newer than one of
      them is gone. */
  predicate Evicting(s: Store, t: Store, terms: set<nat>) {
    && Inv(t) && Shrinks(s, t)
    && (forall id :: id in terms ==> Idle(t, id)) && (forall id :: id in t.tasks && Idle(t, id) ==> id in terms)
    && forall gone, kept :: gone in s.tasks && gone !in t.tasks && kept in terms ==> Age(s, gone) <= Age(s, kept)
  }

  lemma EvictOldest(s: Store, t: Store, terms: set<nat>, id: nat)
    requires Evicting(s, t, terms) && id in terms && forall x :: x in terms ==> x in t.tasks && Age(t, id) <= Age(t, x)
    ensures Evicting(s, Without(t, id), terms - {id}) && |Without(t, id).tasks.Keys| == |t.tasks.Keys| - 1
  {
    hide TimeOf;
    Drop(s, t, id);
  }

  lemma Untouched(s: Store, cap: nat)
    requires Inv(s) && |s.tasks.Keys| <= cap
    ensures Capped(s, s, cap)
  {
    SelfShrinks(s);
  }

  lemma Candidates(s: Store, t: Store, terms: set<nat>)
    requires Evicting(s, t, terms)
    ensures terms <= t.tasks.Keys
  {
  }

  lemma EvictingEnds(s: Store, t: Store, terms: set<nat>, cap: nat)
    requires Evicting(s, t, terms) && |s.tasks.Keys| > cap && |t.tasks.Keys| >= cap
    requires terms == {} || |t.tasks.Keys| <= cap
    ensures Capped(s, t, cap)
  {
    hide TimeOf, Age, Shrinks, Inv;
  }

  // ---- the object -------------------------------------------------------------------------

  datatype CancelError = TaskNotFound | TaskNotCancelable

  class TaskStore {
    const maxAge: int
    const maxTasks: int
    var tasks: map<nat, Task>
    var inFlight: set<nat>
    var brokers: set<nat>
    var terminalAt: map<nat, int>
    var lastId: nat

    function Contents(): Store
      reads this
    {
      Store(tasks, inFlight, brokers, terminalAt)
    }

    ghost predicate Valid()
      reads this
    {
      Inv(Contents()) && forall id :: id in tasks ==> id <= lastId
    }

    constructor (maxAge: int, maxTasks: int)
      ensures Valid() && Contents() == Store(map[], {}, {}, map[]) && lastId == 0
      ensures this.maxAge == maxAge && this.maxTasks == maxTasks
    {
      this.maxAge, this.maxTasks := maxAge, maxTasks;
      tasks, inFlight, brokers, terminalAt, lastId := map[], {}, {}, map[], 0;
    }

    method NewTask() returns (id: nat)
      requires Valid()
      modifies this`lastId
      ensures Valid() && id == lastId == old(lastId) + 1 && id !in tasks
    {
      lastId := lastId + 1;
      id := lastId;
    }

    /** Registers a new task as working; afterwards the table is within its cap, or everything
        in it is in flight. */
    method Begin(id: nat, now: int)
      requires Valid() && id !in tasks && id <= lastId
      modifies this`tasks, this`inFlight, this`terminalAt
      ensures Valid()
      ensures Evicted(Began(old(Contents()), id, now), Contents(), now, maxAge, maxTasks)
      ensures id in tasks && tasks[id].status.state == Working && id in inFlight
      ensures |tasks| <= Max(MaxTasks(maxTasks), |inFlight|)
    {
      hide Evicted, Shrinks, Truncate;
      tasks := tasks[id := Task(Status(Working, None, Some(Truncate(now))), [])];
      inFlight := inFlight + {id};
      ghost var began := Contents();
      assert began == Began(old(Contents()), id, now);
      EvictLocked(now);
      EvictedFacts(began, Contents(), now, maxAge, maxTasks);
      Remains(began, Contents(), id);
    }

    method Complete(id: nat, parts: seq<Part>, now: int)
      requires Valid() && id in inFlight
      modifies this`tasks, this`terminalAt
      ensures Valid() && Contents() == DoCompleted(old(Contents()), id, parts, now)
      ensures !IsTerminal(old(tasks)[id].status.state) ==>
                tasks[id].status.state == Completed && tasks[id].artifacts == [Artifact(ArtifactId(id), parts)]
      ensures Terminal(Contents(), id)
    {
      if IsTerminal(tasks[id].status.state) {
        return;
      }
      tasks := tasks[id := Task(Status(Completed, None, Some(Truncate(now))), [Artifact(ArtifactId(id), parts)])];
      terminalAt := terminalAt[id := Truncate(now)];
    }

    method Fail(id: nat, error: Bytes, now: int)
      requires Valid() && id in inFlight
      modifies this`tasks, this`terminalAt
      ensures Valid() && Contents() == DoFailed(old(Contents()), id, error, now)
      ensures !IsTerminal(old(tasks)[id].status.state) ==>
                tasks[id].status.state == Failed && tasks[id].status.message == Some([TextPart(error)])
      ensures Terminal(Contents(), id)
    {
      var t := tasks[id];
      if IsTerminal(t.status.state) {
        return;
      }
      tasks := tasks[id := t.(status := Status(Failed, Some([TextPart(error)]), Some(Truncate(now))))];
      terminalAt := terminalAt[id := Truncate(now)];
    }

    /** Cancels a running task; the caller then interrupts its handler. */
    method Cancel(id: nat, now: int) returns (r: Result<Task, CancelError>, interrupt: bool)
      requires Valid()
      modifies this`tasks
      ensures Valid() && Contents() == DoCanceled(old(Contents()), id, now)
      ensures r == if id !in old(tasks) then Err(TaskNotFound)
                   else if Terminal(old(Contents()), id) then Err(TaskNotCancelable)
                   else Ok(tasks[id])
      ensures interrupt <==> r.Ok?
    {
      if id !in tasks {
        return Err(TaskNotFound), false;
      }
      var t := tasks[id];
      if IsTerminal(t.status.state) {
        return Err(TaskNotCancelable), false;
      }
      tasks := tasks[id := t.(status := Status(Canceled, None, Some(Truncate(now))))];
      r := Ok(tasks[id]);
      interrupt := id in inFlight;
    }

    /** SendAsync registers the broker after begin. */
    method Register(id: nat)
      requires Valid() && id in inFlight
      modifies this`brokers
      ensures Valid() && Contents() == old(Contents()).(brokers := old(brokers) + {id})
    {
      brokers := brokers + {id};
    }

    /** end and finishAsync. */
    method End(id: nat)
      requires Valid() && Terminal(Contents(), id)
      modifies this`inFlight, this`brokers
      ensures Valid() && Contents() == Ended(old(Contents()), id)
    {
      inFlight := inFlight - {id};
      brokers := brokers - {id};
    }

    /** Two passes over the table. */
    method EvictLocked(now: int)
      requires Inv(Contents())
      modifies this`tasks, this`terminalAt
      ensures Evicted(old(Contents()), Contents(), now, maxAge, maxTasks)
    {
      ghost var before := Contents();
      EvictAged(now - MaxAge(maxAge));
      ghost var aged := Contents();
      ShrinksInv(before, aged);
      EvictOver(MaxTasks(maxTasks));
      assert AgedOut(before, aged, now - MaxAge(maxAge)) && Capped(aged, Contents(), MaxTasks(maxTasks));
    }

    /** Drops the idle tasks known to be older than the cutoff, caching looked-up times. */
    method EvictAged(cutoff: int)
      requires Inv(Contents())
      modifies this`tasks, this`terminalAt
      ensures AgedOut(old(Contents()), Contents(), cutoff)
    {
      hide TimeOf, Shrinks, Inv;
      SelfShrinks(Contents());
      var todo := tasks.Keys;
      ghost var s := Contents();
      while todo != {}
        invariant todo <= tasks.Keys && Inv(Contents()) && Shrinks(s, Contents())
        invariant forall id :: id in s.tasks && id !in todo ==> (id in tasks <==> !Stale(s, id, cutoff))
        decreases todo
      {
        var id :| id in todo;
        todo := todo - {id};
        ghost var was := Contents();
        Kept(s, was, id);
        if id !in inFlight && IsTerminal(tasks[id].status.state) {
          var ts := TerminalTime(id);
          ShrinksTrans(s, was, Contents());
          Kept(was, Contents(), id);
          if ts.Some? && ts.value < cutoff {
            Drop(s, Contents(), id);
            tasks := tasks - {id};
            terminalAt := terminalAt - {id};
          }
        }
      }
    }

    /** The cached time of a terminal task, or the parsed one, which is then cached. */
    method TerminalTime(id: nat) returns (ts: Option<int>)
      requires Inv(Contents()) && Terminal(Contents(), id)
      modifies this`terminalAt
      ensures ts == TimeOf(old(Contents()), id) && Shrinks(old(Contents()), Contents()) && Inv(Contents())
    {
      if id in terminalAt {
        return Some(terminalAt[id]);
      }
      ts := tasks[id].status.stamp;
      if ts.Some? {
        terminalAt := terminalAt[id := ts.value];
      }
    }

    /** While over the cap, drops the oldest idle task. */
    method EvictOver(cap: nat)
      requires Inv(Contents())
      modifies this`tasks, this`terminalAt
      ensures Capped(old(Contents()), Contents(), cap)
    {
      hide Age, TimeOf, Shrinks, Inv, Idle, Evicting, Capped;
      ghost var s := Contents();
      if |tasks| <= cap {
        Untouched(s, cap);
        return;
      }
      var terms := CacheTimes();
      while terms != {} && |tasks| > cap
        invariant Evicting(s, Contents(), terms) && |tasks.Keys| >= cap
        decreases terms
      {
        ghost var t := Contents();
        Candidates(s, t, terms);
        var id := OldestOf(terms);
        EvictOldest(s, t, terms, id);
        terms := terms - {id};
        tasks := tasks - {id};
        terminalAt := terminalAt - {id};
        assert Contents() == Without(t, id);
      }
      EvictingEnds(s, Contents(), terms, cap);
    }

    /** One of the oldest: sorting does not order equal times. */
    method OldestOf(terms: set<nat>) returns (id: nat)
      requires terms != {} && terms <= tasks.Keys
      ensures id in terms && forall x :: x in terms ==> x in tasks && Age(Contents(), id) <= Age(Contents(), x)
    {
      hide Age;
      ghost var oldest := Oldest(Contents(), terms);
      id :| id in terms && forall x :: x in terms ==> Age(Contents(), id) <= Age(Contents(), x);
    }

    /** The idle tasks, their times looked up. */
    method CacheTimes() returns (terms: set<nat>)
      requires Inv(Contents())
      modifies this`terminalAt
      ensures Evicting(old(Contents()), Contents(), terms) && tasks == old(tasks)
    {
      hide TimeOf, Age, Shrinks, Inv;
      terms := {};
      var todo := tasks.Keys;
      ghost var s := Contents();
      SelfShrinks(s);
      while todo != {}
        invariant todo <= tasks.Keys && tasks == s.tasks && Inv(Contents()) && Shrinks(s, Contents())
        invariant forall id :: id in terms <==> id !in todo && Idle(Contents(), id)
        decreases todo
      {
        var id :| id in todo;
        todo := todo - {id};
        if id !in inFlight && IsTerminal(tasks[id].status.state) {
          ghost var was := Contents();
          var _ := TerminalTime(id);
          ShrinksTrans(s, was, Contents());
          terms := terms + {id};
        }
      }
    }
  }
}
