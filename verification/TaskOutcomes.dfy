/** What becomes of a handler's result and of a cancellation: the task stored, what the store
    keeps of it, and what both clients are told. */
module TaskOutcomes {
  import opened Prelude
  import opened A2aTypes
  import opened TaskStore
  import opened TaskEngine
  import opened A2aClient

  // ---- the task a result makes ------------------------------------------------------------

  /** Whole seconds, as the wire has them. */
  predicate StampOf(stamp: Option<int>, now: int) {
    stamp.Some? && stamp.value % 1000000000 == 0 && stamp.value <= now < stamp.value + 1000000000
  }

  /** The handler returned parts, or failed. */
  predicate Outcome(id: nat, result: Result<seq<Part>, Bytes>, now: int, t: Task) {
    && StampOf(t.status.stamp, now)
    && match result
       case Ok(parts) => t.status.state == Completed && t.status.message.None? && t.artifacts == [Artifact(ArtifactId(id), parts)]
       case Err(error) => t.status.state == Failed && t.status.message == Some([TextPart(error)]) && t.artifacts == []
  }

  predicate CanceledTask(t: Task) {
    t.status.state == Canceled && t.status.message.None? && t.artifacts == []
  }

  lemma UnsettledAt(s: State, id: nat)
    requires EngineInv(s) && id in s.runners && id in s.store.tasks
    requires s.runners[id].pc.Begun? || s.runners[id].pc.Running?
    ensures Unsettled(s.store, id)
  {
    hide Opening, TaskOk;
    RunnerAt(s, id);
  }

  /** The result decides the task unless a cancellation came first. */
  lemma SettleStores(s: State, id: nat, result: Result<seq<Part>, Bytes>, now: int)
    requires EngineInv(s) && Enabled(s, Settle(id, result, now))
    ensures var before := s.store.tasks[id];
            var store := Apply(s, Settle(id, result, now)).store;
            && id in store.tasks
            && if before.status.state == Working then Outcome(id, result, now, store.tasks[id])
               else CanceledTask(before) && store.tasks[id] == before
  {
    hide EngineInv, ArtifactId;
    UnsettledAt(s, id);
  }

  /** A task not settled yet, wherever its runner is. */
  lemma NonTerminalUnsettled(s: State, id: nat)
    requires EngineInv(s) && id in s.store.tasks && !Terminal(s.store, id)
    ensures id in s.runners && Unsettled(s.store, id) && (s.runners[id].pc.Begun? || s.runners[id].pc.Running?)
  {
    hide Opening, Lifecycle, TaskOk;
    assert id in s.runners;
    RunnerAt(s, id);
  }

  function AfterCancel(s: State, id: nat, now: int): State {
    Apply(s, Cancel(id, now))
  }

  lemma CancelStores(s: State, id: nat, now: int)
    requires EngineInv(s) && id in s.store.tasks && !Terminal(s.store, id)
    ensures var store := AfterCancel(s, id, now).store;
            id in store.tasks && CanceledTask(store.tasks[id]) && StampOf(store.tasks[id].status.stamp, now)
  {
    hide EngineInv;
    NonTerminalUnsettled(s, id);
    CancelStored(s, Cancel(id, now));
  }

  /** A cancellation changes nothing exactly if there is no such task or its state is one of the
      four terminal ones. */
  lemma CancelIff(s: Store, id: nat, now: int)
    ensures DoCanceled(s, id, now) == s <==>
            id !in s.tasks || s.tasks[id].status.state in {Completed, Failed, Canceled, Rejected}
  {
    if id in s.tasks && DoCanceled(s, id, now) == s {
      assert DoCanceled(s, id, now).tasks[id] == s.tasks[id];
    }
  }

  // ---- for good ---------------------------------------------------------------------------

  predicate Shown(r: Runner) {
    r.pc.Shown? || r.pc.Told? || r.pc.Over?
  }

  /** The task is t wherever it is seen: in the store for as long as it is kept there, and in
      every snapshot. */
  predicate Everywhere(s: State, id: nat, t: Task) {
    Frozen(s, id, t) && id in s.runners && (Shown(s.runners[id]) ==> s.runners[id].pc.snap == t)
  }

  lemma EverywhereStep(s: State, step: Step, id: nat, t: Task)
    requires EngineInv(s) && Enabled(s, step) && Everywhere(s, id, t)
    ensures Everywhere(Apply(s, step), id, t)
  {
    FrozenStep(s, step, id, t);
    SnapsStay(s, step, id, t);
  }

  lemma SnapsStay(s: State, step: Step, id: nat, t: Task)
    requires EngineInv(s) && Enabled(s, step) && id in s.runners && (Shown(s.runners[id]) ==> s.runners[id].pc.snap == t)
    requires id in s.store.tasks ==> s.store.tasks[id] == t
    ensures var s1 := Apply(s, step); id in s1.runners && (Shown(s1.runners[id]) ==> s1.runners[id].pc.snap == t)
  {
    hide EngineInv, Evicted, Stored, Closing, Truncate, Terminal;
    if step.Begin? {
      NewIdFresh(s, id);
    }
  }

  lemma NewIdFresh(s: State, id: nat)
    requires EngineInv(s) && id in s.runners
    ensures id != NextId(s)
  {
    hide RunnerOk;
  }

  lemma {:induction false} EverywhereRuns(s: State, steps: seq<Step>, id: nat, t: Task)
    requires EngineInv(s) && Runs(s, steps) && Everywhere(s, id, t)
    ensures Everywhere(After(s, steps), id, t) && EngineInv(After(s, steps))
    decreases |steps|
  {
    hide EngineInv, Apply, Enabled, Everywhere;
    if steps != [] {
      StepKeeps(s, steps[0]);
      EverywhereStep(s, steps[0], id, t);
      EverywhereRuns(Apply(s, steps[0]), steps[1..], id, t);
    }
  }

  lemma Reached(maxAge: int, maxTasks: int, steps: seq<Step>)
    requires Runs(Initial(maxAge, maxTasks), steps)
    ensures EngineInv(After(Initial(maxAge, maxTasks), steps))
  {
    hide Runs, After;
    RunKeeps(Initial(maxAge, maxTasks), steps);
  }

  /** Any run up to a handler's result, the result, and any run after it: from then on the task
      is the one the result makes, in the store and in every snapshot; or, if it had been
      cancelled before, the cancelled one. */
  lemma ResultStays(maxAge: int, maxTasks: int, before: seq<Step>, id: nat, result: Result<seq<Part>, Bytes>, now: int, after: seq<Step>)
    returns (t: Task)
    requires Runs(Initial(maxAge, maxTasks), before)
    requires var s := After(Initial(maxAge, maxTasks), before);
             Enabled(s, Settle(id, result, now)) && Runs(Apply(s, Settle(id, result, now)), after)
    ensures var s := After(Initial(maxAge, maxTasks), before);
            && id in s.store.tasks
            && if s.store.tasks[id].status.state == Working then Outcome(id, result, now, t) else CanceledTask(t)
    ensures Everywhere(After(Apply(After(Initial(maxAge, maxTasks), before), Settle(id, result, now)), after), id, t)
  {
    hide EngineInv, Runs, After, Outcome, CanceledTask;
    var s := After(Initial(maxAge, maxTasks), before);
    Reached(maxAge, maxTasks, before);
    SettleStores(s, id, result, now);
    var s1 := Apply(s, Settle(id, result, now));
    t := s1.store.tasks[id];
    StepKeeps(s, Settle(id, result, now));
    SettledEverywhere(s, id, result, now);
    EverywhereRuns(s1, after, id, t);
  }

  lemma SettledEverywhere(s: State, id: nat, result: Result<seq<Part>, Bytes>, now: int)
    requires EngineInv(s) && Enabled(s, Settle(id, result, now))
    ensures var s1 := Apply(s, Settle(id, result, now)); id in s1.store.tasks && Everywhere(s1, id, s1.store.tasks[id])
  {
    hide RunnerOk, Truncate, Unsettled, Outcome, CanceledTask;
    SettleStores(s, id, result, now);
    assert s.runners[id].pc.Begun? || s.runners[id].pc.Running?;
  }

  /** The same for a cancellation that finds the task not terminal. */
  lemma CancelStays(maxAge: int, maxTasks: int, before: seq<Step>, id: nat, now: int, after: seq<Step>) returns (t: Task)
    requires Runs(Initial(maxAge, maxTasks), before)
    requires var s := After(Initial(maxAge, maxTasks), before);
             id in s.store.tasks && !Terminal(s.store, id) && Runs(AfterCancel(s, id, now), after)
    ensures CanceledTask(t) && StampOf(t.status.stamp, now)
    ensures Everywhere(After(AfterCancel(After(Initial(maxAge, maxTasks), before), id, now), after), id, t)
  {
    hide EngineInv, Runs, After, CanceledTask;
    var s := After(Initial(maxAge, maxTasks), before);
    Reached(maxAge, maxTasks, before);
    CancelStores(s, id, now);
    var s1 := AfterCancel(s, id, now);
    t := s1.store.tasks[id];
    StepKeeps(s, Cancel(id, now));
    CanceledEverywhere(s, id, now);
    EverywhereRuns(s1, after, id, t);
  }

  lemma CanceledEverywhere(s: State, id: nat, now: int)
    requires EngineInv(s) && id in s.store.tasks && !Terminal(s.store, id)
    ensures var s1 := AfterCancel(s, id, now); id in s1.store.tasks && Everywhere(s1, id, s1.store.tasks[id])
  {
    CancelStores(s, id, now);
    NonTerminalUnsettled(s, id);
    CancelStored(s, Cancel(id, now));
    hide RunnerOk, Truncate, Unsettled;
  }

  // ---- what the clients are told ----------------------------------------------------------

  /** The blocking client on the task a result makes. */
  lemma BlockingSays(id: nat, result: Result<seq<Part>, Bytes>, now: int, t: Task)
    requires Outcome(id, result, now, t)
    ensures SendMessage(Ok(TaskReply(t))) ==
            if result.Ok? then Ok(PartsText(result.value)) else Err(TaskFailed(Failed, result.error))
    ensures result.Ok? ==> TaskText(t) == PartsText(result.value)
  {
    if result.Ok? {
      CompletedText(t);
    } else {
      OneText(result.error);
    }
  }

  lemma BlockingCanceled(t: Task)
    requires CanceledTask(t)
    ensures SendMessage(Ok(TaskReply(t))) == Err(TaskFailed(Canceled, ""))
  {
  }

  /** From the handler to both clients. A handler's result, in any run; a stream of that task
      that is finished, at any later time; any of its deltas missing on the way. If no cancellation
      came first, parts with text come out as that text on both clients and an error as the same
      failed task; after a cancellation both report a cancelled task. */
  lemma ResultReaches(maxAge: int, maxTasks: int, before: seq<Step>, id: nat, result: Result<seq<Part>, Bytes>, now: int,
                      after: seq<Step>, sent: seq<TaskEvent>) returns (t: Task)
    requires Runs(Initial(maxAge, maxTasks), before)
    requires var s := After(Initial(maxAge, maxTasks), before);
             && Enabled(s, Settle(id, result, now)) && Runs(Apply(s, Settle(id, result, now)), after)
             && var u := After(Apply(s, Settle(id, result, now)), after);
                && id in u.runners && (u.runners[id].pc.Told? || u.runners[id].pc.Over?) && u.runners[id].mode != Plain
                && Thinned(u.runners[id].out, sent)
    ensures var s := After(Initial(maxAge, maxTasks), before);
            var u := After(Apply(s, Settle(id, result, now)), after);
            && id in s.store.tasks
            && var blocking, streaming := SendMessage(Ok(TaskReply(t))), StreamResult(Wired(sent), None);
            && t == u.runners[id].pc.snap && (id in u.store.tasks ==> u.store.tasks[id] == t)
            && if s.store.tasks[id].status.state != Working then
                 blocking == streaming == Err(TaskFailed(Canceled, ""))
               else if result.Err? then
                 blocking == streaming == Err(TaskFailed(Failed, result.error))
               else
                 && blocking == Ok(PartsText(result.value))
                 && (PartsText(result.value) != "" || Joined(Chunks(Wired(sent))) == "" ==> streaming == blocking)
  {
    hide EngineInv, Runs, After, Thinned, Wired, Lifecycle, StreamResult, SendMessage, Chunks, Joined, Outcome, CanceledTask,
         Apply, Enabled, TaskText;
    var s := After(Initial(maxAge, maxTasks), before);
    t := ResultStays(maxAge, maxTasks, before, id, result, now, after);
    var s1 := Apply(s, Settle(id, result, now));
    Reached(maxAge, maxTasks, before);
    StepKeeps(s, Settle(id, result, now));
    RunKeeps(s1, after);
    var u := After(s1, after);
    Finished(u, id, t);
    StreamAgrees(id, u.runners[id].out, u.runners[id].texts, t, sent);
    if s.store.tasks[id].status.state != Working {
      BlockingCanceled(t);
      StateOf(t);
    } else {
      BlockingSays(id, result, now, t);
      OutcomeState(id, result, now, t);
    }
  }

  lemma Finished(u: State, id: nat, t: Task)
    requires EngineInv(u) && Everywhere(u, id, t) && u.runners[id].mode != Plain
    requires u.runners[id].pc.Told? || u.runners[id].pc.Over?
    ensures u.runners[id].pc.snap == t && Lifecycle(id, u.runners[id].out, u.runners[id].texts, t)
    ensures id in u.store.tasks ==> u.store.tasks[id] == t
  {
    hide Lifecycle, Opening;
    RunnerAt(u, id);
  }

  lemma StateOf(t: Task)
    requires CanceledTask(t)
    ensures t.status.state == Canceled
  {
  }

  lemma OutcomeState(id: nat, result: Result<seq<Part>, Bytes>, now: int, t: Task)
    requires Outcome(id, result, now, t)
    ensures t.status.state == if result.Ok? then Completed else Failed
  {
  }

  // ---- retention in terms of timestamps ---------------------------------------------------

  lemma StoredTimes(s: State, step: Step)
    requires EngineInv(s) && TimesAgree(s.store) && Enabled(s, step)
    ensures TimesAgree(Apply(s, step).store)
  {
    hide EngineInv, Moved, Truncate;
    if step.Begin? {
      BeginTimes(s, step);
    } else {
      OtherTimes(s, step);
    }
  }

  lemma OtherTimes(s: State, step: Step)
    requires EngineInv(s) && TimesAgree(s.store) && Enabled(s, step) && !step.Begin?
    ensures TimesAgree(Stored(s, step))
  {
    hide EngineInv, Moved, Truncate, Evicted, Inv;
  }

  lemma BeginTimes(s: State, step: Step)
    requires EngineInv(s) && TimesAgree(s.store) && Enabled(s, step) && step.Begin?
    ensures TimesAgree(step.evicted)
  {
    hide RunnerOk, Evicted, Shrinks, Truncate;
    var began := Began(s.store, NextId(s), step.now);
    BeganInv(s.store, NextId(s), step.now);
    assert NextId(s) !in s.store.tasks;
    assert TimesAgree(began);
    EvictedFacts(began, step.evicted, step.now, s.maxAge, s.maxTasks);
    ShrinksTimes(began, step.evicted);
  }

  lemma {:induction false} TimesKept(s: State, steps: seq<Step>)
    requires EngineInv(s) && TimesAgree(s.store) && Runs(s, steps)
    ensures TimesAgree(After(s, steps).store)
    decreases |steps|
  {
    hide EngineInv, Apply, Enabled, TimesAgree;
    if steps != [] {
      StepKeeps(s, steps[0]);
      StoredTimes(s, steps[0]);
      TimesKept(Apply(s, steps[0]), steps[1..]);
    }
  }

  /** In every reachable state the eviction time of a terminal task is its wire timestamp, so
      eviction is as `EvictedByStamp` says. */
  lemma TimesAreStamps(maxAge: int, maxTasks: int, steps: seq<Step>)
    requires Runs(Initial(maxAge, maxTasks), steps)
    ensures TimesAgree(After(Initial(maxAge, maxTasks), steps).store)
  {
    hide Runs, After, EngineInv;
    StartOk(maxAge, maxTasks);
    TimesKept(Initial(maxAge, maxTasks), steps);
  }

  lemma StartOk(maxAge: int, maxTasks: int)
    ensures EngineInv(Initial(maxAge, maxTasks))
  {
  }

  // ---- a task from start to end -----------------------------------------------------------

  lemma RunsCons(s: State, step: Step, rest: seq<Step>)
    requires Enabled(s, step) && Runs(Apply(s, step), rest)
    ensures Runs(s, [step] + rest) && After(s, [step] + rest) == After(Apply(s, step), rest)
  {
    hide Enabled, Apply;
    assert ([step] + rest)[1..] == rest;
  }

  /** A task whose handler emits one text and then returns or fails, once its runner is started,
      with nothing else going on. */
  function OneTask(id: nat, text: Bytes, result: Result<seq<Part>, Bytes>, now: int): seq<Step> {
    [Announce(id, now)] + ([Emit(id, text)] + ([Settle(id, result, now)] + ([Snapshot(id)] + ([Tell(id)] + ([Finish(id)] + [])))))
  }

  /** Detached tasks get their broker first. */
  function StartOf(id: nat, begin: Step): seq<Step>
    requires begin.Begin?
  {
    if begin.mode == Detached then [begin] + ([Register(id)] + []) else [begin] + []
  }

  /** What such a task leaves behind. */
  predicate Ran(s: State, id: nat, text: Bytes, result: Result<seq<Part>, Bytes>, now: int) {
    && id in s.store.tasks && id !in s.store.inFlight && Outcome(id, result, now, s.store.tasks[id])
    && id in s.runners && s.runners[id].pc.Over?
    && var out := s.runners[id].out;
       |out| == (if result.Ok? then 4 else 3)
       && out[0].StatusEvent? && out[0].status.state == Working && !out[0].final && StampOf(out[0].status.stamp, now)
       && out[1] == ArtifactEvent(Artifact(ArtifactId(id), [TextPart(text)]), false, false)
       && (result.Ok? ==> out[2] == ArtifactEvent(Artifact(ArtifactId(id), result.value), false, true))
       && out[|out| - 1] == StatusEvent(s.store.tasks[id].status, true)
  }

  /** From any reachable state such a task, streamed or detached, can run to its end: it is then
      stored as its result says, and its stream was told of it in order. */
  lemma TaskRuns(s: State, begin: Step, text: Bytes, result: Result<seq<Part>, Bytes>, now: int)
    requires EngineInv(s) && begin.Begin? && begin.mode != Plain && Enabled(s, begin)
    ensures var id := s.seqNo + 1;
            && Runs(s, StartOf(id, begin)) && Runs(After(s, StartOf(id, begin)), OneTask(id, text, result, now))
            && Ran(After(After(s, StartOf(id, begin)), OneTask(id, text, result, now)), id, text, result, now)
  {
    hide EngineInv, Evicted, Runs, After, Apply, Enabled, Ran;
    var id := s.seqNo + 1;
    Begins(s, begin);
    var s1 := Apply(s, begin);
    NothingMore(s1);
    RunsCons(s, begin, []);
    if begin.mode == Detached {
      Registers(s1, id);
      var s2 := Apply(s1, Register(id));
      NothingMore(s2);
      RunsCons(s1, Register(id), []);
      RunsCons(s, begin, [Register(id)] + []);
    }
    WorksOn(After(s, StartOf(id, begin)), id, text, result, now);
  }

  lemma Registers(s: State, id: nat)
    requires id in s.store.tasks && id in s.runners && s.runners[id] == Runner(Detached, Begun, false, [], [])
    ensures Enabled(s, Register(id)) && var t := Apply(s, Register(id));
            && t.store == s.store.(brokers := s.store.brokers + {id})
            && id in t.runners && t.runners[id] == Runner(Detached, Begun, true, [], [])
  {
    hide Evicted;
  }

  /** A runner that is started, before its first event. */
  predicate Ready(s: State, id: nat) {
    && id in s.store.tasks && s.store.tasks[id].status.state == Working && s.store.tasks[id].artifacts == []
    && id in s.runners && s.runners[id].pc == Begun && s.runners[id].mode != Plain && Started(s.runners[id])
    && s.runners[id].out == [] && s.runners[id].texts == []
  }

  lemma WorksOn(s: State, id: nat, text: Bytes, result: Result<seq<Part>, Bytes>, now: int)
    requires Ready(s, id)
    ensures Runs(s, OneTask(id, text, result, now)) && Ran(After(s, OneTask(id, text, result, now)), id, text, result, now)
  {
    hide Evicted, Runs, After, ArtifactId, Apply, Enabled, StampOf, Ready;
    Works(s, id, text, result, now);
    var s2 := Apply(s, Announce(id, now));
    var s3 := Apply(s2, Emit(id, text));
    var s4 := Apply(s3, Settle(id, result, now));
    Tells(s4, id, result.Err?);
    var s5 := Apply(s4, Snapshot(id));
    var s6 := Apply(s5, Tell(id));
    NothingMore(Apply(s6, Finish(id)));
    RunsCons(s6, Finish(id), []);
    RunsCons(s5, Tell(id), [Finish(id)] + []);
    RunsCons(s4, Snapshot(id), [Tell(id)] + ([Finish(id)] + []));
    RunsCons(s3, Settle(id, result, now), [Snapshot(id)] + ([Tell(id)] + ([Finish(id)] + [])));
    RunsCons(s2, Emit(id, text), [Settle(id, result, now)] + ([Snapshot(id)] + ([Tell(id)] + ([Finish(id)] + []))));
    RunsCons(s, Announce(id, now), [Emit(id, text)] + ([Settle(id, result, now)] + ([Snapshot(id)] + ([Tell(id)] + ([Finish(id)] + [])))));
  }

  lemma NothingMore(s: State)
    ensures Runs(s, []) && After(s, []) == s
  {
  }

  /** A new task is there, working, and in flight. */
  lemma Begins(s: State, begin: Step)
    requires EngineInv(s) && begin.Begin? && Enabled(s, begin)
    ensures var id, t := s.seqNo + 1, Apply(s, begin);
            && id in t.store.tasks && id in t.store.inFlight && t.store.tasks[id].status.state == Working && t.store.tasks[id].artifacts == []
            && id in t.runners && t.runners[id] == Runner(begin.mode, Begun, false, [], [])
  {
    hide RunnerOk, Evicted, Shrinks, Truncate;
    var began := Began(s.store, NextId(s), begin.now);
    BeganInv(s.store, NextId(s), begin.now);
    EvictedFacts(began, begin.evicted, begin.now, s.maxAge, s.maxTasks);
    Remains(began, begin.evicted, NextId(s));
    NotShrunk(began, begin.evicted);
  }

  /** The handler's part. */
  lemma Works(s: State, id: nat, text: Bytes, result: Result<seq<Part>, Bytes>, now: int)
    requires Ready(s, id)
    ensures Enabled(s, Announce(id, now)) && var a := Apply(s, Announce(id, now));
            Enabled(a, Emit(id, text)) && var b := Apply(a, Emit(id, text));
            Enabled(b, Settle(id, result, now)) && var c := Apply(b, Settle(id, result, now));
            && id in c.store.tasks && Outcome(id, result, now, c.store.tasks[id])
            && id in c.runners && c.runners[id].pc == Settled(result.Err?) && c.runners[id].mode != Plain
            && var out := c.runners[id].out;
               && |out| == 2 && out[1] == ArtifactEvent(Artifact(ArtifactId(id), [TextPart(text)]), false, false)
               && out[0].StatusEvent? && out[0].status.state == Working && !out[0].final && StampOf(out[0].status.stamp, now)
  {
    hide ArtifactId, Evicted, Outcome, DoCompleted, DoFailed;
    var b := Apply(Apply(s, Announce(id, now)), Emit(id, text));
    assert b.store == s.store;
    Settles(b, id, result, now);
  }

  lemma Settles(s: State, id: nat, result: Result<seq<Part>, Bytes>, now: int)
    requires id in s.store.tasks && s.store.tasks[id].status.state == Working && s.store.tasks[id].artifacts == []
    requires id in s.runners && s.runners[id].mode != Plain && s.runners[id].pc == Running
    ensures Enabled(s, Settle(id, result, now)) && var c := Apply(s, Settle(id, result, now));
            && id in c.store.tasks && Outcome(id, result, now, c.store.tasks[id])
            && c.runners == s.runners[id := s.runners[id].(pc := Settled(result.Err?))]
  {
    hide ArtifactId, Evicted;
  }

  /** What the stream is told at the end. */
  lemma Tells(s: State, id: nat, failed: bool)
    requires id in s.store.tasks && id in s.runners && s.runners[id].pc == Settled(failed) && s.runners[id].mode != Plain
    requires if failed then s.store.tasks[id].artifacts == [] else |s.store.tasks[id].artifacts| == 1
    ensures Enabled(s, Snapshot(id)) && var a := Apply(s, Snapshot(id));
            Enabled(a, Tell(id)) && var b := Apply(a, Tell(id));
            Enabled(b, Finish(id)) && var c := Apply(b, Finish(id));
            && c.store.tasks == s.store.tasks && c.store.inFlight == s.store.inFlight - {id}
            && id in c.runners && c.runners[id].pc.Over? && c.runners[id].out == s.runners[id].out
                 + (if failed then [] else [ArtifactEvent(s.store.tasks[id].artifacts[0], false, true)])
                 + [StatusEvent(s.store.tasks[id].status, true)]
  {
    hide Evicted;
  }
}
