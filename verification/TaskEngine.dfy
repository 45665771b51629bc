/** a2a/taskstore.go: any number of Send, SendStream and SendAsync calls with cancellations
    racing them, every critical section and every sink call a step of its own. */
module TaskEngine {
  import opened Prelude
  import opened A2aTypes
  import opened TaskStore

  /** How a task was started: Send renders no events, SendAsync has a broker. */
  datatype Mode = Plain | Streamed | Detached

  /** Where the goroutine that runs a task is. `failed` is the branch on the handler's error;
      `snap` is the snapshot taken after complete. */
  datatype Pc = Begun | Running | Settled(failed: bool) | Shown(snap: Task) | Told(snap: Task) | Over(snap: Task)

  /** `out` is everything the sink was given; `texts` the handler's deltas, for the statements;
      `handed` whether SendAsync's caller has its task back, the broker registered. */
  datatype Runner = Runner(mode: Mode, pc: Pc, handed: bool, out: seq<TaskEvent>, texts: seq<Bytes>)

  datatype State = State(maxAge: int, maxTasks: int, store: Store, seqNo: nat, runners: map<nat, Runner>)

  datatype Step =
    | Begin(mode: Mode, now: int, evicted: Store)
    | Register(id: nat)
    | Announce(id: nat, now: int)
    | Emit(id: nat, text: Bytes)
    | Settle(id: nat, result: Result<seq<Part>, Bytes>, now: int)
    | Snapshot(id: nat)
    | Tell(id: nat)
    | Finish(id: nat)
    | Cancel(id: nat, now: int)

  function Initial(maxAge: int, maxTasks: int): State {
    State(maxAge, maxTasks, Store(map[], {}, {}, map[]), 0, map[])
  }

  function NextId(s: State): nat {
    s.seqNo + 1
  }

  predicate At(s: State, id: nat, pc: Pc) {
    id in s.runners && s.runners[id].pc == pc
  }

  /** SendAsync starts its goroutine only once the broker is there. A runner works on its task
      through the table: while in flight the task is always there (`EngineInv`). */
  predicate Started(r: Runner) {
    r.mode == Detached ==> r.handed
  }

  ghost predicate Enabled(s: State, step: Step) {
    match step
    case Begin(_, now, evicted) => Evicted(Began(s.store, NextId(s), now), evicted, now, s.maxAge, s.maxTasks)
    case Register(id) => At(s, id, Begun) && s.runners[id].mode == Detached && !s.runners[id].handed
    case Announce(id, _) => At(s, id, Begun) && s.runners[id].mode != Plain && Started(s.runners[id])
    case Emit(id, _) => At(s, id, Running) && s.runners[id].mode != Plain
    case Settle(id, _, _) => id in s.runners && id in s.store.tasks
                             && s.runners[id].pc == (if s.runners[id].mode == Plain then Begun else Running)
    case Snapshot(id) => id in s.runners && id in s.store.tasks && s.runners[id].pc.Settled?
    case Tell(id) => id in s.runners && s.runners[id].pc.Shown? && s.runners[id].mode != Plain
    case Finish(id) => id in s.runners && s.runners[id].pc.Told?
    case Cancel(_, _) => true
  }

  /** emit: the first delta restarts the artifact, the others append. */
  function Delta(id: nat, text: Bytes, first: bool): TaskEvent {
    ArtifactEvent(Artifact(ArtifactId(id), [TextPart(text)]), !first, false)
  }

  /** What is rendered between a snapshot and the final status: the artifact, on the complete
      branch, if the snapshot has one. */
  function Closing(failed: bool, snap: Task): seq<TaskEvent> {
    if !failed && snap.artifacts != [] then [ArtifactEvent(snap.artifacts[0], false, true)] else []
  }

  function Moved(r: Runner, step: Step, s: State): Runner
    requires Enabled(s, step) && !step.Begin? && !step.Cancel? && r == s.runners[step.id]
  {
    match step
    case Register(_) => r.(handed := true)
    case Announce(_, now) => r.(pc := Running, out := [StatusEvent(Status(Working, None, Some(Truncate(now))), false)])
    case Emit(id, text) => r.(out := r.out + [Delta(id, text, r.texts == [])], texts := r.texts + [text])
    case Settle(_, result, _) => r.(pc := Settled(result.Err?))
    case Snapshot(id) =>
      var snap := s.store.tasks[id];
      if r.mode == Plain then r.(pc := Told(snap))
      else r.(pc := Shown(snap), out := r.out + Closing(r.pc.failed, snap))
    case Tell(_) => r.(pc := Told(r.pc.snap), out := r.out + [StatusEvent(r.pc.snap.status, true)])
    case Finish(_) => r.(pc := Over(r.pc.snap))
    case _ => r
  }

  function Stored(s: State, step: Step): Store
    requires Enabled(s, step)
  {
    match step
    case Begin(_, _, evicted) => evicted
    case Register(id) => s.store.(brokers := s.store.brokers + {id})
    case Settle(id, result, now) =>
      if result.Ok? then DoCompleted(s.store, id, result.value, now) else DoFailed(s.store, id, result.error, now)
    case Finish(id) => Ended(s.store, id)
    case Cancel(id, now) => DoCanceled(s.store, id, now)
    case _ => s.store
  }

  function Apply(s: State, step: Step): State
    requires Enabled(s, step)
  {
    match step
    case Begin(mode, _, evicted) =>
      s.(store := evicted, seqNo := NextId(s), runners := s.runners[NextId(s) := Runner(mode, Begun, false, [], [])])
    case Cancel(_, _) => s.(store := Stored(s, step))
    case _ => s.(store := Stored(s, step), runners := s.runners[step.id := Moved(s.runners[step.id], step, s)])
  }

  ghost predicate Runs(s: State, steps: seq<Step>)
    decreases |steps|
  {
    steps == [] || (Enabled(s, steps[0]) && Runs(Apply(s, steps[0]), steps[1..]))
  }

  ghost function After(s: State, steps: seq<Step>): State
    requires Runs(s, steps)
    decreases |steps|
  {
    if steps == [] then s else After(Apply(s, steps[0]), steps[1..])
  }

  // ---- what a runner's events look like ---------------------------------------------------

  function Deltas(id: nat, texts: seq<Bytes>): seq<TaskEvent> {
    if texts == [] then [] else Deltas(id, texts[..|texts| - 1]) + [Delta(id, texts[|texts| - 1], |texts| == 1)]
  }

  lemma DeltasSnoc(id: nat, texts: seq<Bytes>, text: Bytes)
    ensures Deltas(id, texts + [text]) == Deltas(id, texts) + [Delta(id, text, texts == [])]
  {
    assert (texts + [text])[..|texts|] == texts;
  }

  predicate Opening(id: nat, out: seq<TaskEvent>, texts: seq<Bytes>) {
    && out != [] && out[0].StatusEvent? && out[0].status.state == Working && out[0].status.message.None? && !out[0].final
    && out[1..] == Deltas(id, texts)
  }

  /** The artifact is rendered exactly when the task is completed. */
  function LastChunk(t: Task): seq<TaskEvent> {
    if t.status.state == Completed && t.artifacts != [] then [ArtifactEvent(t.artifacts[0], false, true)] else []
  }

  predicate TaskOk(id: nat, t: Task) {
    if t.status.state == Completed then |t.artifacts| == 1 && t.artifacts[0].id == ArtifactId(id) && t.status.message.None?
    else t.artifacts == []
  }

  /** working, the deltas, the full artifact if completed, one final status: the lifecycle of
      the task as it is stored. */
  ghost predicate Lifecycle(id: nat, out: seq<TaskEvent>, texts: seq<Bytes>, t: Task) {
    && IsTerminal(t.status.state) && TaskOk(id, t)
    && exists opening :: Opening(id, opening, texts) && out == opening + LastChunk(t) + [StatusEvent(t.status, true)]
  }

  predicate NotCompleted(store: Store, id: nat) {
    id in store.tasks ==> store.tasks[id].status.state != Completed
  }

  /** Before the handler's result is in, a task is working or was cancelled, with nothing else
      to it. */
  predicate Unsettled(store: Store, id: nat) {
    id in store.tasks ==>
      var t := store.tasks[id];
      (t.status.state == Working || t.status.state == Canceled) && t.status.message.None? && t.artifacts == []
  }

  /** A runner's events so far, by where it is. */
  ghost predicate PhaseOk(store: Store, id: nat, r: Runner) {
    match r.pc
    case Begun => r.out == [] && r.texts == [] && Unsettled(store, id)
    case Running => r.mode != Plain && Opening(id, r.out, r.texts) && Unsettled(store, id)
    case Settled(failed) =>
      && Terminal(store, id) && (failed ==> NotCompleted(store, id))
      && (if r.mode == Plain then r.out == [] else Opening(id, r.out, r.texts))
    case Shown(snap) =>
      && r.mode != Plain && Terminal(store, id) && store.tasks[id] == snap
      && exists opening :: Opening(id, opening, r.texts) && r.out == opening + LastChunk(snap)
    case Told(snap) =>
      && Terminal(store, id) && store.tasks[id] == snap
      && (if r.mode == Plain then r.out == [] else Lifecycle(id, r.out, r.texts, snap))
    case Over(snap) =>
      && IsTerminal(snap.status.state) && (id in store.tasks ==> store.tasks[id] == snap)
      && (if r.mode == Plain then r.out == [] else Lifecycle(id, r.out, r.texts, snap))
  }

  ghost predicate RunnerOk(store: Store, id: nat, r: Runner) {
    && (!r.pc.Over? <==> id in store.inFlight)
    && (id in store.brokers <==> r.mode == Detached && r.handed && !r.pc.Over?)
    && (id in store.tasks ==> TaskOk(id, store.tasks[id]))
    && PhaseOk(store, id, r)
  }

  ghost predicate EngineInv(s: State) {
    && Inv(s.store)
    && (forall id :: id in s.store.tasks ==> id in s.runners)
    && forall id :: id in s.runners ==> 1 <= id <= s.seqNo && RunnerOk(s.store, id, s.runners[id])
  }

  // ---- every step -------------------------------------------------------------------------

  /** What a runner can see of the store is the same. */
  predicate SameAt(store: Store, store': Store, id: nat) {
    && (id in store'.inFlight <==> id in store.inFlight)
    && (id in store'.brokers <==> id in store.brokers)
    && (id in store'.tasks ==> id in store.tasks && store'.tasks[id] == store.tasks[id])
    && (id in store.inFlight && id in store.tasks ==> id in store'.tasks)
  }

  lemma SameRunner(store: Store, store': Store, id: nat, r: Runner)
    requires RunnerOk(store, id, r) && SameAt(store, store', id) && store.inFlight <= store.tasks.Keys
    ensures RunnerOk(store', id, r)
  {
    hide Lifecycle, Opening, TaskOk;
  }

  lemma BeginSame(s: State, step: Step, id: nat)
    requires EngineInv(s) && Enabled(s, step) && step.Begin? && id in s.runners
    ensures SameAt(s.store, step.evicted, id)
  {
    hide RunnerOk, Truncate, Evicted, Shrinks;
    var began := Began(s.store, NextId(s), step.now);
    BeganInv(s.store, NextId(s), step.now);
    EvictedFacts(began, step.evicted, step.now, s.maxAge, s.maxTasks);
    Remains(began, step.evicted, id);
    NotShrunk(began, step.evicted);
  }

  /** Only Begin and Cancel touch a task that is not their own runner's. */
  lemma OthersSame(s: State, step: Step, id: nat)
    requires Enabled(s, step) && !step.Begin? && !step.Cancel? && id in s.runners && step.id != id
    ensures SameAt(s.store, Apply(s, step).store, id)
  {
    hide Moved, Truncate, Evicted;
  }

  lemma NotShrunk(s: Store, t: Store)
    requires Shrinks(s, t)
    ensures t.inFlight == s.inFlight && t.brokers == s.brokers
    ensures forall id :: id in t.tasks ==> id in s.tasks && t.tasks[id] == s.tasks[id]
  {
    hide TimeOf;
  }

  lemma BeganInv(s: Store, id: nat, now: int)
    requires Inv(s)
    ensures Inv(Began(s, id, now))
  {
    hide Truncate;
  }

  lemma BeginOk(s: State, step: Step)
    requires EngineInv(s) && Enabled(s, step) && step.Begin?
    ensures EngineInv(Apply(s, step)) && |step.evicted.tasks.Keys| <= Max(MaxTasks(s.maxTasks), |step.evicted.inFlight|)
  {
    hide RunnerOk, Evicted, Shrinks;
    var s' := Apply(s, step);
    var id := NextId(s);
    var began := Began(s.store, id, step.now);
    BeganInv(s.store, id, step.now);
    EvictedFacts(began, step.evicted, step.now, s.maxAge, s.maxTasks);
    Remains(began, step.evicted, id);
    NotShrunk(began, step.evicted);
    NewRunner(s, step);
    forall x | x in s.runners
      ensures RunnerOk(s'.store, x, s.runners[x])
    {
      BeginSame(s, step, x);
      BeginStored(s, step);
      SameRunner(s.store, s'.store, x, s.runners[x]);
    }
  }

  lemma NewRunner(s: State, step: Step)
    requires EngineInv(s) && Enabled(s, step) && step.Begin?
    ensures RunnerOk(step.evicted, NextId(s), Runner(step.mode, Begun, false, [], []))
  {
    hide Evicted, Shrinks, PhaseOk;
    var id := NextId(s);
    var began := Began(s.store, id, step.now);
    BeganInv(s.store, id, step.now);
    EvictedFacts(began, step.evicted, step.now, s.maxAge, s.maxTasks);
    NotShrunk(began, step.evicted);
    assert id !in s.store.brokers by {
      assert id !in s.store.tasks;
    }
    NewPhase(step.evicted, id, step.mode);
  }

  lemma NewPhase(store: Store, id: nat, mode: Mode)
    requires Unsettled(store, id)
    ensures PhaseOk(store, id, Runner(mode, Begun, false, [], []))
  {
  }

  lemma OpeningGrows(id: nat, out: seq<TaskEvent>, texts: seq<Bytes>, text: Bytes)
    requires Opening(id, out, texts)
    ensures Opening(id, out + [Delta(id, text, texts == [])], texts + [text])
  {
    hide Deltas, Delta;
    DeltasSnoc(id, texts, text);
    assert (out + [Delta(id, text, texts == [])])[1..] == out[1..] + [Delta(id, text, texts == [])];
  }

  /** The artifact is shown exactly when the snapshot is of a completed task. */
  lemma ClosingIsLastChunk(id: nat, failed: bool, t: Task)
    requires TaskOk(id, t) && (failed ==> t.status.state != Completed)
    ensures Closing(failed, t) == LastChunk(t)
  {
  }

  lemma RunnerAt(s: State, id: nat)
    requires EngineInv(s) && id in s.runners
    ensures RunnerOk(s.store, id, s.runners[id]) && Inv(s.store)
  {
    hide RunnerOk;
  }

  /** After complete or fail the task is terminal, and not completed if the handler failed. */
  lemma SettleOk(s: State, step: Step)
    requires EngineInv(s) && Enabled(s, step) && step.Settle?
    ensures RunnerOk(Stored(s, step), step.id, Moved(s.runners[step.id], step, s))
  {
    hide Deltas, Truncate, Opening, EngineInv, Inv;
    RunnerAt(s, step.id);
  }

  lemma ShownOk(s: State, step: Step)
    requires EngineInv(s) && Enabled(s, step) && (step.Snapshot? || step.Tell?)
    ensures RunnerOk(Stored(s, step), step.id, Moved(s.runners[step.id], step, s))
  {
    hide Deltas, Opening, EngineInv, Lifecycle, Closing, LastChunk, Inv;
    var id, r := step.id, s.runners[step.id];
    RunnerAt(s, id);
    if step.Snapshot? {
      ClosingIsLastChunk(id, r.pc.failed, s.store.tasks[id]);
    } else {
      ToldOk(id, r.out, r.texts, r.pc.snap);
    }
  }

  lemma EmitOk(s: State, step: Step)
    requires EngineInv(s) && Enabled(s, step) && (step.Announce? || step.Emit?)
    ensures RunnerOk(Stored(s, step), step.id, Moved(s.runners[step.id], step, s))
  {
    hide Deltas, Delta, Truncate, Opening, EngineInv, Inv;
    var id, r := step.id, s.runners[step.id];
    RunnerAt(s, id);
    if step.Announce? {
      Announced(id, Truncate(step.now));
    } else {
      OpeningGrows(id, r.out, r.texts, step.text);
    }
  }

  lemma RegisterOk(s: State, step: Step)
    requires EngineInv(s) && Enabled(s, step) && step.Register?
    ensures RunnerOk(Stored(s, step), step.id, Moved(s.runners[step.id], step, s))
  {
    hide EngineInv, Opening, Lifecycle, Inv;
    RunnerAt(s, step.id);
  }

  lemma FinishOk(s: State, step: Step)
    requires EngineInv(s) && Enabled(s, step) && step.Finish?
    ensures RunnerOk(Stored(s, step), step.id, Moved(s.runners[step.id], step, s))
  {
    hide EngineInv, Opening, Lifecycle, Inv;
    RunnerAt(s, step.id);
  }

  lemma MovedOk(s: State, step: Step)
    requires EngineInv(s) && Enabled(s, step) && !step.Begin? && !step.Cancel?
    ensures RunnerOk(Stored(s, step), step.id, Moved(s.runners[step.id], step, s))
  {
    hide EngineInv, Enabled, RunnerOk, Stored, Moved;
    match step {
      case Settle(_, _, _) => SettleOk(s, step);
      case Snapshot(_) => ShownOk(s, step);
      case Tell(_) => ShownOk(s, step);
      case Announce(_, _) => EmitOk(s, step);
      case Emit(_, _) => EmitOk(s, step);
      case Register(_) => RegisterOk(s, step);
      case Finish(_) => FinishOk(s, step);
    }
  }

  lemma Announced(id: nat, stamp: int)
    ensures Opening(id, [StatusEvent(Status(Working, None, Some(stamp)), false)], [])
  {
  }

  lemma ToldOk(id: nat, out: seq<TaskEvent>, texts: seq<Bytes>, snap: Task)
    requires IsTerminal(snap.status.state) && TaskOk(id, snap)
    requires exists opening :: Opening(id, opening, texts) && out == opening + LastChunk(snap)
    ensures Lifecycle(id, out + [StatusEvent(snap.status, true)], texts, snap)
  {
    hide Opening, LastChunk;
    var opening :| Opening(id, opening, texts) && out == opening + LastChunk(snap);
    assert out + [StatusEvent(snap.status, true)] == opening + LastChunk(snap) + [StatusEvent(snap.status, true)];
  }

  lemma StoredInv(s: State, step: Step)
    requires EngineInv(s) && Enabled(s, step) && !step.Begin?
    ensures Inv(Stored(s, step)) && Stored(s, step).tasks.Keys == s.store.tasks.Keys
  {
    hide Evicted, Truncate, Opening, Lifecycle;
    if !step.Cancel? {
      assert RunnerOk(s.store, step.id, s.runners[step.id]);
    }
  }

  lemma CancelOk(s: State, id: nat, now: int)
    requires EngineInv(s)
    ensures forall x :: x in s.runners ==> RunnerOk(DoCanceled(s.store, id, now), x, s.runners[x])
  {
    hide Truncate, Opening, Lifecycle, PhaseOk;
    var store' := DoCanceled(s.store, id, now);
    forall x | x in s.runners
      ensures RunnerOk(store', x, s.runners[x])
    {
      assert RunnerOk(s.store, x, s.runners[x]);
      if x != id || Terminal(s.store, id) {
        SameRunner(s.store, store', x, s.runners[x]);
      } else {
        CanceledPhase(s.store, x, s.runners[x], now);
      }
    }
  }

  lemma CanceledPhase(store: Store, id: nat, r: Runner, now: int)
    requires PhaseOk(store, id, r) && !Terminal(store, id)
    ensures PhaseOk(DoCanceled(store, id, now), id, r)
  {
    hide Opening, Lifecycle, Truncate;
  }

  lemma StepKeeps(s: State, step: Step)
    requires EngineInv(s) && Enabled(s, step)
    ensures EngineInv(Apply(s, step))
  {
    hide RunnerOk, Evicted, Stored, Moved;
    var s' := Apply(s, step);
    if step.Begin? {
      BeginOk(s, step);
    } else {
      StoredInv(s, step);
      if step.Cancel? {
        CancelOk(s, step.id, step.now);
        CancelStored(s, step);
      } else {
        forall id | id in s'.runners
          ensures 1 <= id <= s'.seqNo && RunnerOk(s'.store, id, s'.runners[id])
        {
          if id == step.id {
            MovedOk(s, step);
          } else {
            OthersSame(s, step, id);
            SameRunner(s.store, s'.store, id, s.runners[id]);
          }
        }
      }
    }
  }

  lemma CancelStored(s: State, step: Step)
    requires Enabled(s, step) && step.Cancel?
    ensures Apply(s, step) == s.(store := DoCanceled(s.store, step.id, step.now))
  {
    hide DoCanceled;
  }

  lemma {:induction false} RunKeeps(s: State, steps: seq<Step>)
    requires EngineInv(s) && Runs(s, steps)
    ensures EngineInv(After(s, steps))
    decreases |steps|
  {
    hide EngineInv, Apply, Enabled;
    if steps != [] {
      StepKeeps(s, steps[0]);
      RunKeeps(Apply(s, steps[0]), steps[1..]);
    }
  }

  // ---- the statements ---------------------------------------------------------------------

  /** The four maps stay coupled in every reachable state, and every Begin leaves the table
      within its cap or full of running tasks only. */
  lemma StoreInvariant(maxAge: int, maxTasks: int, steps: seq<Step>)
    requires Runs(Initial(maxAge, maxTasks), steps)
    ensures var s := After(Initial(maxAge, maxTasks), steps);
            && s.store.brokers <= s.store.inFlight <= s.store.tasks.Keys
            && s.store.terminalAt.Keys <= s.store.tasks.Keys
            && (forall id :: id in s.store.tasks && !Terminal(s.store, id) ==> id in s.store.inFlight)
            && forall step :: Enabled(s, step) && step.Begin? ==>
                 var t := Apply(s, step).store; |t.tasks.Keys| <= Max(MaxTasks(s.maxTasks), |t.inFlight|)
  {
    hide Runs, After, Enabled, Apply, RunnerOk;
    RunKeeps(Initial(maxAge, maxTasks), steps);
    var s := After(Initial(maxAge, maxTasks), steps);
    forall step | Enabled(s, step) && step.Begin?
      ensures var t := Apply(s, step).store; |t.tasks.Keys| <= Max(MaxTasks(s.maxTasks), |t.inFlight|)
    {
      BeginOk(s, step);
      BeginStored(s, step);
    }
  }

  lemma BeginStored(s: State, step: Step)
    requires Enabled(s, step) && step.Begin?
    ensures Apply(s, step).store == step.evicted
  {
    hide Evicted;
  }

  /** A finished SendStream or SendAsync has rendered the lifecycle of one terminal task, and
      that is the task the store has, in this state and any other, for as long as it has it. */
  lemma LifecycleTold(maxAge: int, maxTasks: int, steps: seq<Step>, id: nat)
    requires Runs(Initial(maxAge, maxTasks), steps)
    requires var s := After(Initial(maxAge, maxTasks), steps);
             id in s.runners && (s.runners[id].pc.Told? || s.runners[id].pc.Over?) && s.runners[id].mode != Plain
    ensures var s := After(Initial(maxAge, maxTasks), steps);
            var r := s.runners[id];
            && Lifecycle(id, r.out, r.texts, r.pc.snap)
            && (id in s.store.tasks ==> s.store.tasks[id] == r.pc.snap)
  {
    hide Runs, After, Enabled, Apply, Lifecycle;
    RunKeeps(Initial(maxAge, maxTasks), steps);
    var s := After(Initial(maxAge, maxTasks), steps);
    assert RunnerOk(s.store, id, s.runners[id]);
  }

  predicate Frozen(s: State, id: nat, t: Task) {
    id <= s.seqNo && IsTerminal(t.status.state) && (id in s.store.tasks ==> s.store.tasks[id] == t)
  }

  lemma FrozenBegin(s: State, step: Step, id: nat, t: Task)
    requires EngineInv(s) && Enabled(s, step) && step.Begin? && Frozen(s, id, t)
    ensures Frozen(Apply(s, step), id, t)
  {
    hide RunnerOk, Evicted, Truncate, Shrinks;
    var began := Began(s.store, NextId(s), step.now);
    BeganInv(s.store, NextId(s), step.now);
    EvictedFacts(began, step.evicted, step.now, s.maxAge, s.maxTasks);
    NotShrunk(began, step.evicted);
    BeginStored(s, step);
  }

  lemma FrozenStored(s: State, step: Step, id: nat, t: Task)
    requires Enabled(s, step) && !step.Begin? && Frozen(s, id, t)
    ensures id in Stored(s, step).tasks ==> Stored(s, step).tasks[id] == t
  {
    hide Evicted, Truncate, At;
  }

  lemma FrozenStep(s: State, step: Step, id: nat, t: Task)
    requires EngineInv(s) && Enabled(s, step) && Frozen(s, id, t)
    ensures Frozen(Apply(s, step), id, t)
  {
    hide Enabled, Stored, Moved;
    if step.Begin? {
      FrozenBegin(s, step, id, t);
    } else {
      FrozenStored(s, step, id, t);
    }
  }

  /** Terminal states are absorbing: from any reachable state on, whatever completes, fails,
      is cancelled or evicted, a terminal task is never changed and never comes back. */
  lemma {:induction false} TerminalAbsorbing(s: State, steps: seq<Step>, id: nat, t: Task)
    requires EngineInv(s) && Runs(s, steps) && Frozen(s, id, t)
    ensures Frozen(After(s, steps), id, t)
    decreases |steps|
  {
    hide EngineInv, Apply, Enabled, Frozen;
    if steps != [] {
      StepKeeps(s, steps[0]);
      FrozenStep(s, steps[0], id, t);
      TerminalAbsorbing(Apply(s, steps[0]), steps[1..], id, t);
    }
  }
}
