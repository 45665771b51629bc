/** netbus/client.go: processes joined to one hub, each by a bridge between its local bus and
    the hub. A process may be offered any logged event at any time; posts may be lost but are
    not repeated. */
module Bridge {
  import opened Prelude

  /** Where an event began: the k-th local emission of a process, or a stranger's post. */
  datatype Tag = Local(process: nat, k: nat) | Outside

  /** An event on a local bus. `origin` is empty for local emissions. */
  datatype Item = Item(topic: Bytes, origin: Bytes, tag: Tag)

  datatype Post = Post(sender: nat, item: Item)

  /** A log entry, with the bridge's post it came from, if it did. */
  datatype Entry = Entry(item: Item, via: Option<nat>)

  /** `emitted` are the topics of the local emissions so far; `queue` is the bridge's bus
      subscription; `injected` are the log positions fed into the bus so far; `lastId` is what
      the client resumes from. */
  datatype Process = Process(origin: Bytes, allow: set<Bytes>, emitted: seq<Bytes>, queue: seq<Item>, lastId: nat, injected: seq<nat>)

  /** `posted` is every post a bridge made, `flying` the indices of those under way. */
  datatype State = State(procs: seq<Process>, posted: seq<Post>, flying: set<nat>, log: seq<Entry>)

  const BUS_CAP: nat := 64

  datatype Step =
    | Emit(p: nat, topic: Bytes)
    | Forward(p: nat)
    | Arrive(j: nat)
    | Lose(j: nat)
    | External(topic: Bytes, origin: Bytes)
    | Receive(p: nat, at: nat)

  predicate Distinct(procs: seq<Process>) {
    forall p, q :: 0 <= p < q < |procs| ==> procs[p].origin != procs[q].origin
  }

  predicate Initial(s: State) {
    && Distinct(s.procs) && s.posted == [] && s.flying == {} && s.log == []
    && forall p :: 0 <= p < |s.procs| ==>
         var x := s.procs[p]; x.origin != "" && x.emitted == [] && x.queue == [] && x.lastId == 0 && x.injected == []
  }

  predicate Enabled(s: State, step: Step) {
    match step
    case Emit(p, _) => p < |s.procs|
    case Forward(p) => p < |s.procs| && s.procs[p].queue != []
    case Arrive(j) => j in s.flying && j < |s.posted| && s.posted[j].sender < |s.procs|
    case Lose(j) => j in s.flying
    case External(_, _) => true
    case Receive(p, at) => p < |s.procs| && at < |s.log|
  }

  /** A bus drops what does not fit. */
  function Publish(x: Process, item: Item): Process {
    if |x.queue| < BUS_CAP then x.(queue := x.queue + [item]) else x
  }

  function Emitted(p: nat, x: Process, topic: Bytes): Process {
    Publish(x, Item(topic, "", Local(p, |x.emitted|))).(emitted := x.emitted + [topic])
  }

  /** The bridge forwards local emissions of its topics, and nothing else. */
  predicate Forwards(x: Process, item: Item) {
    item.origin == "" && (x.allow == {} || item.topic in x.allow)
  }

  /** stream: drop duplicates, drop own events, inject the rest. */
  function Received(x: Process, id: nat, ev: Item): Process
    requires id > 0
  {
    if id <= x.lastId then x
    else if ev.origin == x.origin then x.(lastId := id)
    else Publish(x.(lastId := id, injected := x.injected + [id - 1]), ev)
  }

  function WithOrigin(origin: Bytes): (o: Bytes)
    ensures o != ""
  {
    if origin == "" then "external" else origin
  }

  function Apply(s: State, step: Step): State
    requires Enabled(s, step)
  {
    match step
    case Emit(p, topic) => s.(procs := s.procs[p := Emitted(p, s.procs[p], topic)])
    case Forward(p) =>
      var x := s.procs[p];
      var s' := s.(procs := s.procs[p := x.(queue := x.queue[1..])]);
      if Forwards(x, x.queue[0]) then
        s'.(posted := s.posted + [Post(p, x.queue[0])], flying := s.flying + {|s.posted|})
      else s'
    case Arrive(j) =>
      var post := s.posted[j];
      s.(flying := s.flying - {j},
         log := s.log + [Entry(post.item.(origin := WithOrigin(s.procs[post.sender].origin)), Some(j))])
    case Lose(j) => s.(flying := s.flying - {j})
    case External(topic, origin) => s.(log := s.log + [Entry(Item(topic, WithOrigin(origin), Outside), None)])
    case Receive(p, at) => s.(procs := s.procs[p := Received(s.procs[p], at + 1, s.log[at].item)])
  }

  predicate Runs(s: State, steps: seq<Step>)
    decreases |steps|
  {
    steps == [] || (Enabled(s, steps[0]) && Runs(Apply(s, steps[0]), steps[1..]))
  }

  function After(s: State, steps: seq<Step>): State
    requires Runs(s, steps)
    decreases |steps|
  {
    if steps == [] then s else After(Apply(s, steps[0]), steps[1..])
  }

  // ---- the invariant ----------------------------------------------------------------------

  predicate Increasing(ns: seq<nat>) {
    forall i, j :: 0 <= i < j < |ns| ==> ns[i] < ns[j]
  }

  /** A queued item is one of the process's own emissions, on its topic, or carries another
      origin. */
  predicate ItemOk(p: nat, x: Process, item: Item) {
    item.origin == "" ==>
      item.tag.Local? && item.tag.process == p && item.tag.k < |x.emitted| && x.emitted[item.tag.k] == item.topic
  }

  predicate Before(a: Item, b: Item) {
    a.origin == "" && b.origin == "" && a.tag.Local? && b.tag.Local? ==> a.tag.k < b.tag.k
  }

  predicate QueueOk(p: nat, x: Process) {
    && (forall i :: 0 <= i < |x.queue| ==> ItemOk(p, x, x.queue[i]))
    && forall i, j :: 0 <= i < j < |x.queue| ==> Before(x.queue[i], x.queue[j])
  }

  predicate InjectedOk(log: seq<Entry>, x: Process) {
    && Increasing(x.injected)
    && forall i :: 0 <= i < |x.injected| ==>
         x.injected[i] < x.lastId && x.injected[i] < |log| && log[x.injected[i]].item.origin != x.origin
  }

  predicate ProcOk(log: seq<Entry>, p: nat, x: Process) {
    x.origin != "" && x.lastId <= |log| && QueueOk(p, x) && InjectedOk(log, x)
  }

  /** A post is a local emission of the process that made it, on a topic it may forward, no
      longer queued there. */
  predicate PostOk(procs: seq<Process>, post: Post) {
    && post.sender < |procs| && post.item.origin == "" && post.item.tag.Local? && post.item.tag.process == post.sender
    && post.item.tag.k < |procs[post.sender].emitted| && procs[post.sender].emitted[post.item.tag.k] == post.item.topic
    && (procs[post.sender].allow == {} || post.item.topic in procs[post.sender].allow)
    && forall i :: 0 <= i < |procs[post.sender].queue| ==> Before(post.item, procs[post.sender].queue[i])
  }

  predicate PostsOk(procs: seq<Process>, posted: seq<Post>) {
    && (forall i :: 0 <= i < |posted| ==> PostOk(procs, posted[i]))
    && forall i, j :: 0 <= i < j < |posted| ==> posted[i].item.tag != posted[j].item.tag
  }

  /** A log entry is a stranger's, or one arrived post under its process's origin. */
  predicate EntryOk(s: State, e: Entry) {
    && e.item.origin != ""
    && match e.via
       case None => e.item.tag == Outside
       case Some(j) =>
         && j < |s.posted| && j !in s.flying && e.item.tag == s.posted[j].item.tag && e.item.topic == s.posted[j].item.topic
         && s.posted[j].sender < |s.procs| && e.item.origin == s.procs[s.posted[j].sender].origin
  }

  predicate LogOk(s: State) {
    && (forall i :: 0 <= i < |s.log| ==> EntryOk(s, s.log[i]))
    && forall i, j :: 0 <= i < j < |s.log| && s.log[i].via.Some? ==> s.log[i].via != s.log[j].via
  }

  predicate Inv(s: State) {
    && Distinct(s.procs)
    && (forall p :: 0 <= p < |s.procs| ==> ProcOk(s.log, p, s.procs[p]))
    && PostsOk(s.procs, s.posted) && (forall j :: j in s.flying ==> j < |s.posted|)
    && LogOk(s)
  }

  // ---- preservation -----------------------------------------------------------------------

  /** What a process may do without touching posts or the log. */
  predicate Quiet(x: Process, y: Process) {
    && y.origin == x.origin && y.allow == x.allow && x.emitted <= y.emitted
    && |y.queue| <= |x.queue| + 1
    && (forall i :: 0 <= i < |y.queue| && i < |x.queue| ==> y.queue[i] == x.queue[i])
    && (|y.queue| == |x.queue| + 1 ==> y.queue[|x.queue|].origin == "" ==>
          y.queue[|x.queue|].tag.Local? && y.queue[|x.queue|].tag.k >= |x.emitted|)
  }

  lemma EmitOk(log: seq<Entry>, p: nat, x: Process, topic: Bytes)
    requires ProcOk(log, p, x)
    ensures ProcOk(log, p, Emitted(p, x, topic)) && Quiet(x, Emitted(p, x, topic))
  {
  }

  lemma ReceiveOk(log: seq<Entry>, p: nat, x: Process, at: nat)
    requires ProcOk(log, p, x) && at < |log| && log[at].item.origin != ""
    ensures ProcOk(log, p, Received(x, at + 1, log[at].item)) && Quiet(x, Received(x, at + 1, log[at].item))
  {
  }

  lemma QuietOk(s: State, p: nat, y: Process)
    requires Inv(s) && p < |s.procs| && ProcOk(s.log, p, y) && Quiet(s.procs[p], y)
    ensures Inv(s.(procs := s.procs[p := y]))
  {
    hide ProcOk, Before;
    var s' := s.(procs := s.procs[p := y]);
    forall i | 0 <= i < |s.posted|
      ensures PostOk(s'.procs, s.posted[i])
    {
      QuietPost(s.procs, p, y, s.posted[i]);
    }
    hide PostOk;
    assert PostsOk(s'.procs, s.posted);
    assert LogOk(s') by {
      forall i | 0 <= i < |s.log|
        ensures EntryOk(s', s.log[i])
      {
        assert EntryOk(s, s.log[i]);
      }
    }
  }

  lemma QuietPost(procs: seq<Process>, p: nat, y: Process, post: Post)
    requires PostOk(procs, post) && p < |procs| && Quiet(procs[p], y)
    ensures PostOk(procs[p := y], post)
  {
  }

  lemma ForwardOk(s: State, p: nat)
    requires Inv(s) && Enabled(s, Forward(p))
    ensures Inv(Apply(s, Forward(p)))
  {
    var x := s.procs[p];
    var y := x.(queue := x.queue[1..]);
    var s1 := s.(procs := s.procs[p := y]);
    Popped(s, p);
    if Forwards(x, x.queue[0]) {
      var post := Post(p, x.queue[0]);
      NewPost(s, p);
      AddPost(s1, post);
    }
  }

  lemma Popped(s: State, p: nat)
    requires Inv(s) && Enabled(s, Forward(p))
    ensures Inv(s.(procs := s.procs[p := s.procs[p].(queue := s.procs[p].queue[1..])]))
  {
    hide Before;
    var x := s.procs[p];
    var y := x.(queue := x.queue[1..]);
    var s' := s.(procs := s.procs[p := y]);
    assert ProcOk(s.log, p, y);
    forall i | 0 <= i < |s.posted|
      ensures PostOk(s'.procs, s.posted[i])
    {
      assert PostOk(s.procs, s.posted[i]);
    }
    hide PostOk, ProcOk;
    assert LogOk(s') by {
      forall i | 0 <= i < |s.log|
        ensures EntryOk(s', s.log[i])
      {
        assert EntryOk(s, s.log[i]);
      }
    }
  }

  /** What is posted was emitted here, and not posted before. */
  lemma NewPost(s: State, p: nat)
    requires Inv(s) && Enabled(s, Forward(p)) && Forwards(s.procs[p], s.procs[p].queue[0])
    ensures var x := s.procs[p];
            && PostOk(s.procs[p := x.(queue := x.queue[1..])], Post(p, x.queue[0]))
            && forall i :: 0 <= i < |s.posted| ==> s.posted[i].item.tag != x.queue[0].tag
  {
    hide LogOk, InjectedOk, Distinct;
    var x := s.procs[p];
    assert ProcOk(s.log, p, x);
    assert ItemOk(p, x, x.queue[0]);
    forall i | 0 <= i < |s.posted|
      ensures s.posted[i].item.tag != x.queue[0].tag
    {
      assert PostOk(s.procs, s.posted[i]);
      if s.posted[i].sender == p {
        assert Before(s.posted[i].item, x.queue[0]);
      }
    }
  }

  lemma AddPost(s: State, post: Post)
    requires Inv(s) && PostOk(s.procs, post) && forall i :: 0 <= i < |s.posted| ==> s.posted[i].item.tag != post.item.tag
    ensures Inv(s.(posted := s.posted + [post], flying := s.flying + {|s.posted|}))
  {
    hide ProcOk, PostOk, Distinct;
    var s' := s.(posted := s.posted + [post], flying := s.flying + {|s.posted|});
    assert LogOk(s') by {
      forall i | 0 <= i < |s.log|
        ensures EntryOk(s', s.log[i])
      {
        assert EntryOk(s, s.log[i]);
      }
    }
  }

  lemma ProcGrows(log: seq<Entry>, e: Entry, p: nat, x: Process)
    requires ProcOk(log, p, x)
    ensures ProcOk(log + [e], p, x)
  {
    hide QueueOk, Increasing;
  }

  lemma AddEntry(s: State, e: Entry, flying: set<nat>)
    requires Inv(s) && flying <= s.flying
    requires EntryOk(s.(flying := flying), e)
    requires e.via.Some? ==> forall i :: 0 <= i < |s.log| ==> s.log[i].via != e.via
    ensures Inv(s.(log := s.log + [e], flying := flying))
  {
    hide ProcOk, PostsOk, Distinct;
    var s' := s.(log := s.log + [e], flying := flying);
    forall p | 0 <= p < |s.procs|
      ensures ProcOk(s'.log, p, s.procs[p])
    {
      ProcGrows(s.log, e, p, s.procs[p]);
    }
    assert LogOk(s') by {
      forall i | 0 <= i < |s'.log|
        ensures EntryOk(s', s'.log[i])
      {
        if i < |s.log| {
          assert EntryOk(s, s.log[i]);
        }
      }
    }
  }

  lemma ArriveOk(s: State, j: nat)
    requires Inv(s) && Enabled(s, Arrive(j))
    ensures Inv(Apply(s, Arrive(j)))
  {
    hide ProcOk, Distinct, Before;
    var post := s.posted[j];
    assert PostOk(s.procs, post);
    assert s.procs[post.sender].origin != "" by {
      ProcOrigin(s, post.sender);
    }
    forall i | 0 <= i < |s.log|
      ensures s.log[i].via != Some(j)
    {
      assert EntryOk(s, s.log[i]);
    }
    AddEntry(s, Entry(post.item.(origin := WithOrigin(s.procs[post.sender].origin)), Some(j)), s.flying - {j});
  }

  lemma ProcOrigin(s: State, p: nat)
    requires Inv(s) && p < |s.procs|
    ensures s.procs[p].origin != ""
  {
    assert ProcOk(s.log, p, s.procs[p]);
  }

  lemma LoseOk(s: State, j: nat)
    requires Inv(s)
    ensures Inv(s.(flying := s.flying - {j}))
  {
    hide ProcOk, PostsOk, Distinct;
    var s' := s.(flying := s.flying - {j});
    assert LogOk(s') by {
      forall i | 0 <= i < |s.log|
        ensures EntryOk(s', s.log[i])
      {
        assert EntryOk(s, s.log[i]);
      }
    }
  }

  lemma StepKeeps(s: State, step: Step)
    requires Inv(s) && Enabled(s, step)
    ensures Inv(Apply(s, step))
  {
    hide Inv, ProcOk, PostsOk, LogOk, Received, Emitted, Quiet;
    match step {
      case Emit(p, topic) =>
        ProcAt(s, p);
        EmitOk(s.log, p, s.procs[p], topic);
        QuietOk(s, p, Emitted(p, s.procs[p], topic));
      case Forward(p) => ForwardOk(s, p);
      case Arrive(j) => ArriveOk(s, j);
      case Lose(j) => LoseOk(s, j);
      case External(topic, origin) => AddEntry(s, Entry(Item(topic, WithOrigin(origin), Outside), None), s.flying);
      case Receive(p, at) =>
        ProcAt(s, p);
        EntryAt(s, at);
        ReceiveOk(s.log, p, s.procs[p], at);
        QuietOk(s, p, Received(s.procs[p], at + 1, s.log[at].item));
    }
  }

  lemma ProcAt(s: State, p: nat)
    requires Inv(s) && p < |s.procs|
    ensures ProcOk(s.log, p, s.procs[p])
  {
  }

  lemma EntryAt(s: State, i: nat)
    requires Inv(s) && i < |s.log|
    ensures EntryOk(s, s.log[i])
  {
  }

  lemma {:induction false} RunKeeps(s: State, steps: seq<Step>)
    requires Inv(s) && Runs(s, steps)
    ensures Inv(After(s, steps))
    decreases |steps|
  {
    hide Inv, Apply, Enabled;
    if steps != [] {
      StepKeeps(s, steps[0]);
      RunKeeps(Apply(s, steps[0]), steps[1..]);
    }
  }

  lemma InitialOk(s: State)
    requires Initial(s)
    ensures Inv(s)
  {
  }

  lemma Reached(s: State, steps: seq<Step>) returns (t: State)
    requires Initial(s) && Runs(s, steps)
    ensures t == After(s, steps) && Inv(t)
  {
    hide Inv, Apply, Enabled, Initial;
    InitialOk(s);
    RunKeeps(s, steps);
    t := After(s, steps);
  }

  // ---- the statements ---------------------------------------------------------------------

  /** The hub logs a local emission at most once; no logged event is without an origin. */
  lemma LoggedOnce(s: State, steps: seq<Step>)
    requires Initial(s) && Runs(s, steps)
    ensures var log := After(s, steps).log;
            && (forall i :: 0 <= i < |log| ==> log[i].item.origin != "")
            && forall i, j :: 0 <= i < j < |log| && log[i].item.tag.Local? ==> log[i].item.tag != log[j].item.tag
  {
    hide Apply, Enabled, Initial, Runs, ProcOk, After, PostOk;
    var t := Reached(s, steps);
    forall i, j | 0 <= i < j < |t.log| && t.log[i].item.tag.Local?
      ensures t.log[i].item.tag != t.log[j].item.tag
    {
      assert EntryOk(t, t.log[i]) && EntryOk(t, t.log[j]);
    }
    forall i | 0 <= i < |t.log|
      ensures t.log[i].item.origin != ""
    {
      assert EntryOk(t, t.log[i]);
    }
  }

  /** Nothing injected from the hub is ever posted back: each post is a local emission of the
      process that made it, and no emission is posted twice. */
  lemma NeverEchoed(s: State, steps: seq<Step>)
    requires Initial(s) && Runs(s, steps)
    ensures var posted := After(s, steps).posted;
            && (forall i :: 0 <= i < |posted| ==>
                  posted[i].item.origin == "" && posted[i].item.tag.Local? && posted[i].item.tag.process == posted[i].sender)
            && forall i, j :: 0 <= i < j < |posted| ==> posted[i].item.tag != posted[j].item.tag
  {
    hide Apply, Enabled, Initial, Runs, ProcOk, After, LogOk, Before;
    var t := Reached(s, steps);
    forall i | 0 <= i < |t.posted|
      ensures t.posted[i].item.origin == "" && t.posted[i].item.tag.Local? && t.posted[i].item.tag.process == t.posted[i].sender
    {
      assert PostOk(t.procs, t.posted[i]);
    }
  }

  /** A bus is fed each emission at most once, and never one of its own process. */
  lemma InjectedOnce(s: State, steps: seq<Step>, p: nat)
    requires Initial(s) && Runs(s, steps) && p < |After(s, steps).procs|
    ensures var t := After(s, steps);
            var fed := t.procs[p].injected;
            && (forall i :: 0 <= i < |fed| ==> fed[i] < |t.log|)
            && (forall i :: 0 <= i < |fed| && t.log[fed[i]].item.tag.Local? ==> t.log[fed[i]].item.tag.process != p)
            && forall i, j :: 0 <= i < j < |fed| && t.log[fed[i]].item.tag.Local? ==>
                 t.log[fed[i]].item.tag != t.log[fed[j]].item.tag
  {
    hide Apply, Enabled, Initial, Runs, After, Inv;
    var t := Reached(s, steps);
    LoggedOnce(s, steps);
    var fed := t.procs[p].injected;
    ProcAt(t, p);
    hide QueueOk;
    forall i | 0 <= i < |fed| && t.log[fed[i]].item.tag.Local?
      ensures t.log[fed[i]].item.tag.process != p
    {
      EntryAt(t, fed[i]);
      SenderOf(t, fed[i]);
    }
  }

  lemma SenderOf(s: State, i: nat)
    requires Inv(s) && i < |s.log| && s.log[i].item.tag.Local?
    ensures s.log[i].item.tag.process < |s.procs| && s.log[i].item.origin == s.procs[s.log[i].item.tag.process].origin
  {
    hide ProcOk, Before;
    assert EntryOk(s, s.log[i]);
    assert PostOk(s.procs, s.posted[s.log[i].via.value]);
  }

  /** A logged local emission is under its own process's origin and on the topic it was emitted
      on, and its process forwards that topic. */
  lemma LoggedAsEmitted(s: State, steps: seq<Step>, i: nat)
    requires Initial(s) && Runs(s, steps) && i < |After(s, steps).log| && After(s, steps).log[i].item.tag.Local?
    ensures var t := After(s, steps);
            var item := t.log[i].item;
            && item.tag.process < |t.procs|
            && var x := t.procs[item.tag.process];
               && item.origin == x.origin && item.tag.k < |x.emitted| && item.topic == x.emitted[item.tag.k]
               && (x.allow == {} || item.topic in x.allow)
  {
    hide Apply, Enabled, Initial, Runs, After, ProcOk, Before;
    var t := Reached(s, steps);
    assert EntryOk(t, t.log[i]);
    assert PostOk(t.procs, t.posted[t.log[i].via.value]);
  }

  // ---- what gets through ------------------------------------------------------------------

  /** What one forwarding does: the head of the queue is posted when it began here and its topic
      may be forwarded, and is gone otherwise. */
  lemma ForwardPosts(s: State, p: nat)
    requires Enabled(s, Forward(p))
    ensures var x, t := s.procs[p], Apply(s, Forward(p));
            && t.procs[p].queue == x.queue[1..] && t.log == s.log
            && if x.queue[0].origin == "" && (x.allow != {} ==> x.queue[0].topic in x.allow)
               then t.posted == s.posted + [Post(p, x.queue[0])] && t.flying == s.flying + {|s.posted|}
               else t.posted == s.posted && t.flying == s.flying
  {
  }

  /** What a process makes of a logged event: nothing if it has seen that far; only the position
      if the event began here; otherwise its bus is fed the event, unless the bridge's own
      subscription is full, which then misses it. */
  lemma ReceiveFeeds(s: State, p: nat, at: nat)
    requires Enabled(s, Receive(p, at))
    ensures var x, y, ev := s.procs[p], Apply(s, Receive(p, at)).procs[p], s.log[at].item;
            if at < x.lastId then y == x
            else
              && y.lastId == at + 1
              && if ev.origin == x.origin then y.injected == x.injected && y.queue == x.queue
                 else
                   && y.injected == x.injected + [at]
                   && y.queue == if |x.queue| < 64 then x.queue + [ev] else x.queue
  {
  }

  /** Emit, forward, arrive, receive. */
  function Relay(s: State, p: nat, topic: Bytes, q: nat): seq<Step> {
    [Emit(p, topic), Forward(p), Arrive(|s.posted|), Receive(q, |s.log|)]
  }

  /** An emission on a topic that may be forwarded reaches every other process: from any
      reachable state with the bridge's queue empty, these four steps can be taken, and then
      it is logged as emitted and fed to the other's bus. Back at its own process the event
      feeds nothing. */
  lemma RelayReaches(s: State, before: seq<Step>, p: nat, topic: Bytes, q: nat)
    requires Initial(s) && Runs(s, before)
    requires var t := After(s, before);
             && p < |t.procs| && q < |t.procs| && t.procs[p].queue == []
             && |t.procs[q].queue| < 64 && (t.procs[p].allow != {} ==> topic in t.procs[p].allow)
    ensures var t := After(s, before);
            && Runs(t, Relay(t, p, topic, q))
            && var u := After(t, Relay(t, p, topic, q));
               var item := Item(topic, t.procs[p].origin, Local(p, |t.procs[p].emitted|));
               && |u.procs| == |t.procs| && u.log == t.log + [Entry(item, Some(|t.posted|))] && u.procs[q].lastId == |u.log|
               && if q != p then u.procs[q].injected == t.procs[q].injected + [|t.log|] && u.procs[q].queue == t.procs[q].queue + [item]
                  else u.procs[p].injected == t.procs[p].injected && u.procs[p].queue == []
  {
    hide Initial, Inv, Runs, After;
    var t := Reached(s, before);
    ProcOrigin(t, p);
    SeenOk(t, q);
    Others(t, p, q);
    RelayRuns(t, p, topic, q);
    FourSteps(t, Relay(t, p, topic, q));
  }

  lemma SeenOk(s: State, p: nat)
    requires Inv(s) && p < |s.procs|
    ensures s.procs[p].lastId <= |s.log|
  {
    assert ProcOk(s.log, p, s.procs[p]);
  }

  lemma Others(s: State, p: nat, q: nat)
    requires Inv(s) && p < |s.procs| && q < |s.procs|
    ensures p != q ==> s.procs[p].origin != s.procs[q].origin
  {
    hide ProcOk, PostsOk, LogOk;
  }

  predicate Four(s: State, steps: seq<Step>) {
    && |steps| == 4
    && Enabled(s, steps[0]) && var a := Apply(s, steps[0]);
    Enabled(a, steps[1]) && var b := Apply(a, steps[1]);
    Enabled(b, steps[2]) && var c := Apply(b, steps[2]);
    Enabled(c, steps[3])
  }

  function AfterFour(s: State, steps: seq<Step>): State
    requires Four(s, steps)
  {
    Apply(Apply(Apply(Apply(s, steps[0]), steps[1]), steps[2]), steps[3])
  }

  lemma FourSteps(s: State, steps: seq<Step>)
    requires Four(s, steps)
    ensures Runs(s, steps) && After(s, steps) == AfterFour(s, steps)
  {
    hide Enabled, Apply;
    var a := Apply(s, steps[0]);
    var b := Apply(a, steps[1]);
    var c := Apply(b, steps[2]);
    assert steps[1..][0] == steps[1] && steps[1..][1..] == steps[2..];
    assert steps[2..][0] == steps[2] && steps[2..][1..] == steps[3..];
    assert steps[3..] == [steps[3]] && steps[3..][1..] == [];
    assert Runs(c, steps[3..]) && After(c, steps[3..]) == Apply(c, steps[3]);
    assert Runs(b, steps[2..]) && After(b, steps[2..]) == After(c, steps[3..]);
    assert Runs(a, steps[1..]) && After(a, steps[1..]) == After(b, steps[2..]);
  }

  lemma RelayRuns(t: State, p: nat, topic: Bytes, q: nat)
    requires p < |t.procs| && q < |t.procs| && t.procs[p].queue == [] && t.procs[p].origin != ""
    requires t.procs[q].lastId <= |t.log| && |t.procs[q].queue| < 64
    requires (t.procs[p].allow != {} ==> topic in t.procs[p].allow) && (p != q ==> t.procs[p].origin != t.procs[q].origin)
    ensures Four(t, Relay(t, p, topic, q))
    ensures var u := AfterFour(t, Relay(t, p, topic, q));
            var item := Item(topic, t.procs[p].origin, Local(p, |t.procs[p].emitted|));
            && |u.procs| == |t.procs| && u.log == t.log + [Entry(item, Some(|t.posted|))] && u.procs[q].lastId == |u.log|
            && if q != p then u.procs[q].injected == t.procs[q].injected + [|t.log|] && u.procs[q].queue == t.procs[q].queue + [item]
               else u.procs[p].injected == t.procs[p].injected && u.procs[p].queue == []
  {
    var a := Apply(t, Emit(p, topic));
    var own := Item(topic, "", Local(p, |t.procs[p].emitted|));
    assert a.procs[p].queue == [own];
    var b := Apply(a, Forward(p));
    assert b.posted == t.posted + [Post(p, own)] && b.procs[p].queue == [];
    var c := Apply(b, Arrive(|t.posted|));
    assert c.procs == b.procs;
  }
}
