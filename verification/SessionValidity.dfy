/** What any history of runs leaves in a session, whatever the providers answer and however
    each run ends. */
module SessionValidity {
  import opened Prelude
  import opened Session
  import opened Agent

  // ---- the validity providers demand ------------------------------------------------------

  /** m answers the calls of `asking` one for one, in order. */
  predicate Answers(m: Message, asking: seq<ToolUse>) {
    && m.role == Tool
    && |m.content| == |asking|
    && forall i :: 0 <= i < |asking| ==> m.content[i].Result? && m.content[i].useId == asking[i].id
  }

  /** The message at i, unless a user wrote it, has every tool call answered by the very next
      message. */
  predicate AnsweredAt(h: seq<Message>, i: int)
    requires 0 <= i < |h|
  {
    h[i].role != User && ToolUses(h[i]) != [] ==> i + 1 < |h| && Answers(h[i + 1], ToolUses(h[i]))
  }

  predicate Answered(h: seq<Message>) {
    forall i :: 0 <= i < |h| ==> AnsweredAt(h, i)
  }

  /** No tool message without the calls it answers right before it. */
  predicate GroundedAt(h: seq<Message>, i: int)
    requires 0 <= i < |h|
  {
    h[i].role == Tool ==> i > 0 && h[i - 1].role == Assistant && ToolUses(h[i - 1]) != [] && Answers(h[i], ToolUses(h[i - 1]))
  }

  predicate Grounded(h: seq<Message>) {
    forall i :: 0 <= i < |h| ==> GroundedAt(h, i)
  }

  /** Every message is at most w places after a user message. */
  ghost predicate Dense(h: seq<Message>, w: nat) {
    forall i :: 0 <= i < |h| ==> UserWithin(h, i, w)
  }

  ghost predicate UserWithin(h: seq<Message>, i: int, w: nat)
    requires 0 <= i < |h|
  {
    exists j :: 0 <= j <= i && i - w <= j && FromUser(h, j)
  }

  // ---- one run ----------------------------------------------------------------------------

  /** Providers answer with assistant messages. */
  ghost predicate Provider(script: Script) {
    forall i: nat :: script(i).Answer? ==> script(i).resp.message.role == Assistant
  }

  lemma ReactionAnswers(reg: Registry, resp: Response, tools: nat -> ToolOutcome)
    ensures var r := Reaction(reg, resp, tools);
            if ToolUses(resp.message) == [] then r.None?
            else r.Some? && Answers(r.value, ToolUses(resp.message)) && ToolUses(r.value) == []
  {
    var uses := ToolUses(resp.message);
    if uses != [] {
      hide ExecTool, UsesIn;
      var content := Reaction(reg, resp, tools).value.content;
      forall i | 0 <= i < |uses|
        ensures content[i].Result? && content[i].useId == uses[i].id
      {
        ExecAnswers(reg, uses[i], tools(i));
      }
    }
  }

  lemma ExecAnswers(reg: Registry, u: ToolUse, o: ToolOutcome)
    ensures var r := ExecTool(reg, u, o); r.Result? && r.useId == u.id && r.name == u.name
  {
  }

  /** Extends: the old history, then at most `most` messages none of which is a user's. */
  predicate Extends(h: seq<Message>, h': seq<Message>, most: nat) {
    && h <= h'
    && |h'| <= |h| + most
    && forall i :: |h| <= i < |h'| ==> h'[i].role != User
  }

  lemma SnocAnswered(h: seq<Message>, m: Message)
    requires Answered(h) && (m.role == User || ToolUses(m) == [])
    ensures Answered(h + [m])
  {
    forall i | 0 <= i < |h + [m]|
      ensures AnsweredAt(h + [m], i)
    {
      if i < |h| {
        assert AnsweredAt(h, i);
      }
    }
  }

  lemma PairAnswered(h: seq<Message>, m: Message, t: Message)
    requires Answered(h) && Answers(t, ToolUses(m)) && ToolUses(t) == []
    ensures Answered(h + [m] + [t])
  {
    var h' := h + [m] + [t];
    forall i | 0 <= i < |h'|
      ensures AnsweredAt(h', i)
    {
      if i < |h| {
        assert AnsweredAt(h, i);
      }
    }
  }

  lemma SnocGrounded(h: seq<Message>, m: Message)
    requires Grounded(h)
    requires m.role == Tool ==> h != [] && h[|h| - 1].role == Assistant && ToolUses(h[|h| - 1]) != [] && Answers(m, ToolUses(h[|h| - 1]))
    ensures Grounded(h + [m])
  {
    forall i | 0 <= i < |h + [m]|
      ensures GroundedAt(h + [m], i)
    {
      if i < |h| {
        assert GroundedAt(h, i);
      }
    }
  }

  /** The loop keeps the history valid and adds at most two messages a step. */
  lemma {:induction false} DriveKeeps(r: Ran, i: nat, maxSteps: nat, reg: Registry, script: Script)
    requires Answered(r.history) && Grounded(r.history) && Provider(script) && i <= maxSteps
    ensures var h := Drive(r, i, maxSteps, reg, script).history;
            Answered(h) && Grounded(h) && Extends(r.history, h, 2 * (maxSteps - i))
    decreases maxSteps - i
  {
    hide Reaction, ToolUses, Answered, Grounded;
    if i < maxSteps && script(i).Answer? {
      var m, tools := script(i).resp.message, script(i).tools;
      var reaction := Reaction(reg, script(i).resp, tools);
      ReactionAnswers(reg, script(i).resp, tools);
      var h1 := r.history + [m];
      SnocGrounded(r.history, m);
      var answered := Ran(h1, Some(m), r.used + [script(i).resp.usage], r.exit);
      match reaction
      case None =>
        SnocAnswered(r.history, m);
      case Some(t) =>
        PairAnswered(r.history, m, t);
        SnocGrounded(h1, t);
        DriveKeeps(answered.(history := h1 + [t]), i + 1, maxSteps, reg, script);
    }
  }

  /** An answer whose calls keep the loop going. */
  predicate Continues(turn: Turn) {
    turn.Answer? && ToolUses(turn.resp.message) != []
  }

  /** The account `d` gives of the turns from i on, started from `r`: answers that call tools
      until one that does not, a failure, a cancellation or the step limit; the exit says which,
      the last message is the last answer's, and every answer's usage is counted once. */
  predicate Accounts(r: Ran, i: nat, maxSteps: nat, script: Script, d: Ran) {
    var end := i + |d.used| - |r.used|;
    && i <= end <= maxSteps && r.used <= d.used
    && (forall j :: i <= j < end ==> script(j).Answer?)
    && (forall j :: i <= j < end ==> d.used[|r.used| + j - i] == script(j).resp.usage)
    && (forall j :: i <= j < end - 1 ==> Continues(script(j)))
    && d.last == (if end == i then r.last else Some(script(end - 1).resp.message))
    && (d.exit == Done ==> end > i && !Continues(script(end - 1)))
    && (d.exit != Done && end > i ==> Continues(script(end - 1)))
    && (d.exit == OutOfSteps ==> end == maxSteps)
    && (d.exit == Cancelled ==> end < maxSteps && script(end).ContextDone?)
    && (d.exit == Errored ==> end < maxSteps && script(end).ProviderError?)
  }

  lemma OneMoreTurn(r: Ran, i: nat, maxSteps: nat, script: Script, d: Ran, next: Ran)
    requires Continues(script(i)) && Accounts(next, i + 1, maxSteps, script, d)
    requires next.used == r.used + [script(i).resp.usage] && next.last == Some(script(i).resp.message)
    ensures Accounts(r, i, maxSteps, script, d)
  {
    hide ToolUses;
  }

  lemma LastTurn(r: Ran, i: nat, maxSteps: nat, script: Script, d: Ran)
    requires i < maxSteps && script(i).Answer? && !Continues(script(i))
    requires d.used == r.used + [script(i).resp.usage] && d.last == Some(script(i).resp.message) && d.exit == Done
    ensures Accounts(r, i, maxSteps, script, d)
  {
    hide ToolUses;
  }

  lemma {:induction false} DriveAccounts(r: Ran, i: nat, maxSteps: nat, reg: Registry, script: Script)
    requires i <= maxSteps
    ensures Accounts(r, i, maxSteps, script, Drive(r, i, maxSteps, reg, script))
    decreases maxSteps - i
  {
    if i < maxSteps && script(i).Answer? {
      hide Accounts, Reaction, ToolUses;
      var resp := script(i).resp;
      var reaction := Reaction(reg, resp, script(i).tools);
      var d := Drive(r, i, maxSteps, reg, script);
      ReactionAnswers(reg, resp, script(i).tools);
      if reaction.Some? {
        var next := Ran(r.history + [resp.message] + [reaction.value], Some(resp.message), r.used + [resp.usage], r.exit);
        DriveAccounts(next, i + 1, maxSteps, reg, script);
        OneMoreTurn(r, i, maxSteps, script, d, next);
      } else {
        LastTurn(r, i, maxSteps, script, d);
      }
    }
  }

  lemma DenseExtends(h: seq<Message>, h': seq<Message>, input: Message, w: nat)
    requires Dense(h, w) && input.role == User && Extends(h + [input], h', w)
    ensures Dense(h', w)
  {
    forall i | 0 <= i < |h'|
      ensures UserWithin(h', i, w)
    {
      if i < |h| {
        assert UserWithin(h, i, w);
        var j :| 0 <= j <= i && i - w <= j && FromUser(h, j);
        assert h'[j] == (h + [input])[j];
        assert FromUser(h', j);
      } else {
        assert h'[|h|] == (h + [input])[|h|];
        assert FromUser(h', |h|);
      }
    }
  }

  // ---- the trim ---------------------------------------------------------------------------

  /** Cutting at a user message keeps all of it. */
  lemma SuffixKeeps(h: seq<Message>, c: nat, w: nat)
    requires Answered(h) && Grounded(h) && Dense(h, w) && c <= |h| && (c < |h| ==> FromUser(h, c))
    ensures Answered(h[c..]) && Grounded(h[c..]) && Dense(h[c..], w)
  {
    var s := h[c..];
    forall i | 0 <= i < |s|
      ensures AnsweredAt(s, i) && GroundedAt(s, i) && UserWithin(s, i, w)
    {
      assert AnsweredAt(h, c + i) && GroundedAt(h, c + i) && UserWithin(h, c + i, w);
      var j :| 0 <= j <= c + i && c + i - w <= j && FromUser(h, j);
      var j' := if j < c then 0 else j - c;
      assert FromUser(s, j');
    }
  }

  /** The window: it starts with a user message and exceeds keepLast by less than one turn. */
  lemma TrimmedWindow(h: seq<Message>, keepLast: int, w: nat)
    requires keepLast > 0 && Dense(h, w)
    ensures var t := Trimmed(h, keepLast);
            |t| <= keepLast + w && (h != [] ==> t != [] && FromUser(t, 0))
  {
    if h != [] {
      var start := WindowStart(h, keepLast);
      assert UserWithin(h, start, w);
      var j :| 0 <= j <= start && start - w <= j && FromUser(h, j);
      var c := CutAt(h, keepLast);
      assert c >= j;
      assert c <= start;
    }
  }

  // ---- whole histories of runs ------------------------------------------------------------

  datatype Run = Run(input: Message, dead: bool, script: Script)

  ghost predicate Proper(runs: seq<Run>) {
    forall i :: 0 <= i < |runs| ==> runs[i].input.role == User && Provider(runs[i].script)
  }

  /** The session after any number of Run or Stream calls, starting empty. */
  function HistoryAfter(runs: seq<Run>, cfg: Config): seq<Message> {
    if runs == [] then []
    else
      var r := runs[|runs| - 1];
      RunOn(HistoryAfter(runs[..|runs| - 1], cfg), r.input, r.dead, cfg, r.script).history
  }

  lemma {:induction false} RunKeeps(h: seq<Message>, r: Run, cfg: Config)
    requires r.input.role == User && Provider(r.script)
    requires Answered(h) && Grounded(h) && Dense(h, 2 * Steps(cfg))
    ensures var h' := RunOn(h, r.input, r.dead, cfg, r.script).history;
            && Answered(h') && Grounded(h') && Dense(h', 2 * Steps(cfg))
            && (cfg.keepLast > 0 && !r.dead ==> |h'| <= cfg.keepLast + 2 * Steps(cfg) && h' != [] && FromUser(h', 0))
  {
    hide Drive, Trimmed;
    if !r.dead {
      var w := 2 * Steps(cfg);
      SnocAnswered(h, r.input);
      SnocGrounded(h, r.input);
      var start := Ran(h + [r.input], None, [], Done);
      DriveKeeps(start, 0, Steps(cfg), cfg.reg, r.script);
      var driven := Drive(start, 0, Steps(cfg), cfg.reg, r.script).history;
      DenseExtends(h, driven, r.input, w);
      if cfg.keepLast > 0 {
        TrimIsSuffix(driven, cfg.keepLast);
        SuffixKeeps(driven, CutAt(driven, cfg.keepLast), w);
        TrimmedWindow(driven, cfg.keepLast, w);
      }
    }
  }

  lemma TrimIsSuffix(h: seq<Message>, keepLast: int)
    requires keepLast > 0
    ensures Trimmed(h, keepLast) == h[CutAt(h, keepLast)..]
  {
  }

  /** After any number of runs on any exit, every tool call is answered by the next message
      with exactly its ids in order, no tool message stands alone, and with KeepLast = k > 0 the
      history starts with a user message and has at most k + 2 * maxSteps messages. */
  lemma {:induction false} SessionAlwaysValid(runs: seq<Run>, cfg: Config)
    requires Proper(runs)
    ensures var h := HistoryAfter(runs, cfg);
            && Answered(h) && Grounded(h) && Dense(h, 2 * Steps(cfg))
            && (cfg.keepLast > 0 ==> |h| <= cfg.keepLast + 2 * Steps(cfg) && (h != [] ==> FromUser(h, 0)))
  {
    if runs != [] {
      hide RunOn, Answered, Grounded, Dense;
      var n := |runs| - 1;
      assert Proper(runs[..n]);
      SessionAlwaysValid(runs[..n], cfg);
      RunKeeps(HistoryAfter(runs[..n], cfg), runs[n], cfg);
      if runs[n].dead {
        DeadRun(HistoryAfter(runs[..n], cfg), runs[n], cfg);
      }
    }
  }

  lemma DeadRun(h: seq<Message>, r: Run, cfg: Config)
    requires r.dead
    ensures RunOn(h, r.input, r.dead, cfg, r.script).history == h
  {
  }

  /** The bound is met with equality: one run whose turn fills every step keeps the whole turn
      although KeepLast is 1. */
  lemma BoundReached(reg: Registry)
    ensures var call := ToolUse("c", "f", "");
            var busy := Answer(Response(Message(Assistant, [Use(call)]), ToolCalls, NO_USAGE), i => Errs(""));
            var cfg := Config(1, 1, reg);
            |HistoryAfter([Run(Message(User, []), false, i => busy)], cfg)| == 1 + 2 * Steps(cfg)
  {
    var call := ToolUse("c", "f", "");
    var resp := Response(Message(Assistant, [Use(call)]), ToolCalls, NO_USAGE);
    var tools: nat -> ToolOutcome := i => Errs("");
    var script: Script := i => Answer(resp, tools);
    var cfg := Config(1, 1, reg);
    var user := Message(User, []);
    assert [Use(call)][1..] == [];
    assert UsesIn([Use(call)]) == [call] + [];
    ReactionAnswers(reg, resp, tools);
    var t := Reaction(reg, resp, tools).value;
    var h := [user] + [resp.message] + [t];
    assert [] + [user] == [user];
    var r0 := Ran([user], None, [], Done);
    var r1 := Ran(h, Some(resp.message), [] + [NO_USAGE], Done);
    assert Drive(r1, 1, 1, reg, script).history == h;
    assert Drive(r0, 0, 1, reg, script) == Drive(r1, 1, 1, reg, script);
    assert !FromUser(h, 2) && !FromUser(h, 1) && FromUser(h, 0);
    assert LastUser(h, 0) == Some(0);
    assert LastUser(h, 1) == Some(0);
    assert LastUser(h, 2) == Some(0);
    assert CutAt(h, 1) == 0;
    assert Trimmed(h, 1) == h;
    var run := Run(user, false, script);
    assert [run][..0] == [];
    assert HistoryAfter([run], cfg) == h;
  }
}
