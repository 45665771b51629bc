/** What a run adds to the session, turn by turn: which tool calls are executed, what every
    result says, and what is counted. */
module AgentTurns {
  import opened Prelude
  import opened Session
  import opened Agent

  // ---- tool calls of a message ------------------------------------------------------------

  function CountUses(content: seq<Content>): nat {
    if content == [] then 0 else CountUses(content[..|content| - 1]) + if content[|content| - 1].Use? then 1 else 0
  }

  lemma {:induction false} UsesAppend(xs: seq<Content>, ys: seq<Content>)
    ensures UsesIn(xs + ys) == UsesIn(xs) + UsesIn(ys)
  {
    if xs == [] {
      assert xs + ys == ys;
    } else {
      assert (xs + ys)[1..] == xs[1..] + ys;
      UsesAppend(xs[1..], ys);
    }
  }

  /** The calls of a message are exactly its call blocks, in order. */
  lemma {:induction false} UsesInOrder(content: seq<Content>)
    ensures |UsesIn(content)| == CountUses(content)
    ensures forall k :: 0 <= k < |content| && content[k].Use? ==>
              CountUses(content[..k]) < CountUses(content) && UsesIn(content)[CountUses(content[..k])] == content[k].call
    decreases |content|
  {
    if content != [] {
      var n := |content| - 1;
      var front := content[..n];
      UsesInOrder(front);
      UsesAppend(front, [content[n]]);
      assert front + [content[n]] == content;
      assert [content[n]][1..] == [];
      hide UsesIn;
      forall k | 0 <= k < |content| && content[k].Use?
        ensures CountUses(content[..k]) < CountUses(content) && UsesIn(content)[CountUses(content[..k])] == content[k].call
      {
        if k < n {
          assert front[k] == content[k] && front[..k] == content[..k];
        }
      }
    }
  }

  // ---- what a result says -----------------------------------------------------------------

  /** The reasons an answer can stop for, as the result of a refused call names them. */
  predicate Named(stop: StopReason, reason: Bytes) {
    match stop
    case EndTurn => reason == "end_turn"
    case ToolCalls => reason == "tool_use"
    case MaxTokens => reason == "max_tokens"
    case OtherStop(name) => reason == name
  }

  /** The result of one call. After a stop for tool calls or at the end of a turn the call is
      executed: the tool's output, without error, exactly if the tool is registered and returns;
      otherwise the error that came instead. After any other stop it is an error that names the
      reason, whatever the tool would have done. */
  predicate Says(reg: Registry, stop: StopReason, call: ToolUse, o: ToolOutcome, c: Content) {
    && c.Result? && c.useId == call.id && c.name == call.name
    && if stop == ToolCalls || stop == EndTurn then
         var known := reg.Some? && call.name in reg.value;
         && (!c.isError <==> known && o.Returns?)
         && (known && o.Returns? ==> c.body == Output(o.out))
         && (known && o.Errs? ==> c.body == Failed(o.err))
         && (known && o.Panics? ==> c.body == Panicked(o.what))
         && (reg.Some? && !known ==> c.body == UnknownTool)
         && (reg.None? ==> c.body == NoTools)
       else c.isError && c.body.NotExecuted? && Named(stop, c.body.reason)
  }

  /** One turn's messages: the answer, and after an answer with calls their results in order. */
  predicate TurnSays(reg: Registry, resp: Response, tools: nat -> ToolOutcome, ms: seq<Message>) {
    var uses := ToolUses(resp.message);
    if uses == [] then ms == [resp.message]
    else
      && |ms| == 2 && ms[0] == resp.message
      && ms[1].role == Tool && |ms[1].content| == |uses|
      && forall k :: 0 <= k < |uses| ==> Says(reg, resp.stop, uses[k], tools(k), ms[1].content[k])
  }

  lemma ReactionSays(reg: Registry, resp: Response, tools: nat -> ToolOutcome)
    ensures var r := Reaction(reg, resp, tools);
            TurnSays(reg, resp, tools, [resp.message] + if r.Some? then [r.value] else [])
    ensures Reaction(reg, resp, tools).None? <==> ToolUses(resp.message) == []
  {
    hide UsesIn;
  }

  /** The turns from i up to `end`, one after the other. */
  ghost predicate TurnsSay(reg: Registry, script: Script, i: nat, end: nat, ms: seq<Message>)
    decreases end - i
  {
    if i >= end then ms == []
    else
      script(i).Answer?
      && exists n: nat :: n <= |ms| && TurnSays(reg, script(i).resp, script(i).tools, ms[..n])
                          && TurnsSay(reg, script, i + 1, end, ms[n..])
  }

  lemma OneTurn(reg: Registry, script: Script, i: nat, end: nat, turn: seq<Message>, rest: seq<Message>)
    requires i < end && script(i).Answer? && TurnSays(reg, script(i).resp, script(i).tools, turn)
    requires TurnsSay(reg, script, i + 1, end, rest)
    ensures TurnsSay(reg, script, i, end, turn + rest)
  {
    hide TurnSays;
    assert (turn + rest)[..|turn|] == turn && (turn + rest)[|turn|..] == rest;
  }

  lemma GrowSays(reg: Registry, script: Script, i: nat, end: nat, h: seq<Message>, turn: seq<Message>, d: seq<Message>)
    requires i < end && script(i).Answer? && TurnSays(reg, script(i).resp, script(i).tools, turn)
    requires h + turn <= d && TurnsSay(reg, script, i + 1, end, d[|h + turn|..])
    ensures h <= d && TurnsSay(reg, script, i, end, d[|h|..])
  {
    hide TurnSays, TurnsSay;
    OneTurn(reg, script, i, end, turn, d[|h + turn|..]);
    assert d[|h|..] == turn + d[|h + turn|..];
  }

  /** The loop appends, for every answer it took, that turn's messages and nothing else. */
  lemma {:induction false} DriveSays(r: Ran, i: nat, maxSteps: nat, reg: Registry, script: Script)
    requires i <= maxSteps
    ensures var d := Drive(r, i, maxSteps, reg, script);
            && |r.used| <= |d.used| && r.history <= d.history
            && TurnsSay(reg, script, i, i + |d.used| - |r.used|, d.history[|r.history|..])
    decreases maxSteps - i
  {
    hide Reaction, TurnSays, TurnsSay;
    var d := Drive(r, i, maxSteps, reg, script);
    if i < maxSteps && script(i).Answer? {
      var resp, tools := script(i).resp, script(i).tools;
      var reaction := Reaction(reg, resp, tools);
      var turn := [resp.message] + if reaction.Some? then [reaction.value] else [];
      var end := i + |d.used| - |r.used|;
      ReactionSays(reg, resp, tools);
      assert r.history + [resp.message] + (if reaction.Some? then [reaction.value] else []) == r.history + turn;
      if reaction.Some? {
        var next := Ran(r.history + [resp.message] + [reaction.value], Some(resp.message), r.used + [resp.usage], r.exit);
        assert d == Drive(next, i + 1, maxSteps, reg, script);
        hide Drive;
        DriveSays(next, i + 1, maxSteps, reg, script);
      } else {
        assert d.history == r.history + turn && d.used == r.used + [resp.usage];
        hide Drive;
        NoTurns(reg, script, i + 1);
      }
      GrowSays(reg, script, i, end, r.history, turn, d.history);
    } else {
      NoTurns(reg, script, i);
      assert d.history[|r.history|..] == [];
    }
  }

  lemma NoTurns(reg: Registry, script: Script, i: nat)
    ensures TurnsSay(reg, script, i, i, [])
  {
  }

  /** A whole run: the history before, the input and the turns it took, cut down to the window
      if there is one; a context that is done changes nothing. */
  lemma RunSays(h: seq<Message>, input: Message, dead: bool, cfg: Config, script: Script) returns (turns: seq<Message>)
    ensures var ran := RunOn(h, input, dead, cfg, script);
            if dead then ran.history == h && ran.used == [] && ran.exit == Cancelled
            else
              && TurnsSay(cfg.reg, script, 0, |ran.used|, turns)
              && |ran.used| <= (if cfg.maxSteps > 0 then cfg.maxSteps else 8)
              && (ran.exit == OutOfSteps ==> |ran.used| == if cfg.maxSteps > 0 then cfg.maxSteps else 8)
              && ran.history == (if cfg.keepLast > 0 then Trimmed(h + [input] + turns, cfg.keepLast) else h + [input] + turns)
  {
    turns := [];
    if !dead {
      hide Drive, TurnsSay, Trimmed;
      var r := Ran(h + [input], None, [], Done);
      DriveSays(r, 0, Steps(cfg), cfg.reg, script);
      DriveBound(r, 0, Steps(cfg), cfg.reg, script);
      var d := Drive(r, 0, Steps(cfg), cfg.reg, script);
      turns := d.history[|h| + 1..];
      assert d.history == h + [input] + turns;
    }
  }

  lemma {:induction false} DriveBound(r: Ran, i: nat, maxSteps: nat, reg: Registry, script: Script)
    requires i <= maxSteps
    ensures var d := Drive(r, i, maxSteps, reg, script);
            |d.used| <= |r.used| + maxSteps - i && (d.exit == OutOfSteps ==> |d.used| == |r.used| + maxSteps - i)
    decreases maxSteps - i
  {
    hide Reaction;
    if i < maxSteps && script(i).Answer? {
      var resp := script(i).resp;
      var reaction := Reaction(reg, resp, script(i).tools);
      if reaction.Some? {
        DriveBound(Ran(r.history + [resp.message] + [reaction.value], Some(resp.message), r.used + [resp.usage], r.exit),
                   i + 1, maxSteps, reg, script);
      }
    }
  }

  // ---- the window -------------------------------------------------------------------------

  /** Trimming to the last k > 0 messages keeps from the last user message at or before where
      they start, or from the first user message after if there is none before; so the last k
      messages survive whenever a user message is not after them all. */
  lemma TrimKeeps(h: seq<Message>, k: int, c: nat)
    requires k > 0 && c <= |h| && Trimmed(h, k) == h[c..]
    ensures var start := if |h| > k then |h| - k else 0;
            && (h != [] && (exists j :: 0 <= j <= start && h[j].role == User) ==>
                  c <= start && h[c].role == User && forall j :: c < j <= start ==> h[j].role != User)
            && ((forall j :: 0 <= j <= start && j < |h| ==> h[j].role != User) ==>
                  (forall j :: 0 <= j < c ==> h[j].role != User) && (c < |h| ==> h[c].role == User))
  {
    var cut := CutAt(h, k);
    assert |h[c..]| == |h[cut..]|;
    if c < |h| {
      assert FromUser(h, c);
    }
    forall j | c < j <= WindowStart(h, k) && j < |h|
      ensures h[j].role != User
    {
      assert !FromUser(h, j);
    }
    if c > WindowStart(h, k) {
      forall j | 0 <= j < c
        ensures h[j].role != User
      {
        assert !FromUser(h, j);
      }
    }
  }

  // ---- usage ------------------------------------------------------------------------------

  function Sum(us: seq<Usage>, part: Usage -> nat): nat {
    if us == [] then 0 else Sum(us[..|us| - 1], part) + part(us[|us| - 1])
  }

  /** Every part of the total is the sum of that part. */
  lemma {:induction false} TotalIsSums(us: seq<Usage>)
    ensures Total(us).input == Sum(us, (u: Usage) => u.input)
    ensures Total(us).output == Sum(us, (u: Usage) => u.output)
    ensures Total(us).thinking == Sum(us, (u: Usage) => u.thinking)
    ensures Total(us).cacheRead == Sum(us, (u: Usage) => u.cacheRead)
    ensures Total(us).cacheWrite == Sum(us, (u: Usage) => u.cacheWrite)
    decreases |us|
  {
    if us != [] {
      TotalIsSums(us[..|us| - 1]);
    }
  }
}
