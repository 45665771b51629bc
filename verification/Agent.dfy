/** agent.go: the reason-act-observe loop over a session. */
module Agent {
  import opened Prelude
  import opened Session

  // ---- what the outside world answers -----------------------------------------------------

  datatype StopReason = EndTurn | ToolCalls | MaxTokens | OtherStop(name: Bytes)

  datatype Usage = Usage(input: nat, output: nat, thinking: nat, cacheRead: nat, cacheWrite: nat)

  const NO_USAGE := Usage(0, 0, 0, 0, 0)

  function Add(u: Usage, o: Usage): Usage {
    Usage(u.input + o.input, u.output + o.output, u.thinking + o.thinking,
          u.cacheRead + o.cacheRead, u.cacheWrite + o.cacheWrite)
  }

  function Total(us: seq<Usage>): Usage {
    if us == [] then NO_USAGE else Add(Total(us[..|us| - 1]), us[|us| - 1])
  }

  datatype Response = Response(message: Message, stop: StopReason, usage: Usage)

  datatype ToolOutcome = Returns(out: Bytes) | Errs(err: Bytes) | Panics(what: Bytes)

  /** One pass of the loop as seen from outside: the context is done, the provider fails, or it
      answers and `tools` tells what each call of the answer would come to if executed. */
  datatype Turn = ContextDone | ProviderError | Answer(resp: Response, tools: nat -> ToolOutcome)

  type Script = nat -> Turn

  /** The registered tool names; None is an agent without a registry. */
  type Registry = Option<set<Bytes>>

  predicate ExecutableStop(r: StopReason) {
    r == ToolCalls || r == EndTurn
  }

  function Below(n: nat): (r: set<nat>)
    ensures forall i :: i in r <==> 0 <= i < n
  {
    if n == 0 then {} else Below(n - 1) + {n - 1}
  }

  function ReasonText(r: StopReason): Bytes {
    match r
    case EndTurn => "end_turn"
    case ToolCalls => "tool_use"
    case MaxTokens => "max_tokens"
    case OtherStop(name) => name
  }

  // ---- one turn's messages ----------------------------------------------------------------

  /** execTool: every path answers the call's own id under the call's own name. */
  function ExecTool(reg: Registry, u: ToolUse, o: ToolOutcome): Content {
    if reg.None? then Result(u.id, u.name, NoTools, true)
    else if u.name !in reg.value then Result(u.id, u.name, UnknownTool, true)
    else
      match o
      case Returns(out) => Result(u.id, u.name, Output(out), false)
      case Errs(err) => Result(u.id, u.name, Failed(err), true)
      case Panics(what) => Result(u.id, u.name, Panicked(what), true)
  }

  function Executed(reg: Registry, uses: seq<ToolUse>, tools: nat -> ToolOutcome): seq<Content> {
    seq(|uses|, i requires 0 <= i < |uses| => ExecTool(reg, uses[i], tools(i)))
  }

  function Refused(uses: seq<ToolUse>, stop: StopReason): seq<Content> {
    seq(|uses|, i requires 0 <= i < |uses| => Result(uses[i].id, uses[i].name, NotExecuted(ReasonText(stop)), true))
  }

  /** The message that follows an answer: executed results, refused results, or none. */
  function Reaction(reg: Registry, resp: Response, tools: nat -> ToolOutcome): Option<Message> {
    var uses := ToolUses(resp.message);
    if uses == [] then None
    else if ExecutableStop(resp.stop) then Some(Message(Tool, Executed(reg, uses, tools)))
    else Some(Message(Tool, Refused(uses, resp.stop)))
  }

  // ---- the loop ---------------------------------------------------------------------------

  datatype Exit = Done | Cancelled | Errored | OutOfSteps

  datatype Ran = Ran(history: seq<Message>, last: Option<Message>, used: seq<Usage>, exit: Exit)

  /** drive from step i on, without the deferred trim. */
  function Drive(r: Ran, i: nat, maxSteps: nat, reg: Registry, script: Script): Ran
    decreases maxSteps - i
  {
    if i >= maxSteps then r.(exit := OutOfSteps)
    else
      match script(i)
      case ContextDone => r.(exit := Cancelled)
      case ProviderError => r.(exit := Errored)
      case Answer(resp, tools) =>
        var answered := Ran(r.history + [resp.message], Some(resp.message), r.used + [resp.usage], r.exit);
        match Reaction(reg, resp, tools)
        case None => answered.(exit := Done)
        case Some(m) => Drive(answered.(history := answered.history + [m]), i + 1, maxSteps, reg, script)
  }

  datatype Config = Config(maxSteps: int, keepLast: int, reg: Registry)

  /** maxSteps(): zero or negative means eight. */
  function Steps(cfg: Config): nat {
    if cfg.maxSteps > 0 then cfg.maxSteps else 8
  }

  /** One RunMessage or StreamMessage on a session: nothing at all when the context is already
      done, otherwise the loop and, with KeepLast set, the trim on every exit. */
  function RunOn(h: seq<Message>, input: Message, dead: bool, cfg: Config, script: Script): Ran {
    if dead then Ran(h, None, [], Cancelled)
    else
      var r := Drive(Ran(h + [input], None, [], Done), 0, Steps(cfg), cfg.reg, script);
      if cfg.keepLast > 0 then r.(history := Trimmed(r.history, cfg.keepLast)) else r
  }

  // ---- the agent object -------------------------------------------------------------------

  class Agent {
    const session: Session
    const cfg: Config
    const parallel: bool
    var totalUsage: Usage
    var sessionUsage: Usage
    var stepUsage: seq<Usage>

    constructor (session: Session, cfg: Config, parallel: bool)
      ensures this.session == session && this.cfg == cfg && this.parallel == parallel
      ensures totalUsage == NO_USAGE && sessionUsage == NO_USAGE && stepUsage == []
    {
      this.session, this.cfg, this.parallel := session, cfg, parallel;
      totalUsage, sessionUsage, stepUsage := NO_USAGE, NO_USAGE, [];
    }

    /** The tool message of an executable answer; with ParallelTools the calls finish in any
        order, each writing its own slot. */
    method Observe(resp: Response, tools: nat -> ToolOutcome) returns (m: Option<Message>)
      ensures m == if ExecutableStop(resp.stop) then Reaction(cfg.reg, resp, tools) else None
      ensures m.Some? <==> ToolUses(resp.message) != [] && (resp.stop == ToolCalls || resp.stop == EndTurn)
    {
      hide ExecTool, UsesIn, Executed;
      var uses := ToolUses(resp.message);
      if |uses| == 0 || !ExecutableStop(resp.stop) {
        return None;
      }
      var results := new Content[|uses|](i => Text(""));
      if parallel && |uses| > 1 {
        var running := Below(|uses|);
        while running != {}
          invariant running <= Below(|uses|)
          invariant forall i :: 0 <= i < |uses| && i !in running ==> results[i] == ExecTool(cfg.reg, uses[i], tools(i))
          decreases |running|
        {
          var i :| i in running;
          results[i] := ExecTool(cfg.reg, uses[i], tools(i));
          running := running - {i};
        }
      } else {
        for i := 0 to |uses|
          invariant forall j :: 0 <= j < i ==> results[j] == ExecTool(cfg.reg, uses[j], tools(j))
        {
          results[i] := ExecTool(cfg.reg, uses[i], tools(i));
        }
      }
      AllExecuted(cfg.reg, uses, tools, results[..]);
      m := Some(Message(Tool, results[..]));
    }

    method AnswerTruncatedTools(resp: Response) returns (m: Option<Message>)
      ensures forall tools :: m == if ExecutableStop(resp.stop) then None else Reaction(cfg.reg, resp, tools)
      ensures m.Some? <==> ToolUses(resp.message) != [] && resp.stop != ToolCalls && resp.stop != EndTurn
    {
      if ExecutableStop(resp.stop) {
        return None;
      }
      var uses := ToolUses(resp.message);
      if |uses| == 0 {
        return None;
      }
      var results := new Content[|uses|](i => Text(""));
      for i := 0 to |uses|
        invariant forall j :: 0 <= j < i ==>
          results[j] == Result(uses[j].id, uses[j].name, NotExecuted(ReasonText(resp.stop)), true)
      {
        results[i] := Result(uses[i].id, uses[i].name, NotExecuted(ReasonText(resp.stop)), true);
      }
      assert results[..] == Refused(uses, resp.stop);
      m := Some(Message(Tool, results[..]));
    }

    method DriveLoop(script: Script) returns (last: Option<Message>, exit: Exit)
      requires totalUsage == NO_USAGE && stepUsage == []
      modifies this, session
      ensures Ran(session.history, last, stepUsage, exit)
           == Drive(Ran(old(session.history), None, [], Done), 0, Steps(cfg), cfg.reg, script)
      ensures totalUsage == Total(stepUsage) && sessionUsage == Add(old(sessionUsage), totalUsage)
    {
      hide Reaction, Total, Add;
      last := None;
      TotalOfNone();
      var i := 0;
      while i < Steps(cfg)
        invariant i <= Steps(cfg)
        invariant Drive(Ran(session.history, last, stepUsage, Done), i, Steps(cfg), cfg.reg, script)
               == Drive(Ran(old(session.history), None, [], Done), 0, Steps(cfg), cfg.reg, script)
        invariant totalUsage == Total(stepUsage) && sessionUsage == Add(old(sessionUsage), totalUsage)
      {
        match script(i)
        case ContextDone =>
          return last, Cancelled;
        case ProviderError =>
          return last, Errored;
        case Answer(resp, tools) =>
          TotalSnoc(stepUsage, resp.usage);
          AddAssociates(old(sessionUsage), totalUsage, resp.usage);
          totalUsage := Add(totalUsage, resp.usage);
          sessionUsage := Add(sessionUsage, resp.usage);
          stepUsage := stepUsage + [resp.usage];
          session.Append([resp.message]);
          last := Some(resp.message);
          var toolMsg := Observe(resp, tools);
          if toolMsg.None? {
            var recovered := AnswerTruncatedTools(resp);
            if recovered.None? {
              return last, Done;
            }
            session.Append([recovered.value]);
          } else {
            session.Append([toolMsg.value]);
          }
          i := i + 1;
      }
      exit := OutOfSteps;
    }

    method RunMessage(input: Message, dead: bool, script: Script) returns (last: Option<Message>, exit: Exit)
      modifies this, session
      ensures var ran := RunOn(old(session.history), input, dead, cfg, script);
              && session.history == ran.history && last == ran.last && exit == ran.exit
              && (!dead ==> stepUsage == ran.used && totalUsage == Total(ran.used))
      ensures sessionUsage == Add(old(sessionUsage), if dead then NO_USAGE else totalUsage)
    {
      if dead {
        return None, Cancelled;
      }
      totalUsage, stepUsage := NO_USAGE, [];
      session.Append([input]);
      last, exit := DriveLoop(script);
      if cfg.keepLast > 0 {
        session.Trim(cfg.keepLast);
      }
    }
  }

  lemma AllExecuted(reg: Registry, uses: seq<ToolUse>, tools: nat -> ToolOutcome, results: seq<Content>)
    requires |results| == |uses| && forall i :: 0 <= i < |uses| ==> results[i] == ExecTool(reg, uses[i], tools(i))
    ensures results == Executed(reg, uses, tools)
  {
    hide ExecTool;
  }

  lemma TotalOfNone()
    ensures Total([]) == NO_USAGE && forall u :: Add(u, NO_USAGE) == u
  {
  }

  lemma AddAssociates(a: Usage, b: Usage, c: Usage)
    ensures Add(Add(a, b), c) == Add(a, Add(b, c))
  {
  }

  lemma TotalSnoc(us: seq<Usage>, u: Usage)
    ensures Total(us + [u]) == Add(Total(us), u)
  {
    assert (us + [u])[..|us|] == us;
  }
}
