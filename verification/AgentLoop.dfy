/** One agent turn as a function of what the provider answers and what the tools
    do, and the program that performs it.

    Models internal/agent/agent.go and the registry of internal/tool/tool.go.
    `Run` is the loop as a value; `Agent.RunTurn` is the loop as the program
    performs it, proved to do exactly what `Run` says. */
module AgentLoop {
  import opened Prelude
  import opened Journal
  import opened JournalWriter
  import opened Llm
  import opened Recording

  const DefaultMaxSteps := 16

  datatype ToolOutcome = Returned(content: string, isError: bool) | Broke(message: string)

  /** A tool is a deterministic transformer of the world it can see. */
  datatype Tool<!W> = Tool(name: string, description: string, schema: string,
                           run: (W, string) -> (W, ToolOutcome))

  datatype Registry<!W> = Registry(byName: map<string, Tool<W>>, order: seq<string>) {
    ghost predicate Valid() {
      && (forall i, j | 0 <= i < j < |order| :: order[i] != order[j])
      && (forall n :: n in order <==> n in byName)
      && (forall n | n in byName :: byName[n].name == n && n != "")
    }

    function Names(): seq<string> {
      order
    }

    function Defs(): seq<ToolDef>
      requires Valid()
    {
      seq(|order|, i requires 0 <= i < |order| =>
        assert order[i] in byName;
        var t := byName[order[i]];
        ToolDef(t.name, t.description, t.schema))
    }
  }

  /** How many steps a turn may take; a turn always gets at least one. */
  function StepsAllowed(maxSteps: int): (m: nat)
    ensures m == if maxSteps > 0 then maxSteps else 16
  {
    if maxSteps <= 0 then DefaultMaxSteps else maxSteps
  }

  datatype Config<!W> = Config(model: string, system: string, maxSteps: int, maxTokens: int,
                               env: map<string, string>, registry: Registry<W>) {
    function Steps(): nat {
      StepsAllowed(maxSteps)
    }
  }

  datatype Outcome = Outcome(text: string, steps: int, toolCalls: int, usage: Usage)

  const NoOutcome := Outcome("", 0, 0, NoUsage)

  /** What a run, or the rest of one, journals and leaves behind. */
  datatype Ran<W> = Ran(log: seq<Payload>, out: Outcome, source: Source, world: W, error: Option<Failure>) {
    function After(earlier: seq<Payload>): Ran<W> {
      this.(log := earlier + log)
    }
  }

  /** What one round of tool calls journals and appends to the conversation. */
  datatype CallsRan<W> = CallsRan(log: seq<Payload>, messages: seq<Message>, world: W, error: Option<Failure>)

  /** One tool call: its payloads, the message fed back, and the world after it. */
  function RunCall<W>(c: Codec, reg: Registry<W>, call: ToolCall, world: W): CallsRan<W> {
    if call.name !in reg.byName then
      Reported(call, c.missingTool(call.name, reg.Names()), true, world)
    else
      var (next, outcome) := reg.byName[call.name].run(world, call.args);
      match outcome
      case Broke(msg) => CallsRan([ToolCalled(call)], [], next, Some(ToolFailed(call.name, msg)))
      case Returned(content, isError) => Reported(call, content, isError, next)
  }

  function Reported<W>(call: ToolCall, content: string, isError: bool, world: W): CallsRan<W> {
    CallsRan([ToolCalled(call), ToolReturned(call.id, call.name, content, isError)],
             [Message(ToolResult, content, [], call.id, isError)], world, None)
  }

  function RunCalls<W>(c: Codec, reg: Registry<W>, calls: seq<ToolCall>, world: W): CallsRan<W>
    decreases |calls|
  {
    if calls == [] then CallsRan([], [], world, None)
    else
      var first := RunCall(c, reg, calls[0], world);
      if first.error.Some? then first
      else
        var rest := RunCalls(c, reg, calls[1..], first.world);
        CallsRan(first.log + rest.log, first.messages + rest.messages, rest.world, rest.error)
  }

  function Finish<W>(out: Outcome, src: Source, world: W): Ran<W> {
    Ran([TurnEnd("end", out.steps, out.toolCalls, out.usage)], out, src, world, None)
  }

  function Fail<W>(out: Outcome, src: Source, world: W, stage: string, f: Failure): Ran<W> {
    Ran([LoopError(stage, f), TurnEnd("error", out.steps, out.toolCalls, out.usage)], out, src, world, Some(f))
  }

  function AssistantSaid(resp: Response): Message {
    Message(Assistant, resp.text, resp.toolCalls, "", false)
  }

  function RequestOf<W>(cfg: Config<W>, messages: seq<Message>): Request
    requires cfg.registry.Valid()
  {
    Request(cfg.model, cfg.system, messages, cfg.registry.Defs(), cfg.maxTokens)
  }

  /** The loop from the given step on. */
  function Loop<W>(c: Codec, cfg: Config<W>, messages: seq<Message>, out: Outcome,
                   src: Source, world: W, step: nat): Ran<W>
    requires cfg.registry.Valid()
    decreases cfg.Steps() + 1 - step
  {
    if step > cfg.Steps() then Fail(out, src, world, "loop", StepLimit(cfg.Steps()))
    else
      var done := Completed(c, src, RequestOf(cfg, messages));
      Proceed(c, cfg, messages, out.(steps := step), done, world, step).After(done.log)
  }

  /** The rest of a step, once the model has answered or failed to. */
  function Proceed<W>(c: Codec, cfg: Config<W>, messages: seq<Message>, out: Outcome,
                      done: Completion, world: W, step: nat): Ran<W>
    requires cfg.registry.Valid() && step <= cfg.Steps()
    decreases cfg.Steps() + 1 - step, 0
  {
    match done.result
    case Err(f) => Fail(out, done.source, world, "model", f)
    case Ok(resp) =>
      match Validate(resp)
      case Some(f) => Fail(out, done.source, world, "model", f)
      case None =>
        var out' := out.(usage := out.usage.Plus(resp.usage));
        if resp.toolCalls == [] then Finish(out'.(text := resp.text), done.source, world)
        else
          var ran := RunCalls(c, cfg.registry, resp.toolCalls, world);
          var out'' := out'.(toolCalls := out'.toolCalls + |ran.messages|);
          if ran.error.Some? then Fail(out'', done.source, ran.world, "tool", ran.error.value).After(ran.log)
          else
            Loop(c, cfg, messages + [AssistantSaid(resp)] + ran.messages, out'',
                 done.source, ran.world, step + 1).After(ran.log)
  }

  function StartOf<W>(cfg: Config<W>, prompt: string): Payload {
    TurnStart(prompt, cfg.model, cfg.system, cfg.registry.Names(), cfg.env)
  }

  function UserSaid(prompt: string): Message {
    Message(User, prompt, [], "", false)
  }

  /** One whole turn. */
  function Run<W>(c: Codec, cfg: Config<W>, prompt: string, src: Source, world: W): Ran<W>
    requires cfg.registry.Valid()
  {
    if cfg.model == "" then Ran([], NoOutcome, src, world, Some(NoModel))
    else Loop(c, cfg, [UserSaid(prompt)], NoOutcome, src, world, 1).After([StartOf(cfg, prompt)])
  }

  // ---------------------------------------------------------------- the program

  lemma Regroup<T>(before: seq<T>, whole: seq<T>, done: seq<T>, now: seq<T>, rest: seq<T>)
    requires before + whole == done + (now + rest)
    ensures before + whole == (done + now) + rest
  {
  }

  /** The mutable surroundings tools act on. */
  class World<W> {
    var state: W

    constructor (state: W)
      ensures this.state == state
    {
      this.state := state;
    }
  }

  class Agent<W> {
    const codec: Codec
    const provider: Provider
    const cfg: Config<W>
    const world: World<W>
    const j: Writer
    const cursor: object
    /** The journal as this agent found it, and what the agent has added. */
    ghost const base: WriterState
    ghost var log: seq<Payload>

    constructor (codec: Codec, provider: Provider, cfg: Config<W>, world: World<W>)
      requires provider.j.Valid() && !provider.j.closed && cfg.registry.Valid()
      requires provider.Cursor() != provider.j && provider.Cursor() != provider.j.store
      requires world as object != provider.Cursor()
      requires world as object != provider.j && world as object != provider.j.store
      ensures this.codec == codec && this.provider == provider && this.cfg == cfg && this.world == world
      ensures Ready() && log == [] && base == provider.j.State()
    {
      this.codec, this.provider, this.cfg, this.world := codec, provider, cfg, world;
      j, cursor := provider.j, provider.Cursor();
      base, log := provider.j.State(), [];
      new;
      HoldsNothing(codec, j.Head(), base);
    }

    /** The journal holds exactly what it held at the start plus `log`. */
    ghost predicate Ready()
      reads this, j, j.store
    {
      && cfg.registry.Valid()
      && j == provider.j && cursor == provider.Cursor()
      && j.Valid() && !j.closed
      && cursor != j && cursor != j.store && cursor != this
      && world as object != j && world as object != j.store && world as object != cursor
      && world as object != this
      && Holds(codec, j.Head(), base, log, j.State())
    }

    method Append(p: Payload)
      requires Ready()
      modifies this, j, j.store
      ensures Ready() && log == old(log) + [p] && j.disk == old(j.disk)
    {
      HoldsMore(codec, j.Head(), base, log, [p], j.State());
      Note(codec, j, p);
      log := log + [p];
    }

    method Ask(messages: seq<Message>) returns (answer: Result<Response, Failure>)
      requires Ready()
      modifies this, j, j.store, cursor
      ensures Ready() && j.disk == old(j.disk)
      ensures var done := Completed(codec, old(provider.Current()), RequestOf(cfg, messages));
              log == old(log) + done.log && provider.Current() == done.source && answer == done.result
    {
      var req := RequestOf(cfg, messages);
      ghost var done := Completed(codec, provider.Current(), req);
      HoldsMore(codec, j.Head(), base, log, done.log, j.State());
      answer := Complete(codec, provider, req);
      log := log + done.log;
    }

    /** Logs, does to the world and reports what RunCall says of one call. */
    method RunTool(call: ToolCall) returns (message: Option<Message>, error: Option<Failure>)
      requires Ready()
      modifies this, j, j.store, world
      ensures Ready() && j.disk == old(j.disk)
      ensures provider.Current() == old(provider.Current())
      ensures var ran := RunCall(codec, cfg.registry, call, old(world.state));
              && log == old(log) + ran.log
              && world.state == ran.world
              && error == ran.error
              && ran.messages == (if message.Some? then [message.value] else [])
              && (message.None? <==> error.Some?)
    {
      Append(ToolCalled(call));
      var content, isError;
      if call.name !in cfg.registry.byName {
        content, isError := codec.missingTool(call.name, cfg.registry.Names()), true;
      } else {
        var (next, outcome) := cfg.registry.byName[call.name].run(world.state, call.args);
        world.state := next;
        match outcome {
          case Broke(msg) =>
            return None, Some(ToolFailed(call.name, msg));
          case Returned(text, failed) =>
            content, isError := text, failed;
        }
      }
      Append(ToolReturned(call.id, call.name, content, isError));
      return Some(Message(ToolResult, content, [], call.id, isError)), None;
    }

    method Close(out: Outcome, reason: string)
      requires Ready()
      modifies this, j, j.store
      ensures Ready() && j.disk == old(j.disk)
      ensures log == old(log) + [TurnEnd(reason, out.steps, out.toolCalls, out.usage)]
    {
      Append(TurnEnd(reason, out.steps, out.toolCalls, out.usage));
    }

    method FailWith(out: Outcome, stage: string, cause: Failure)
      requires Ready()
      modifies this, j, j.store
      ensures Ready() && j.disk == old(j.disk)
      ensures log == old(log) + [LoopError(stage, cause), TurnEnd("error", out.steps, out.toolCalls, out.usage)]
    {
      Append(LoopError(stage, cause));
      Close(out, "error");
    }

    /** Runs a response's calls in order, as the inner loop of Run does. */
    method RunTools(calls: seq<ToolCall>) returns (messages: seq<Message>, error: Option<Failure>)
      requires Ready()
      modifies this, j, j.store, world
      ensures Ready() && j.disk == old(j.disk)
      ensures provider.Current() == old(provider.Current())
      ensures var ran := RunCalls(codec, cfg.registry, calls, old(world.state));
              && log == old(log) + ran.log
              && world.state == ran.world
              && error == ran.error
              && messages == ran.messages
    {
      ghost var log0 := log;
      ghost var whole := RunCalls(codec, cfg.registry, calls, world.state);
      messages := [];
      assert calls[0..] == calls;
      for i := 0 to |calls|
        invariant Ready() && j.disk == old(j.disk)
        invariant provider.Current() == old(provider.Current())
        invariant var rest := RunCalls(codec, cfg.registry, calls[i..], world.state);
                  && log0 + whole.log == log + rest.log
                  && [] + whole.messages == messages + rest.messages
                  && whole.world == rest.world && whole.error == rest.error
      {
        ghost var logI, messagesI := log, messages;
        ghost var first := RunCall(codec, cfg.registry, calls[i], world.state);
        ghost var rest := RunCalls(codec, cfg.registry, calls[i + 1..], first.world);
        assert calls[i..][0] == calls[i] && calls[i..][1..] == calls[i + 1..];
        var message, err := RunTool(calls[i]);
        if err.Some? {
          assert [] + whole.messages == whole.messages;
          return messages, err;
        }
        messages := messages + [message.value];
        Regroup(log0, whole.log, logI, first.log, rest.log);
        Regroup([], whole.messages, messagesI, first.messages, rest.messages);
      }
      assert [] + whole.messages == whole.messages;
      return messages, None;
    }

    /** One iteration of the outer loop. The turn is over when `verdict` says so. */
    method TakeStep(messages: seq<Message>, out0: Outcome, step: nat)
      returns (messages': seq<Message>, out: Outcome, verdict: Option<Option<Failure>>)
      requires Ready() && 1 <= step <= cfg.Steps()
      modifies this, j, j.store, world, cursor
      ensures Ready() && j.disk == old(j.disk)
      ensures var whole := Loop(codec, cfg, messages, out0, old(provider.Current()), old(world.state), step);
              match verdict
              case None =>
                Reaches(old(log), whole, Loop(codec, cfg, messages', out, provider.Current(), world.state, step + 1))
              case Some(error) =>
                Reaches(old(log), whole, Ran([], out, provider.Current(), world.state, error))
    {
      ghost var log0 := log;
      ghost var whole := Loop(codec, cfg, messages, out0, provider.Current(), world.state, step);
      ghost var done := Completed(codec, provider.Current(), RequestOf(cfg, messages));
      messages', out := messages, out0.(steps := step);
      ghost var rest := Proceed(codec, cfg, messages, out, done, world.state, step);
      var answer := Ask(messages);
      Regroup(log0, whole.log, log0, done.log, rest.log);
      assert Reaches(log0, whole, rest);
      var bad := if answer.Err? then Some(answer.error) else Validate(answer.value);
      if bad.Some? {
        FailWith(out, "model", bad.value);
        return messages', out, Some(bad);
      }
      out, messages', verdict := Act(messages, out, answer.value, step, done);
    }

    /** The part of a step that follows a usable answer. */
    method Act(messages: seq<Message>, out0: Outcome, resp: Response, step: nat, ghost done: Completion)
      returns (out: Outcome, messages': seq<Message>, verdict: Option<Option<Failure>>)
      requires Ready() && 1 <= step <= cfg.Steps()
      requires done.result == Ok(resp) && Validate(resp).None? && done.source == provider.Current()
      modifies this, j, j.store, world
      ensures Ready() && j.disk == old(j.disk) && provider.Current() == old(provider.Current())
      ensures var whole := Proceed(codec, cfg, messages, out0, done, old(world.state), step);
              match verdict
              case None =>
                Reaches(old(log), whole, Loop(codec, cfg, messages', out, provider.Current(), world.state, step + 1))
              case Some(error) =>
                Reaches(old(log), whole, Ran([], out, provider.Current(), world.state, error))
    {
      ghost var log0 := log;
      messages' := messages;
      out := out0.(usage := out0.usage.Plus(resp.usage));
      if resp.toolCalls == [] {
        out := out.(text := resp.text);
        Close(out, "end");
        return out, messages', Some(None);
      }
      ghost var ran := RunCalls(codec, cfg.registry, resp.toolCalls, world.state);
      var results, err := RunTools(resp.toolCalls);
      out := out.(toolCalls := out.toolCalls + |results|);
      if err.Some? {
        ghost var tail := Fail(out, done.source, ran.world, "tool", err.value);
        Regroup(log0, ran.log + tail.log, log0, ran.log, tail.log);
        FailWith(out, "tool", err.value);
        return out, messages', Some(err);
      }
      messages' := messages + [AssistantSaid(resp)] + results;
      ghost var tail := Loop(codec, cfg, messages', out, done.source, ran.world, step + 1);
      Regroup(log0, ran.log + tail.log, log0, ran.log, tail.log);
      return out, messages', None;
    }

    /** Runs one turn for a prompt. */
    method RunTurn(prompt: string) returns (out: Outcome, error: Option<Failure>)
      requires Ready()
      modifies this, j, j.store, world, cursor
      ensures Ready() && j.disk == old(j.disk)
      ensures var ran := Run(codec, cfg, prompt, old(provider.Current()), old(world.state));
              && log == old(log) + ran.log
              && world.state == ran.world
              && provider.Current() == ran.source
              && out == ran.out && error == ran.error
    {
      out := NoOutcome;
      if cfg.model == "" {
        return out, Some(NoModel);
      }
      ghost var log0 := log;
      ghost var whole := Run(codec, cfg, prompt, provider.Current(), world.state);
      Append(StartOf(cfg, prompt));
      var messages := [UserSaid(prompt)];
      var step := 1;
      while step <= cfg.Steps()
        invariant 1 <= step <= cfg.Steps() + 1
        invariant Ready() && j.disk == old(j.disk)
        invariant Reaches(log0, whole, Loop(codec, cfg, messages, out, provider.Current(), world.state, step))
        decreases cfg.Steps() + 1 - step
      {
        ghost var logI := log;
        ghost var from := Loop(codec, cfg, messages, out, provider.Current(), world.state, step);
        var verdict;
        messages, out, verdict := TakeStep(messages, out, step);
        assert log0 + whole.log == logI + from.log;
        if verdict.Some? {
          return out, verdict.value;
        }
        step := step + 1;
      }
      var cause := StepLimit(cfg.Steps());
      FailWith(out, "loop", cause);
      return out, Some(cause);
    }

    /** Only `rest` of the `whole` run is still to be performed. */
    ghost predicate Reaches(log0: seq<Payload>, whole: Ran<W>, rest: Ran<W>)
      reads this
    {
      && log0 + whole.log == log + rest.log
      && whole.out == rest.out && whole.source == rest.source
      && whole.world == rest.world && whole.error == rest.error
    }
  }
}
