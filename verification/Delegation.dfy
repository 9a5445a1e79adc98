/** Delegated sub-turns: the same loop, entered again from inside one of its own
    tools, under a depth budget that travels with the call.

    Models cmd/nemuz/delegate.go and the part of cmd/nemuz/turn.go that links one
    turn to the next. */
module Delegation {
  import opened Prelude
  import opened Llm
  import opened Recording
  import opened AgentLoop
  import opened Replay
  import Requests

  const ToolName := "delegate"
  const Exhausted :=
    "delegate: maximum delegation depth reached; finish this task directly instead of delegating further"

  /** What a whole tree of turns has done so far. `inner` is the world the ordinary
      tools act on, and `turns` also names the next turn. `level` counts the turns
      the current one is nested in, whatever budget they pass on, and `deepest` is the
      highest level at which a turn was ever started. */
  datatype Session<W> = Session(inner: W, turns: nat, modelCalls: nat, level: nat, deepest: nat)

  /** What stays the same across a process: the toolset, the prompts, and what the
      shared provider will answer to each turn, whichever turns there turn out to be. */
  datatype Env<!W> = Env(
    depth: nat,
    model: string,
    maxSteps: int,
    base: Registry<W>,
    provider: string,
    streams: nat -> nat -> Reply,
    turnIDs: nat -> string,
    systemPrompt: (W, bool, string) -> string,
    taskIn: string -> Option<string>,
    env: map<string, string>)
  {
    ghost predicate Valid() {
      base.Valid() && ToolName !in base.byName && depth > 0
    }
  }

  function Lift<W>(t: Tool<W>): Tool<Session<W>> {
    Tool(t.name, t.description, t.schema, (s: Session<W>, args) =>
      var (next, outcome) := t.run(s.inner, args);
      (s.(inner := next), outcome))
  }

  /** The toolset as a turn with d levels left sees it. */
  function ToolsAt<W>(c: Codec, e: Env<W>, d: nat): (r: Registry<Session<W>>)
    requires e.Valid()
    ensures r.Valid()
    ensures r.byName.Keys == e.base.byName.Keys + {ToolName}
    decreases d, 1
  {
    assert ToolName !in e.base.order;
    Registry((map n | n in e.base.byName :: Lift(e.base.byName[n]))[ToolName := DelegateTool(c, e, d)],
             e.base.order + [ToolName])
  }

  /** delegate: parse the task, refuse when the budget is spent, else run a turn
      with one level less and hand back only its answer. */
  function DelegateTool<W>(c: Codec, e: Env<W>, d: nat): (t: Tool<Session<W>>)
    requires e.Valid()
    ensures t.name == ToolName
    decreases d, 0, 1
  {
    Tool(ToolName, "delegate a sub-task", "task: string", (s: Session<W>, args) => Delegated(c, e, d, s, args))
  }

  function Delegated<W>(c: Codec, e: Env<W>, d: nat, s: Session<W>, args: string): (Session<W>, ToolOutcome)
    requires e.Valid()
    decreases d, 0, 0
  {
    match e.taskIn(args)
    case None => (s, Returned("delegate: invalid arguments", true))
    case Some(task) =>
      if task == "" then (s, Returned("delegate: task must not be empty", true))
      else if d == 0 then (s, Returned(Exhausted, true))
      else
        var ran := Turn(c, e, d - 1, task, s.(level := s.level + 1));
        var back := ran.world.(level := s.level);
        if ran.error.Some? then (back, Returned("delegate: sub-task failed", true))
        else (back, Returned(ran.out.text + "\n\n(sub-agent turn: " + e.turnIDs(s.turns) + ")", false))
  }

  /** One turn with d further levels to grant. A turn below the top is a sub-task. */
  function Turn<W>(c: Codec, e: Env<W>, d: nat, prompt: string, s: Session<W>): Ran<Session<W>>
    requires e.Valid()
    decreases d, 2
  {
    var ran := Run(c, TurnConfig(c, e, d, prompt, s), prompt, TurnSource(e, s), Begun(s));
    ran.(world := ran.world.(modelCalls := ran.world.modelCalls + CallsMade(ran.source)))
  }

  function TurnConfig<W>(c: Codec, e: Env<W>, d: nat, prompt: string, s: Session<W>): Config<Session<W>>
    requires e.Valid()
    decreases d, 2, 0
  {
    Config(e.model, e.systemPrompt(s.inner, s.level > 0, prompt), e.maxSteps, 0, e.env, ToolsAt(c, e, d))
  }

  function TurnSource<W>(e: Env<W>, s: Session<W>): Source {
    Live(e.provider, e.streams(s.turns), 0)
  }

  /** Starting a turn is counted, and how far down it is. */
  function Begun<W>(s: Session<W>): Session<W> {
    s.(turns := s.turns + 1, deepest := if s.level > s.deepest then s.level else s.deepest)
  }

  function CallsMade(src: Source): nat {
    if src.Live? then src.used else 0
  }

  /** What a delegation hands back: an error when there is no task or no level left. */
  lemma {:induction false} DelegationRefuses<W>(c: Codec, e: Env<W>, d: nat, s: Session<W>, args: string)
    requires e.Valid() && (e.taskIn(args).None? || e.taskIn(args) == Some("") || d == 0)
    ensures var (after, outcome) := Delegated(c, e, d, s, args);
            && after == s && outcome.Returned? && outcome.isError
            && (e.taskIn(args).None? ==> outcome.content == "delegate: invalid arguments")
            && (e.taskIn(args) == Some("") ==> outcome.content == "delegate: task must not be empty")
    ensures e.taskIn(args).Some? && e.taskIn(args) != Some("") ==>
              Delegated(c, e, d, s, args).1.content
              == "delegate: maximum delegation depth reached; finish this task directly instead of delegating further"
  {
  }

  /** And otherwise the answer of the turn it ran, one level down and with one level less
      to grant, naming that turn, or an error if that turn failed. */
  lemma {:induction false} DelegationAnswers<W>(c: Codec, e: Env<W>, d: nat, s: Session<W>, args: string)
    requires e.Valid() && e.taskIn(args).Some? && e.taskIn(args) != Some("") && d > 0
    ensures var (after, outcome) := Delegated(c, e, d, s, args);
            var ran := Turn(c, e, d - 1, e.taskIn(args).value, s.(level := s.level + 1));
            && after == ran.world.(level := s.level)
            && outcome.Returned? && (outcome.isError <==> ran.error.Some?)
            && (outcome.isError ==> outcome.content == "delegate: sub-task failed")
            && (!outcome.isError ==>
                  outcome.content == ran.out.text + "\n\n(sub-agent turn: " + e.turnIDs(s.turns) + ")")
  {
  }

  /** An ordinary tool does to the world within a session what it does to that world,
      and nothing to what the session counts. */
  lemma OrdinaryToolsActInside<W>(c: Codec, e: Env<W>, d: nat, name: string, s: Session<W>, args: string)
    requires e.Valid() && name in e.base.byName
    ensures var tool := ToolsAt(c, e, d).byName[name];
            && tool.name == e.base.byName[name].name && tool.description == e.base.byName[name].description
            && tool.schema == e.base.byName[name].schema
            && var (next, outcome) := e.base.byName[name].run(s.inner, args);
               tool.run(s, args) == (Session(next, s.turns, s.modelCalls, s.level, s.deepest), outcome)
  {
  }

  /** Every request of every turn, however deep, is made with the process's model and
      toolset, the delegate tool last, no token limit, and the system prompt for its task,
      which says so when the turn is a sub-task. */
  lemma {:induction false} EveryTurnAsksAlike<W>(c: Codec, e: Env<W>, d: nat, prompt: string, s: Session<W>)
    requires e.Valid() && e.model != ""
    ensures var log := Turn(c, e, d, prompt, s).log;
            && log != []
            && log[0] == TurnStart(prompt, e.model, e.systemPrompt(s.inner, s.level > 0, prompt),
                                   e.base.order + ["delegate"], e.env)
            && forall i | 0 <= i < |log| && log[i].ModelRequest? ::
                 && AsksAlike(e, prompt, s, log[i].request)
                 && log[i].request.messages == Requests.Transcript(c, log[..i])
  {
    var cfg := TurnConfig(c, e, d, prompt, s);
    var log := Turn(c, e, d, prompt, s).log;
    Requests.EveryRequestInFull(c, cfg, prompt, TurnSource(e, s), Begun(s));
    ToolsInOrder(c, e, d);
    forall i | 0 <= i < |log| && log[i].ModelRequest?
      ensures AsksAlike(e, prompt, s, log[i].request)
    {
      CarriesAlike(c, e, d, prompt, s, log[i].request);
    }
  }

  ghost predicate AsksAlike<W>(e: Env<W>, prompt: string, s: Session<W>, req: Request) {
    && req.model == e.model && req.maxTokens == 0
    && req.system == e.systemPrompt(s.inner, s.level != 0, prompt)
    && |req.tools| == |e.base.order| + 1 && req.tools[|e.base.order|].name == "delegate"
    && forall j | 0 <= j < |e.base.order| :: req.tools[j].name == e.base.order[j]
  }

  lemma {:induction false} ToolsInOrder<W>(c: Codec, e: Env<W>, d: nat)
    requires e.Valid()
    ensures ToolsAt(c, e, d).order == e.base.order + ["delegate"]
    ensures "delegate" in ToolsAt(c, e, d).byName && ToolsAt(c, e, d).byName["delegate"].name == "delegate"
    ensures forall n | n in e.base.byName :: n in ToolsAt(c, e, d).byName && ToolsAt(c, e, d).byName[n].name == n
  {
  }

  lemma {:induction false} CarriesAlike<W>(c: Codec, e: Env<W>, d: nat, prompt: string, s: Session<W>, req: Request)
    requires e.Valid() && Requests.Carries(TurnConfig(c, e, d, prompt, s), req)
    ensures AsksAlike(e, prompt, s, req)
  {
    var cfg := TurnConfig(c, e, d, prompt, s);
    ToolsInOrder(c, e, d);
    assert cfg.registry == ToolsAt(c, e, d);
    forall j | 0 <= j < |e.base.order|
      ensures req.tools[j].name == e.base.order[j]
    {
      assert cfg.registry.order[j] == e.base.order[j] && e.base.order[j] in e.base.order;
    }
  }

  // ---------------------------------------------------------------- bounds

  /** 1 + x + x^2 + ... + x^d, by Horner's rule. */
  function Geometric(x: nat, d: nat): nat {
    if d == 0 then 1 else 1 + x * Geometric(x, d - 1)
  }

  function Power(x: nat, i: nat): nat {
    if i == 0 then 1 else x * Power(x, i - 1)
  }

  function PowerSum(x: nat, d: nat): nat {
    if d == 0 then 1 else PowerSum(x, d - 1) + Power(x, d)
  }

  lemma {:induction false} GeometricIsPowerSum(x: nat, d: nat)
    ensures Geometric(x, d) == PowerSum(x, d)
  {
    if d > 0 {
      GeometricIsPowerSum(x, d - 1);
      PowerSumShift(x, d - 1);
    }
  }

  lemma {:induction false} PowerSumShift(x: nat, d: nat)
    ensures 1 + x * PowerSum(x, d) == PowerSum(x, d + 1)
  {
    if d > 0 {
      PowerSumShift(x, d - 1);
      assert x * (PowerSum(x, d - 1) + Power(x, d)) == x * PowerSum(x, d - 1) + x * Power(x, d);
    } else {
      assert Power(x, 1) == x * Power(x, 0);
    }
  }

  /** From s to t at most `turns` turns were started, each making at most m model
      calls, none of them more than d levels below the current one, which is the
      same again afterwards. */
  ghost predicate Within<W>(e: Env<W>, d: nat, s: Session<W>, t: Session<W>, turns: nat) {
    && s.turns <= t.turns <= s.turns + turns
    && s.modelCalls <= t.modelCalls
    && t.modelCalls - s.modelCalls <= StepsAllowed(e.maxSteps) * (t.turns - s.turns)
    && t.level == s.level
    && s.deepest <= t.deepest
    && (t.deepest <= s.deepest || t.deepest <= s.level + d)
  }

  lemma WithinTwice<W>(e: Env<W>, d: nat, s: Session<W>, t: Session<W>, u: Session<W>, a: nat, b: nat)
    requires Within(e, d, s, t, a) && Within(e, d, t, u, b)
    ensures Within(e, d, s, u, a + b)
  {
    var m := StepsAllowed(e.maxSteps);
    assert m * (t.turns - s.turns) + m * (u.turns - t.turns) == m * (u.turns - s.turns);
  }

  lemma WithinMore<W>(e: Env<W>, d: nat, s: Session<W>, t: Session<W>, a: nat, b: nat)
    requires Within(e, d, s, t, a) && a <= b
    ensures Within(e, d, s, t, b)
  {
  }

  /** No answer asks for more than k tool calls. */
  ghost predicate CallsBounded<W>(e: Env<W>, k: nat) {
    forall i: nat, j: nat :: e.streams(i)(j).Answer? ==> |e.streams(i)(j).response.toolCalls| <= k
  }

  ghost predicate ToolsWithin<W(!new)>(e: Env<W>, d: nat, reg: Registry<Session<W>>, turns: nat) {
    forall n, s: Session<W>, args: string | n in reg.byName :: Within(e, d, s, reg.byName[n].run(s, args).0, turns)
  }

  lemma {:induction false} CallsWithin<W(!new)>(c: Codec, e: Env<W>, d: nat, reg: Registry<Session<W>>,
                                                calls: seq<ToolCall>, s: Session<W>, b: nat)
    requires ToolsWithin(e, d, reg, b)
    ensures Within(e, d, s, RunCalls(c, reg, calls, s).world, |calls| * b)
    decreases |calls|
  {
    if calls != [] {
      var first := RunCall(c, reg, calls[0], s);
      assert Within(e, d, s, first.world, b);
      assert |calls| * b == b + |calls[1..]| * b;
      if first.error.None? {
        CallsWithin(c, e, d, reg, calls[1..], first.world, b);
        WithinTwice(e, d, s, first.world, RunCalls(c, reg, calls[1..], first.world).world, b, |calls[1..]| * b);
      } else {
        WithinMore(e, d, s, first.world, b, |calls| * b);
      }
    }
  }

  lemma RoundWithin<W(!new)>(c: Codec, e: Env<W>, d: nat, reg: Registry<Session<W>>, calls: seq<ToolCall>,
                             s: Session<W>, k: nat, b: nat)
    requires ToolsWithin(e, d, reg, b) && |calls| <= k
    ensures Within(e, d, s, RunCalls(c, reg, calls, s).world, k * b)
  {
    CallsWithin(c, e, d, reg, calls, s, b);
    assert |calls| * b <= k * b;
  }

  /** A step at which the turn ends. */
  lemma LastStepWithin<W(!new)>(c: Codec, e: Env<W>, d: nat, cfg: Config<Session<W>>, messages: seq<Message>,
                                out: Outcome, done: Completion, s: Session<W>, step: nat, k: nat, b: nat)
    requires cfg.registry.Valid() && step <= cfg.Steps() && ToolsWithin(e, d, cfg.registry, b)
    requires done.result.Ok? ==> Stops(c, cfg, done.result.value, s) && |done.result.value.toolCalls| <= k
    ensures var ran := Proceed(c, cfg, messages, out, done, s, step);
            Within(e, d, s, ran.world, k * b) && ran.source == done.source
  {
    if done.result.Ok? {
      RoundWithin(c, e, d, cfg.registry, done.result.value.toolCalls, s, k, b);
    }
    WithinMore(e, d, s, s, 0, k * b);
  }

  lemma OneMore(n: nat, x: nat)
    requires n > 0
    ensures n * x == x + (n - 1) * x
    ensures x <= n * x
  {
  }

  /** n steps of a turn whose tools each start at most b turns, with at most k
      calls a step, start at most n * (k * b) turns and make at most n model calls. */
  lemma {:induction false} LoopWithin<W(!new)>(c: Codec, e: Env<W>, d: nat, cfg: Config<Session<W>>,
                                               messages: seq<Message>, out: Outcome, i: nat, used: nat, s: Session<W>,
                                               step: nat, k: nat, b: nat)
    requires cfg.registry.Valid() && 1 <= step <= cfg.Steps() + 1
    requires CallsBounded(e, k) && ToolsWithin(e, d, cfg.registry, b)
    ensures var ran := Loop(c, cfg, messages, out, Live(e.provider, e.streams(i), used), s, step);
            var n := cfg.Steps() + 1 - step;
            && Within(e, d, s, ran.world, n * (k * b))
            && ran.source.Live? && used <= ran.source.used <= used + n
    decreases cfg.Steps() + 1 - step
  {
    if step <= cfg.Steps() {
      var n := cfg.Steps() + 1 - step;
      OneMore(n, k * b);
      var out' := out.(steps := step);
      var done := Completed(c, Live(e.provider, e.streams(i), used), RequestOf(cfg, messages));
      assert done.result.Ok? ==> |done.result.value.toolCalls| <= k;
      if done.result.Ok? && !Stops(c, cfg, done.result.value, s) {
        var next := NextRound(c, cfg, messages, out', done.result.value, s);
        GoesOn(c, cfg, messages, out', done, s, step);
        RoundWithin(c, e, d, cfg.registry, done.result.value.toolCalls, s, k, b);
        LoopWithin(c, e, d, cfg, next.messages, next.out, i, used + 1, next.world, step + 1, k, b);
        var rest := Loop(c, cfg, next.messages, next.out, done.source, next.world, step + 1);
        WithinTwice(e, d, s, next.world, rest.world, k * b, (n - 1) * (k * b));
      } else {
        LastStepWithin(c, e, d, cfg, messages, out', done, s, step, k, b);
        WithinMore(e, d, s, Proceed(c, cfg, messages, out', done, s, step).world, k * b, n * (k * b));
      }
    }
  }

  /** Delegation terminates and is bounded: a turn with d levels left, at most m
      steps a turn and at most k calls a response, starts at most the sum of
      (m * k)^i for i = 0..d turns in all, makes at most m model calls for each,
      and never nests deeper than the budget. */
  lemma {:induction false} TurnWithin<W(!new)>(c: Codec, e: Env<W>, d: nat, prompt: string, s: Session<W>, k: nat)
    requires e.Valid() && CallsBounded(e, k)
    ensures Within(e, d, s, Turn(c, e, d, prompt, s).world, PowerSum(StepsAllowed(e.maxSteps) * k, d))
    decreases d, 2
  {
    var b := if d == 0 then 0 else Geometric(StepsAllowed(e.maxSteps) * k, d - 1);
    var cfg, s1 := TurnConfig(c, e, d, prompt, s), Begun(s);
    ToolsWithinAt(c, e, d, k);
    RunWithin(c, e, d, cfg, prompt, s.turns, s1, k, b);
    var ran := Run(c, cfg, prompt, TurnSource(e, s), s1);
    CountTurn(e, d, s, ran.world, CallsMade(ran.source), StepsAllowed(e.maxSteps) * (k * b));
    MulAssociates(StepsAllowed(e.maxSteps), k, b);
    GeometricIsPowerSum(StepsAllowed(e.maxSteps) * k, d);
  }

  lemma RunWithin<W(!new)>(c: Codec, e: Env<W>, d: nat, cfg: Config<Session<W>>, prompt: string, i: nat,
                           s: Session<W>, k: nat, b: nat)
    requires cfg.registry.Valid() && cfg.maxSteps == e.maxSteps
    requires CallsBounded(e, k) && ToolsWithin(e, d, cfg.registry, b)
    ensures var ran := Run(c, cfg, prompt, Live(e.provider, e.streams(i), 0), s);
            && Within(e, d, s, ran.world, StepsAllowed(e.maxSteps) * (k * b))
            && CallsMade(ran.source) <= StepsAllowed(e.maxSteps)
  {
    assert cfg.Steps() == StepsAllowed(e.maxSteps);
    if cfg.model == "" {
      WithinMore(e, d, s, s, 0, StepsAllowed(e.maxSteps) * (k * b));
    } else {
      LoopWithin(c, e, d, cfg, [UserSaid(prompt)], NoOutcome, i, 0, s, 1, k, b);
    }
  }

  lemma MulAssociates(x: nat, y: nat, z: nat)
    ensures x * (y * z) == (x * y) * z
  {
  }

  lemma CountTurn<W>(e: Env<W>, d: nat, s: Session<W>, t: Session<W>, made: nat, inside: nat)
    requires Within(e, d, Begun(s), t, inside) && made <= StepsAllowed(e.maxSteps)
    ensures Within(e, d, s, t.(modelCalls := t.modelCalls + made), 1 + inside)
  {
    var m := StepsAllowed(e.maxSteps);
    assert m * (1 + (t.turns - (s.turns + 1))) == m + m * (t.turns - (s.turns + 1));
  }

  lemma {:induction false} ToolsWithinAt<W(!new)>(c: Codec, e: Env<W>, d: nat, k: nat)
    requires e.Valid() && CallsBounded(e, k)
    ensures ToolsWithin(e, d, ToolsAt(c, e, d), if d == 0 then 0 else Geometric(StepsAllowed(e.maxSteps) * k, d - 1))
    decreases d, 1, 0
  {
    var reg := ToolsAt(c, e, d);
    var b := if d == 0 then 0 else Geometric(StepsAllowed(e.maxSteps) * k, d - 1);
    forall n, s: Session<W>, args: string | n in reg.byName
      ensures Within(e, d, s, reg.byName[n].run(s, args).0, b)
    {
      if n == ToolName {
        DelegateWithin(c, e, d, s, args, k, b);
        assert reg.byName[n] == DelegateTool(c, e, d);
      } else {
        assert reg.byName[n] == Lift(e.base.byName[n]);
      }
    }
  }

  lemma {:induction false} DelegateWithin<W(!new)>(c: Codec, e: Env<W>, d: nat, s: Session<W>, args: string,
                                                   k: nat, b: nat)
    requires e.Valid() && CallsBounded(e, k)
    requires d > 0 ==> b == Geometric(StepsAllowed(e.maxSteps) * k, d - 1)
    ensures Within(e, d, s, Delegated(c, e, d, s, args).0, b)
    decreases d, 0
  {
    if d > 0 && e.taskIn(args).Some? && e.taskIn(args).value != "" {
      var below := s.(level := s.level + 1);
      var t := Turn(c, e, d - 1, e.taskIn(args).value, below).world;
      TurnWithin(c, e, d - 1, e.taskIn(args).value, below, k);
      GeometricIsPowerSum(StepsAllowed(e.maxSteps) * k, d - 1);
      assert Delegated(c, e, d, s, args).0 == t.(level := s.level);
      OneLevelUp(e, d, s, t, b);
    } else {
      assert Delegated(c, e, d, s, args).0 == s;
      WithinMore(e, d, s, s, 0, b);
    }
  }

  lemma OneLevelUp<W>(e: Env<W>, d: nat, s: Session<W>, t: Session<W>, turns: nat)
    requires d > 0 && Within(e, d - 1, s.(level := s.level + 1), t, turns)
    ensures Within(e, d, s, t.(level := s.level), turns)
  {
  }

  /** In particular, no turn of a whole tree is nested deeper than the budget the
      topmost turn was given. */
  lemma NestingWithinBudget<W(!new)>(c: Codec, e: Env<W>, prompt: string, s: Session<W>, k: nat)
    requires e.Valid() && CallsBounded(e, k) && s.level == 0 && s.deepest == 0
    ensures Turn(c, e, e.depth, prompt, s).world.deepest <= e.depth
  {
    TurnWithin(c, e, e.depth, prompt, s, k);
  }

  // ---------------------------------------------------------------- the bound is met

  /** A model that asks for k delegations at every step, forever. */
  ghost predicate Relentless<W>(e: Env<W>, k: nat) {
    && k > 0 && e.model != ""
    && forall i: nat, j: nat ::
         && e.streams(i)(j).Answer?
         && var calls := e.streams(i)(j).response.toolCalls;
            && |calls| == k
            && forall x | x in calls :: Delegates(e, x)
  }

  predicate Delegates<W>(e: Env<W>, call: ToolCall) {
    call.id != "" && call.name == ToolName && e.taskIn(call.args).Some? && e.taskIn(call.args).value != ""
  }

  /** From s to t exactly `turns` turns were started, each making m model calls. */
  ghost predicate Exactly<W>(e: Env<W>, s: Session<W>, t: Session<W>, turns: nat) {
    && t.turns == s.turns + turns && t.modelCalls == s.modelCalls + StepsAllowed(e.maxSteps) * turns
    && t.level == s.level && s.deepest <= t.deepest
  }

  lemma ExactlyTwice<W>(e: Env<W>, s: Session<W>, t: Session<W>, u: Session<W>, a: nat, b: nat)
    requires Exactly(e, s, t, a) && Exactly(e, t, u, b)
    ensures Exactly(e, s, u, a + b)
  {
    assert StepsAllowed(e.maxSteps) * (a + b) == StepsAllowed(e.maxSteps) * a + StepsAllowed(e.maxSteps) * b;
  }

  /** Some turn was started d levels below the current one. */
  predicate Reaches<W>(d: nat, s: Session<W>, t: Session<W>) {
    d > 0 ==> t.deepest >= s.level + d
  }

  /** Every delegation under this registry starts exactly b turns, the deepest of
      them d levels down. */
  ghost predicate DelegatesExactly<W(!new)>(e: Env<W>, d: nat, reg: Registry<Session<W>>, b: nat) {
    && ToolName in reg.byName
    && forall s: Session<W>, call: ToolCall | Delegates(e, call) ::
         var ran := reg.byName[ToolName].run(s, call.args);
         ran.1.Returned? && Exactly(e, s, ran.0, b) && Reaches(d, s, ran.0)
  }

  lemma {:induction false} CallsExact<W(!new)>(c: Codec, e: Env<W>, d: nat, reg: Registry<Session<W>>,
                                               calls: seq<ToolCall>, s: Session<W>, b: nat)
    requires DelegatesExactly(e, d, reg, b) && forall x | x in calls :: Delegates(e, x)
    ensures var ran := RunCalls(c, reg, calls, s);
            ran.error.None? && Exactly(e, s, ran.world, |calls| * b) && (calls != [] ==> Reaches(d, s, ran.world))
    decreases |calls|
  {
    if calls != [] {
      assert Delegates(e, calls[0]);
      var first := RunCall(c, reg, calls[0], s);
      CallsExact(c, e, d, reg, calls[1..], first.world, b);
      assert |calls| * b == b + |calls[1..]| * b;
      ExactlyTwice(e, s, first.world, RunCalls(c, reg, calls[1..], first.world).world, b, |calls[1..]| * b);
    }
  }

  lemma {:induction false} LoopExact<W(!new)>(c: Codec, e: Env<W>, d: nat, cfg: Config<Session<W>>,
                                              messages: seq<Message>, out: Outcome, i: nat, used: nat, s: Session<W>,
                                              step: nat, k: nat, b: nat, turns: nat)
    requires cfg.registry.Valid() && 1 <= step <= cfg.Steps() + 1
    requires Relentless(e, k) && DelegatesExactly(e, d, cfg.registry, b)
    requires turns == (cfg.Steps() + 1 - step) * (k * b)
    ensures var ran := Loop(c, cfg, messages, out, Live(e.provider, e.streams(i), used), s, step);
            && Exactly(e, s, ran.world, turns) && CallsMade(ran.source) == used + (cfg.Steps() + 1 - step)
            && (step <= cfg.Steps() ==> Reaches(d, s, ran.world))
    decreases cfg.Steps() + 1 - step
  {
    if step <= cfg.Steps() {
      OneMore(cfg.Steps() + 1 - step, k * b);
      var next, rest := StepExact(c, e, d, cfg, messages, out, i, used, s, step, k, b);
      var each, after := k * b, turns - k * b;
      assert after == (cfg.Steps() + 1 - (step + 1)) * (k * b);
      LoopExact(c, e, d, cfg, next.messages, next.out, i, used + 1, next.world, step + 1, k, b, after);
      ExactlyTwice(e, s, next.world, rest.world, each, after);
    } else {
      OutOfSteps(c, e, cfg, messages, out, i, used, s, step);
    }
  }

  lemma OutOfSteps<W>(c: Codec, e: Env<W>, cfg: Config<Session<W>>, messages: seq<Message>,
                      out: Outcome, i: nat, used: nat, s: Session<W>, step: nat)
    requires cfg.registry.Valid() && step > cfg.Steps()
    ensures var ran := Loop(c, cfg, messages, out, Live(e.provider, e.streams(i), used), s, step);
            Exactly(e, s, ran.world, 0) && CallsMade(ran.source) == used
  {
  }

  lemma StepExact<W(!new)>(c: Codec, e: Env<W>, d: nat, cfg: Config<Session<W>>, messages: seq<Message>,
                           out: Outcome, i: nat, used: nat, s: Session<W>, step: nat, k: nat, b: nat)
    returns (next: Onward<Session<W>>, rest: Ran<Session<W>>)
    requires cfg.registry.Valid() && 1 <= step <= cfg.Steps()
    requires Relentless(e, k) && DelegatesExactly(e, d, cfg.registry, b)
    ensures rest == Loop(c, cfg, next.messages, next.out, Live(e.provider, e.streams(i), used + 1), next.world,
                         step + 1)
    ensures var ran := Loop(c, cfg, messages, out, Live(e.provider, e.streams(i), used), s, step);
            ran.world == rest.world && ran.source == rest.source
    ensures Exactly(e, s, next.world, k * b) && Reaches(d, s, next.world)
  {
    var done := Completed(c, Live(e.provider, e.streams(i), used), RequestOf(cfg, messages));
    RelentlessAnswer(c, e, d, cfg, i, used, s, k, b);
    next := NextRound(c, cfg, messages, out.(steps := step), e.streams(i)(used).response, s);
    GoesOn(c, cfg, messages, out.(steps := step), done, s, step);
    rest := Loop(c, cfg, next.messages, next.out, done.source, next.world, step + 1);
  }

  lemma RelentlessAnswer<W(!new)>(c: Codec, e: Env<W>, d: nat, cfg: Config<Session<W>>, i: nat, used: nat,
                                  s: Session<W>, k: nat, b: nat)
    requires cfg.registry.Valid() && Relentless(e, k) && DelegatesExactly(e, d, cfg.registry, b)
    ensures e.streams(i)(used).Answer?
    ensures var resp := e.streams(i)(used).response;
            var world := RunCalls(c, cfg.registry, resp.toolCalls, s).world;
            !Stops(c, cfg, resp, s) && Exactly(e, s, world, k * b) && Reaches(d, s, world)
  {
    var resp := e.streams(i)(used).response;
    assert forall j | 0 <= j < |resp.toolCalls| :: Delegates(e, resp.toolCalls[j]);
    CallsExact(c, e, d, cfg.registry, resp.toolCalls, s, b);
  }

  /** The bound is tight: a model that never stops delegating reaches it exactly, in
      turns, in model calls and in levels. */
  lemma {:induction false} BoundIsReached<W(!new)>(c: Codec, e: Env<W>, d: nat, prompt: string, s: Session<W>, k: nat)
    requires e.Valid() && Relentless(e, k)
    ensures var t := Turn(c, e, d, prompt, s).world;
            Exactly(e, s, t, PowerSum(StepsAllowed(e.maxSteps) * k, d)) && t.deepest >= s.level + d
    decreases d, 1
  {
    var b := if d == 0 then 0 else Geometric(StepsAllowed(e.maxSteps) * k, d - 1);
    var m := StepsAllowed(e.maxSteps);
    DelegationsExact(c, e, d, k, b);
    RunExact(c, e, d, TurnConfig(c, e, d, prompt, s), prompt, s.turns, Begun(s), k, b);
    var ran := Run(c, TurnConfig(c, e, d, prompt, s), prompt, TurnSource(e, s), Begun(s));
    CountTurnExactly(e, s, ran.world, m * (k * b));
    MulAssociates(m, k, b);
    GeometricIsPowerSum(m * k, d);
  }

  lemma RunExact<W(!new)>(c: Codec, e: Env<W>, d: nat, cfg: Config<Session<W>>, prompt: string, i: nat,
                          s: Session<W>, k: nat, b: nat)
    requires cfg.registry.Valid() && cfg.maxSteps == e.maxSteps && cfg.model != ""
    requires Relentless(e, k) && DelegatesExactly(e, d, cfg.registry, b)
    ensures var ran := Run(c, cfg, prompt, Live(e.provider, e.streams(i), 0), s);
            && Exactly(e, s, ran.world, StepsAllowed(e.maxSteps) * (k * b)) && Reaches(d, s, ran.world)
            && CallsMade(ran.source) == StepsAllowed(e.maxSteps)
  {
    LoopExact(c, e, d, cfg, [UserSaid(prompt)], NoOutcome, i, 0, s, 1, k, b, StepsAllowed(e.maxSteps) * (k * b));
  }

  lemma CountTurnExactly<W>(e: Env<W>, s: Session<W>, t: Session<W>, inside: nat)
    requires Exactly(e, Begun(s), t, inside)
    ensures Exactly(e, s, t.(modelCalls := t.modelCalls + StepsAllowed(e.maxSteps)), 1 + inside)
    ensures t.deepest >= s.level
  {
    assert StepsAllowed(e.maxSteps) * (1 + inside) == StepsAllowed(e.maxSteps) + StepsAllowed(e.maxSteps) * inside;
  }

  lemma {:induction false} DelegationsExact<W(!new)>(c: Codec, e: Env<W>, d: nat, k: nat, b: nat)
    requires e.Valid() && Relentless(e, k)
    requires b == if d == 0 then 0 else Geometric(StepsAllowed(e.maxSteps) * k, d - 1)
    ensures DelegatesExactly(e, d, ToolsAt(c, e, d), b)
    decreases d, 0, 1
  {
    forall s: Session<W>, call: ToolCall | Delegates(e, call)
      ensures var ran := DelegateTool(c, e, d).run(s, call.args);
              ran.1.Returned? && Exactly(e, s, ran.0, b) && Reaches(d, s, ran.0)
    {
      DelegatedExact(c, e, d, s, call.args, k, b);
      assert DelegateTool(c, e, d).run(s, call.args) == Delegated(c, e, d, s, call.args);
    }
    assert ToolsAt(c, e, d).byName[ToolName] == DelegateTool(c, e, d);
  }

  lemma {:induction false} DelegatedExact<W(!new)>(c: Codec, e: Env<W>, d: nat, s: Session<W>, args: string,
                                                   k: nat, b: nat)
    requires e.Valid() && Relentless(e, k) && e.taskIn(args).Some? && e.taskIn(args).value != ""
    requires b == if d == 0 then 0 else Geometric(StepsAllowed(e.maxSteps) * k, d - 1)
    ensures var ran := Delegated(c, e, d, s, args);
            ran.1.Returned? && Exactly(e, s, ran.0, b) && Reaches(d, s, ran.0)
    decreases d, 0, 0
  {
    if d > 0 {
      BoundIsReached(c, e, d - 1, e.taskIn(args).value, s.(level := s.level + 1), k);
      GeometricIsPowerSum(StepsAllowed(e.maxSteps) * k, d - 1);
    }
  }
}
