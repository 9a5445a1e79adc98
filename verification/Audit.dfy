/** The shape of every journal the loop writes, stated as an automaton that reads
    a turn's payloads and knows nothing of the loop.

    The automaton accepts a turn.start, then rounds of one request and one
    response, each tool call owed by that response followed at once by its own
    result, then an optional error tail, then a turn.end whose totals are what
    the stream itself shows. Models the event order of internal/agent/agent.go
    and internal/llm/record.go. */
module Audit {
  import opened Prelude
  import opened Journal
  import opened Llm
  import opened Recording
  import opened AgentLoop
  import opened Replay

  datatype Phase =
    | Opening
    | Asking
    | Waiting
    | Rejected(answer: Option<Response>)
    | Owing(calls: seq<ToolCall>)
    | Called(calls: seq<ToolCall>)
    | Settled(text: string)
    | Erred(failure: Failure)
    | Closed(error: Option<Failure>)
    | Illegal

  /** The reader's place in the grammar and the totals it has counted. */
  datatype Reading = Reading(phase: Phase, text: string, steps: int, toolCalls: int, usage: Usage) {
    function Moved(phase: Phase): Reading {
      this.(phase := phase)
    }
  }

  const Fresh := Reading(Opening, "", 0, 0, Usage(0, 0, 0))

  /** The response a journaled payload carries, if it can be decoded. */
  function AnswerIn(c: Codec, p: Payload): Option<Response> {
    match c.unmarshal(KindModelResponse, c.marshal(p))
    case Some(ModelResponse(resp)) => Some(resp)
    case _ => None
  }

  predicate Named(call: ToolCall) {
    call.name != "" && call.id != ""
  }

  /** A response to go on with says or asks something, and every call in it can be
      answered. */
  predicate Usable(resp: Response) {
    (resp.text != "" || resp.toolCalls != []) && forall i | 0 <= i < |resp.toolCalls| :: Named(resp.toolCalls[i])
  }

  /** What may be held against any other: it is empty, or this is its first call without
      a name or an id. */
  predicate Complaint(resp: Response, f: Failure) {
    match f
    case EmptyResponse => resp.text == "" && resp.toolCalls == []
    case UnnamedCall(i) =>
      && i < |resp.toolCalls| && resp.toolCalls[i].name == ""
      && forall j | 0 <= j < i :: Named(resp.toolCalls[j])
    case NoIdCall(i, name) =>
      && i < |resp.toolCalls| && resp.toolCalls[i].name == name != "" && resp.toolCalls[i].id == ""
      && forall j | 0 <= j < i :: Named(resp.toolCalls[j])
    case _ => false
  }

  function Answered(r: Reading, answer: Option<Response>): Reading {
    if answer.None? || !Usable(answer.value) then r.Moved(Rejected(answer))
    else
      var resp := answer.value;
      r.(usage := Usage(r.usage.input + resp.usage.input, r.usage.output + resp.usage.output,
                        r.usage.cached + resp.usage.cached),
         phase := if resp.toolCalls == [] then Settled(resp.text) else Owing(resp.toolCalls))
  }

  function Read(c: Codec, r: Reading, p: Payload): Reading {
    match r.phase
    case Opening =>
      if p.TurnStart? then r.Moved(Asking) else r.Moved(Illegal)
    case Asking =>
      if p.ModelRequest? then r.(phase := Waiting, steps := r.steps + 1)
      else if p == LoopError("loop", StepLimit(r.steps)) then r.Moved(Erred(p.failure))
      else r.Moved(Illegal)
    case Waiting =>
      if p.ModelResponse? || p.Verbatim? then Answered(r, AnswerIn(c, p))
      else if p.ProviderError? then r.Moved(Rejected(None))
      else if p.LoopError? && p.stage == "model" then r.Moved(Erred(p.failure))
      else r.Moved(Illegal)
    case Rejected(answer) =>
      if p.LoopError? && p.stage == "model" && (answer.Some? ==> Complaint(answer.value, p.failure))
      then r.Moved(Erred(p.failure))
      else r.Moved(Illegal)
    case Owing(calls) =>
      if calls != [] && p == ToolCalled(calls[0]) then r.Moved(Called(calls)) else r.Moved(Illegal)
    case Called(calls) =>
      if calls != [] && p.ToolReturned? && p.id == calls[0].id && p.name == calls[0].name then
        r.(phase := if |calls| == 1 then Asking else Owing(calls[1..]), toolCalls := r.toolCalls + 1)
      else if p.LoopError? && p.stage == "tool" then r.Moved(Erred(p.failure))
      else r.Moved(Illegal)
    case Settled(text) =>
      if p == TurnEnd("end", r.steps, r.toolCalls, r.usage) then r.(phase := Closed(None), text := text)
      else r.Moved(Illegal)
    case Erred(f) =>
      if p == TurnEnd("error", r.steps, r.toolCalls, r.usage) then r.Moved(Closed(Some(f)))
      else r.Moved(Illegal)
    case Closed(_) => r.Moved(Illegal)
    case Illegal => r
  }

  function ReadAll(c: Codec, r: Reading, log: seq<Payload>): Reading
    decreases |log|
  {
    if log == [] then r else ReadAll(c, Read(c, r, log[0]), log[1..])
  }

  lemma {:induction false} ReadAppend(c: Codec, r: Reading, xs: seq<Payload>, ys: seq<Payload>)
    ensures ReadAll(c, r, xs + ys) == ReadAll(c, ReadAll(c, r, xs), ys)
    decreases |xs|
  {
    if xs == [] {
      assert xs + ys == ys;
    } else {
      assert (xs + ys)[1..] == xs[1..] + ys;
      ReadAppend(c, Read(c, r, xs[0]), xs[1..], ys);
    }
  }

  lemma ReadTwo(c: Codec, r: Reading, p: Payload, q: Payload)
    ensures ReadAll(c, r, [p, q]) == Read(c, Read(c, r, p), q)
  {
    assert [p, q][1..] == [q];
    ReadOne(c, Read(c, r, p), q);
  }

  lemma ReadOne(c: Codec, r: Reading, p: Payload)
    ensures ReadAll(c, r, [p]) == Read(c, r, p)
  {
    assert [p][1..] == [];
  }

  function At(phase: Phase, out: Outcome): Reading {
    Reading(phase, out.text, out.steps, out.toolCalls, out.usage)
  }

  lemma CallAudits<W>(c: Codec, reg: Registry<W>, calls: seq<ToolCall>, world: W, out: Outcome)
    requires calls != []
    ensures var ran := RunCall(c, reg, calls[0], world);
            var after := ReadAll(c, At(Owing(calls), out), ran.log);
            if ran.error.None? then
              && |ran.messages| == 1
              && after == At(if |calls| == 1 then Asking else Owing(calls[1..]),
                             out.(toolCalls := out.toolCalls + 1))
            else ran.messages == [] && after.phase.Called? && after == At(after.phase, out)
  {
    var r, ran := At(Owing(calls), out), RunCall(c, reg, calls[0], world);
    if ran.error.Some? {
      ReadOne(c, r, ran.log[0]);
    } else {
      ReadTwo(c, r, ran.log[0], ran.log[1]);
    }
  }

  lemma {:induction false} CallsAudit<W>(c: Codec, reg: Registry<W>, calls: seq<ToolCall>, world: W, out: Outcome)
    requires calls != []
    ensures var ran := RunCalls(c, reg, calls, world);
            var after := ReadAll(c, At(Owing(calls), out), ran.log);
            var out' := out.(toolCalls := out.toolCalls + |ran.messages|);
            if ran.error.None? then after == At(Asking, out')
            else after.phase.Called? && after == At(after.phase, out')
    decreases |calls|
  {
    var first := RunCall(c, reg, calls[0], world);
    CallAudits(c, reg, calls, world, out);
    if first.error.None? {
      ReadAppend(c, At(Owing(calls), out), first.log, RunCalls(c, reg, calls[1..], first.world).log);
      if |calls| > 1 {
        CallsAudit(c, reg, calls[1..], first.world, out.(toolCalls := out.toolCalls + 1));
      }
    }
  }

  /** The loop's own check finds exactly what may be complained of. */
  lemma {:induction false} ValidateComplains(resp: Response)
    ensures Validate(resp).None? <==> Usable(resp)
    ensures Validate(resp).Some? ==> Complaint(resp, Validate(resp).value)
  {
    if resp.text != "" || resp.toolCalls != [] {
      BadCallComplains(resp, 0);
    }
  }

  lemma {:induction false} BadCallComplains(resp: Response, i: nat)
    requires i <= |resp.toolCalls| && forall j | 0 <= j < i :: Named(resp.toolCalls[j])
    ensures FirstBadCall(resp.toolCalls, i).None? <==> forall j | 0 <= j < |resp.toolCalls| :: Named(resp.toolCalls[j])
    ensures FirstBadCall(resp.toolCalls, i).Some? ==> Complaint(resp, FirstBadCall(resp.toolCalls, i).value)
    decreases |resp.toolCalls| - i
  {
    if i < |resp.toolCalls| && Named(resp.toolCalls[i]) {
      BadCallComplains(resp, i + 1);
    }
  }

  lemma FailAudits<W>(c: Codec, r: Reading, out: Outcome, src: Source, world: W, stage: string, f: Failure)
    requires Read(c, r, LoopError(stage, f)) == At(Erred(f), out)
    ensures ReadAll(c, r, Fail(out, src, world, stage, f).log) == At(Closed(Some(f)), out)
  {
    ReadTwo(c, r, LoopError(stage, f), TurnEnd("error", out.steps, out.toolCalls, out.usage));
  }

  lemma {:induction false} LoopAudits<W>(c: Codec, cfg: Config<W>, messages: seq<Message>, out: Outcome,
                                         src: Source, world: W, step: nat)
    requires Lawful(c) && cfg.registry.Valid() && 1 <= step <= cfg.Steps() + 1 && out.steps == step - 1
    ensures var ran := Loop(c, cfg, messages, out, src, world, step);
            ReadAll(c, At(Asking, out), ran.log) == At(Closed(ran.error), ran.out)
    decreases cfg.Steps() + 1 - step
  {
    if step > cfg.Steps() {
      FailAudits(c, At(Asking, out), out, src, world, "loop", StepLimit(cfg.Steps()));
    } else {
      var done := Completed(c, src, RequestOf(cfg, messages));
      var out' := out.(steps := step);
      var rest := Proceed(c, cfg, messages, out', done, world, step);
      var after := ReadAll(c, At(Asking, out), done.log);
      CompletionAudits(c, src, RequestOf(cfg, messages), out);
      ReadAppend(c, At(Asking, out), done.log, rest.log);
      if done.result.Err? {
        FailAudits(c, after, out', done.source, world, "model", done.result.error);
      } else {
        ProceedAudits(c, cfg, messages, out', done, world, step);
      }
    }
  }

  lemma CompletionAudits(c: Codec, src: Source, req: Request, out: Outcome)
    requires Lawful(c)
    ensures var done := Completed(c, src, req);
            var out' := out.(steps := out.steps + 1);
            var after := ReadAll(c, At(Asking, out), done.log);
            match done.result
            case Ok(resp) => after == Answered(At(Waiting, out'), Some(resp))
            case Err(f) => Read(c, after, LoopError("model", f)) == At(Erred(f), out')
  {
    var done := Completed(c, src, req);
    if |done.log| == 1 {
      ReadOne(c, At(Asking, out), done.log[0]);
    } else {
      ReadTwo(c, At(Asking, out), done.log[0], done.log[1]);
      var waiting := At(Waiting, out.(steps := out.steps + 1));
      assert Read(c, At(Asking, out), done.log[0]) == waiting;
      if !done.log[1].ProviderError? {
        assert Read(c, waiting, done.log[1]) == Answered(waiting, AnswerIn(c, done.log[1]));
        if done.result.Ok? {
          assert AnswerIn(c, done.log[1]) == Some(done.result.value);
        }
      }
    }
  }

  /** A round that ends with every call answered. */
  lemma {:induction false} RoundAudits<W>(c: Codec, cfg: Config<W>, messages: seq<Message>, out: Outcome,
                                          resp: Response, world: W)
    requires !Stops(c, cfg, resp, world)
    ensures var next := NextRound(c, cfg, messages, out, resp, world);
            ReadAll(c, Answered(At(Waiting, out), Some(resp)), next.log) == At(Asking, next.out)
  {
    ValidateComplains(resp);
    CallsAudit(c, cfg.registry, resp.toolCalls, world, out.(usage := out.usage.Plus(resp.usage)));
  }

  lemma {:induction false} ProceedAudits<W>(c: Codec, cfg: Config<W>, messages: seq<Message>, out: Outcome,
                                            done: Completion, world: W, step: nat)
    requires Lawful(c) && cfg.registry.Valid() && 1 <= step <= cfg.Steps() && out.steps == step && done.result.Ok?
    ensures var ran := Proceed(c, cfg, messages, out, done, world, step);
            ReadAll(c, Answered(At(Waiting, out), Some(done.result.value)), ran.log)
            == At(Closed(ran.error), ran.out)
    decreases cfg.Steps() + 1 - step, 0
  {
    var resp := done.result.value;
    if Stops(c, cfg, resp, world) {
      StopAudits(c, cfg, messages, out, done, world, step);
    } else {
      GoesOn(c, cfg, messages, out, done, world, step);
      GoOnAudits(c, cfg, messages, out, resp, done.source, world, step);
    }
  }

  lemma {:induction false} GoOnAudits<W>(c: Codec, cfg: Config<W>, messages: seq<Message>, out: Outcome,
                                         resp: Response, src: Source, world: W, step: nat)
    requires Lawful(c) && cfg.registry.Valid() && 1 <= step <= cfg.Steps() && out.steps == step
    requires !Stops(c, cfg, resp, world)
    ensures var next := NextRound(c, cfg, messages, out, resp, world);
            var rest := Loop(c, cfg, next.messages, next.out, src, next.world, step + 1);
            ReadAll(c, Answered(At(Waiting, out), Some(resp)), rest.After(next.log).log)
            == At(Closed(rest.error), rest.out)
    decreases cfg.Steps() + 1 - step, 0, 0
  {
    var next := NextRound(c, cfg, messages, out, resp, world);
    RoundAudits(c, cfg, messages, out, resp, world);
    LoopAudits(c, cfg, next.messages, next.out, src, next.world, step + 1);
    RestAudits(c, Answered(At(Waiting, out), Some(resp)), next.log, At(Asking, next.out),
               Loop(c, cfg, next.messages, next.out, src, next.world, step + 1));
  }

  lemma {:induction false} RestAudits<W>(c: Codec, r: Reading, log: seq<Payload>, mid: Reading, rest: Ran<W>)
    requires ReadAll(c, r, log) == mid && ReadAll(c, mid, rest.log) == At(Closed(rest.error), rest.out)
    ensures ReadAll(c, r, rest.After(log).log) == At(Closed(rest.error), rest.out)
  {
    ReadAppend(c, r, log, rest.log);
  }

  lemma {:induction false} StopAudits<W>(c: Codec, cfg: Config<W>, messages: seq<Message>, out: Outcome,
                                         done: Completion, world: W, step: nat)
    requires Lawful(c) && cfg.registry.Valid() && step <= cfg.Steps() && done.result.Ok?
    requires Stops(c, cfg, done.result.value, world)
    ensures var ran := Proceed(c, cfg, messages, out, done, world, step);
            ReadAll(c, Answered(At(Waiting, out), Some(done.result.value)), ran.log)
            == At(Closed(ran.error), ran.out)
  {
    var resp := done.result.value;
    var r := Answered(At(Waiting, out), Some(resp));
    var out' := out.(usage := out.usage.Plus(resp.usage));
    ValidateComplains(resp);
    if Validate(resp).Some? {
      FailAudits(c, r, out, done.source, world, "model", Validate(resp).value);
    } else if resp.toolCalls == [] {
      ReadOne(c, r, TurnEnd("end", out'.steps, out'.toolCalls, out'.usage));
    } else {
      BrokenAudits(c, cfg.registry, resp.toolCalls, world, out', done.source);
    }
  }

  lemma {:induction false} BrokenAudits<W>(c: Codec, reg: Registry<W>, calls: seq<ToolCall>, world: W, out: Outcome,
                                           src: Source)
    requires calls != [] && RunCalls(c, reg, calls, world).error.Some?
    ensures var ran := RunCalls(c, reg, calls, world);
            var failed := Fail(out.(toolCalls := out.toolCalls + |ran.messages|), src, ran.world, "tool",
                               ran.error.value).After(ran.log);
            ReadAll(c, At(Owing(calls), out), failed.log) == At(Closed(failed.error), failed.out)
  {
    var ran := RunCalls(c, reg, calls, world);
    var out' := out.(toolCalls := out.toolCalls + |ran.messages|);
    var tail := Fail(out', src, ran.world, "tool", ran.error.value);
    CallsAudit(c, reg, calls, world, out);
    ReadAppend(c, At(Owing(calls), out), ran.log, tail.log);
    FailAudits(c, ReadAll(c, At(Owing(calls), out), ran.log), out', src, ran.world, "tool", ran.error.value);
  }

  /** Every turn, live or replayed, successful or not, writes a journal in the grammar,
      the totals an independent reader counts are the ones reported, and it takes no more
      steps than it may: 16, unless the settings say otherwise. */
  lemma EveryTurnAudits<W>(c: Codec, cfg: Config<W>, prompt: string, src: Source, world: W)
    requires Lawful(c) && cfg.registry.Valid() && cfg.model != ""
    ensures var ran := Run(c, cfg, prompt, src, world);
            && ReadAll(c, Fresh, ran.log) == At(Closed(ran.error), ran.out)
            && ran.out.steps <= (if cfg.maxSteps > 0 then cfg.maxSteps else 16)
            && (ran.error.Some? && ran.error.value.StepLimit? ==>
                  ran.error.value.steps == ran.out.steps == if cfg.maxSteps > 0 then cfg.maxSteps else 16)
  {
    StepsWithin(c, cfg, [UserSaid(prompt)], NoOutcome, src, world, 1);
    var rest := Loop(c, cfg, [UserSaid(prompt)], NoOutcome, src, world, 1);
    ReadOne(c, Fresh, StartOf(cfg, prompt));
    ReadAppend(c, Fresh, [StartOf(cfg, prompt)], rest.log);
    LoopAudits(c, cfg, [UserSaid(prompt)], NoOutcome, src, world, 1);
  }

  lemma {:induction false} StepsWithin<W>(c: Codec, cfg: Config<W>, messages: seq<Message>, out: Outcome,
                                          src: Source, world: W, step: nat)
    requires cfg.registry.Valid() && 1 <= step <= cfg.Steps() + 1 && out.steps == step - 1
    ensures var ran := Loop(c, cfg, messages, out, src, world, step);
            && ran.out.steps <= cfg.Steps()
            && (ran.error.Some? && ran.error.value.StepLimit? ==>
                  ran.error.value.steps == ran.out.steps == cfg.Steps())
    decreases cfg.Steps() + 1 - step
  {
    if step <= cfg.Steps() {
      var done := Completed(c, src, RequestOf(cfg, messages));
      var out' := out.(steps := step);
      if done.result.Ok? && !Stops(c, cfg, done.result.value, world) {
        var next := NextRound(c, cfg, messages, out', done.result.value, world);
        GoesOn(c, cfg, messages, out', done, world, step);
        StepsWithin(c, cfg, next.messages, next.out, done.source, next.world, step + 1);
      } else if done.result.Ok? {
        StopsWithin(c, cfg, messages, out', done, world, step);
      }
    }
  }

  lemma {:induction false} StopsWithin<W>(c: Codec, cfg: Config<W>, messages: seq<Message>, out: Outcome,
                                          done: Completion, world: W, step: nat)
    requires cfg.registry.Valid() && step <= cfg.Steps() && done.result.Ok?
    requires Stops(c, cfg, done.result.value, world)
    ensures var ran := Proceed(c, cfg, messages, out, done, world, step);
            ran.out.steps == out.steps && (ran.error.Some? ==> !ran.error.value.StepLimit?)
  {
    var resp := done.result.value;
    ValidateComplains(resp);
    CallsNeverLimit(c, cfg.registry, resp.toolCalls, world);
  }

  lemma {:induction false} CallsNeverLimit<W>(c: Codec, reg: Registry<W>, calls: seq<ToolCall>, world: W)
    ensures var ran := RunCalls(c, reg, calls, world); ran.error.Some? ==> ran.error.value.ToolFailed?
    decreases |calls|
  {
    if calls != [] {
      CallsNeverLimit(c, reg, calls[1..], RunCall(c, reg, calls[0], world).world);
    }
  }

  /** Nothing may follow the closing event: no proper extension of a turn audits. */
  lemma {:induction false} ClosedIsFinal(c: Codec, log: seq<Payload>, more: seq<Payload>)
    requires ReadAll(c, Fresh, log).phase.Closed? && more != []
    ensures ReadAll(c, Fresh, log + more).phase == Illegal
  {
    ReadAppend(c, Fresh, log, more);
    var r := Read(c, ReadAll(c, Fresh, log), more[0]);
    IllegalStays(c, r, more[1..]);
  }

  lemma {:induction false} IllegalStays(c: Codec, r: Reading, log: seq<Payload>)
    requires r.phase == Illegal
    ensures ReadAll(c, r, log).phase == Illegal
    decreases |log|
  {
    if log != [] {
      IllegalStays(c, Read(c, r, log[0]), log[1..]);
    }
  }
}
