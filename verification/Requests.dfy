/** What a turn sends to its provider: the agent's own settings, and everything its
    journal has told so far.

    Models the requests built in Run of internal/agent/agent.go, against the events
    Run, runTool and both Complete methods of internal/llm/record.go journal. */
module Requests {
  import opened Prelude
  import opened Journal
  import opened Llm
  import opened Recording
  import opened AgentLoop
  import opened Replay

  /** The settings reach the provider: model, system prompt, token limit, and every
      registered tool in the order of registration. */
  ghost predicate Carries<W>(cfg: Config<W>, req: Request) {
    && req.model == cfg.model && req.system == cfg.system && req.maxTokens == cfg.maxTokens
    && |req.tools| == |cfg.registry.order|
    && forall i | 0 <= i < |req.tools| ::
         && cfg.registry.order[i] in cfg.registry.byName
         && var t := cfg.registry.byName[cfg.registry.order[i]];
            && req.tools[i].name == t.name && req.tools[i].description == t.description
            && req.tools[i].schema == t.schema
  }

  /** What an event adds to the conversation. */
  function Adds(c: Codec, p: Payload): seq<Message> {
    match p
    case TurnStart(prompt, _, _, _, _) => [Message(User, prompt, [], "", false)]
    case ModelResponse(r) => [Message(Assistant, r.text, r.toolCalls, "", false)]
    case Verbatim(bytes) => (
      match c.unmarshal(KindModelResponse, bytes)
      case Some(ModelResponse(r)) => [Message(Assistant, r.text, r.toolCalls, "", false)]
      case _ => []
    )
    case ToolReturned(id, _, content, isError) => [Message(ToolResult, content, [], id, isError)]
    case _ => []
  }

  /** The conversation a journal tells. */
  function Transcript(c: Codec, log: seq<Payload>): seq<Message>
    decreases |log|
  {
    if log == [] then [] else Adds(c, log[0]) + Transcript(c, log[1..])
  }

  lemma {:induction false} TranscriptAppend(c: Codec, xs: seq<Payload>, ys: seq<Payload>)
    ensures Transcript(c, xs + ys) == Transcript(c, xs) + Transcript(c, ys)
    decreases |xs|
  {
    if xs == [] {
      assert xs + ys == ys;
    } else {
      assert (xs + ys)[1..] == xs[1..] + ys;
      TranscriptAppend(c, xs[1..], ys);
      Associates(Adds(c, xs[0]), Transcript(c, xs[1..]), Transcript(c, ys));
    }
  }

  lemma {:induction false} TranscriptOfOne(c: Codec, p: Payload)
    ensures Transcript(c, [p]) == Adds(c, p)
  {
    assert [p][1..] == [];
  }

  lemma {:induction false} TranscriptOfTwo(c: Codec, p: Payload, q: Payload)
    ensures Transcript(c, [p, q]) == Adds(c, p) + Adds(c, q)
  {
    assert [p, q][1..] == [q];
    TranscriptOfOne(c, q);
  }

  /** Every request of this log carries the settings, and asks what was said before
      the log and what the log tells up to there. */
  ghost predicate AsksInFull<W>(c: Codec, cfg: Config<W>, before: seq<Message>, log: seq<Payload>) {
    forall i | 0 <= i < |log| && log[i].ModelRequest? :: AskedInFull(c, cfg, before, log, i)
  }

  ghost predicate AskedInFull<W>(c: Codec, cfg: Config<W>, before: seq<Message>, log: seq<Payload>, i: nat)
    requires i < |log| && log[i].ModelRequest?
  {
    Carries(cfg, log[i].request) && log[i].request.messages == before + Transcript(c, log[..i])
  }

  lemma {:induction false} AsksMore<W>(c: Codec, cfg: Config<W>, before: seq<Message>, xs: seq<Payload>,
                                       ys: seq<Payload>)
    requires AsksInFull(c, cfg, before, xs) && AsksInFull(c, cfg, before + Transcript(c, xs), ys)
    ensures AsksInFull(c, cfg, before, xs + ys)
  {
    forall i | 0 <= i < |xs + ys| && (xs + ys)[i].ModelRequest?
      ensures AskedInFull(c, cfg, before, xs + ys, i)
    {
      if i < |xs| {
        assert AskedInFull(c, cfg, before, xs, i);
        assert (xs + ys)[..i] == xs[..i];
      } else {
        assert AskedInFull(c, cfg, before + Transcript(c, xs), ys, i - |xs|);
        assert (xs + ys)[..i] == xs + ys[..i - |xs|];
        TranscriptAppend(c, xs, ys[..i - |xs|]);
        Associates(before, Transcript(c, xs), Transcript(c, ys[..i - |xs|]));
      }
    }
  }

  lemma {:induction false} AsksNothing<W>(c: Codec, cfg: Config<W>, before: seq<Message>, log: seq<Payload>)
    requires ModelFree(log)
    ensures AsksInFull(c, cfg, before, log)
  {
    forall i | 0 <= i < |log|
      ensures !log[i].ModelRequest?
    {
      assert log[i] in log;
    }
  }

  lemma {:induction false} RequestCarries<W>(cfg: Config<W>, messages: seq<Message>)
    requires cfg.registry.Valid()
    ensures Carries(cfg, RequestOf(cfg, messages)) && RequestOf(cfg, messages).messages == messages
  {
    var order := cfg.registry.order;
    forall i | 0 <= i < |order|
      ensures order[i] in cfg.registry.byName
    {
      assert order[i] in order;
    }
  }

  lemma {:induction false} CompletedAsks<W>(c: Codec, cfg: Config<W>, messages: seq<Message>, src: Source)
    requires cfg.registry.Valid()
    ensures var done := Completed(c, src, RequestOf(cfg, messages));
            && AsksInFull(c, cfg, messages, done.log)
            && (done.result.Ok? ==>
                  Transcript(c, done.log)
                  == [Message(Assistant, done.result.value.text, done.result.value.toolCalls, "", false)])
  {
    var req := RequestOf(cfg, messages);
    var done := Completed(c, src, req);
    RequestCarries(cfg, messages);
    assert done.log[..0] == [] && messages + [] == messages;
    assert AskedInFull(c, cfg, messages, done.log, 0);
    if |done.log| == 2 {
      assert done.log == [done.log[0], done.log[1]];
      TranscriptOfTwo(c, done.log[0], done.log[1]);
    }
  }

  lemma {:induction false} CallsTell<W>(c: Codec, reg: Registry<W>, calls: seq<ToolCall>, world: W)
    requires RunCalls(c, reg, calls, world).error.None?
    ensures Transcript(c, RunCalls(c, reg, calls, world).log) == RunCalls(c, reg, calls, world).messages
    decreases |calls|
  {
    if calls != [] {
      var first := RunCall(c, reg, calls[0], world);
      var rest := RunCalls(c, reg, calls[1..], first.world);
      assert first.log == [first.log[0], first.log[1]];
      TranscriptOfTwo(c, first.log[0], first.log[1]);
      CallsTell(c, reg, calls[1..], first.world);
      TranscriptAppend(c, first.log, rest.log);
    }
  }

  lemma {:induction false} LoopAsksInFull<W>(c: Codec, cfg: Config<W>, messages: seq<Message>, out: Outcome,
                                             src: Source, world: W, step: nat)
    requires cfg.registry.Valid()
    ensures AsksInFull(c, cfg, messages, Loop(c, cfg, messages, out, src, world, step).log)
    decreases cfg.Steps() + 1 - step, 1
  {
    if step > cfg.Steps() {
      AsksNothing(c, cfg, messages, Loop(c, cfg, messages, out, src, world, step).log);
    } else {
      var done := Completed(c, src, RequestOf(cfg, messages));
      var rest := Proceed(c, cfg, messages, out.(steps := step), done, world, step);
      CompletedAsks(c, cfg, messages, src);
      if done.result.Err? {
        AsksNothing(c, cfg, messages + Transcript(c, done.log), rest.log);
      } else {
        ProceedAsksInFull(c, cfg, messages, out.(steps := step), done, world, step);
      }
      AsksMore(c, cfg, messages, done.log, rest.log);
    }
  }

  /** After an answer the conversation goes on from what the assistant said. */
  lemma {:induction false} ProceedAsksInFull<W>(c: Codec, cfg: Config<W>, messages: seq<Message>, out: Outcome,
                                                done: Completion, world: W, step: nat)
    requires cfg.registry.Valid() && step <= cfg.Steps() && done.result.Ok?
    ensures var resp := done.result.value;
            AsksInFull(c, cfg, messages + [Message(Assistant, resp.text, resp.toolCalls, "", false)],
                       Proceed(c, cfg, messages, out, done, world, step).log)
    decreases cfg.Steps() + 1 - step, 0
  {
    var resp := done.result.value;
    var said := messages + [Message(Assistant, resp.text, resp.toolCalls, "", false)];
    if Stops(c, cfg, resp, world) {
      StopsHere(c, cfg, messages, out, done, world, step);
      AsksNothing(c, cfg, said, Proceed(c, cfg, messages, out, done, world, step).log);
    } else {
      var next := NextRound(c, cfg, messages, out, resp, world);
      GoesOn(c, cfg, messages, out, done, world, step);
      CallsTell(c, cfg.registry, resp.toolCalls, world);
      AsksNothing(c, cfg, said, next.log);
      LoopAsksInFull(c, cfg, next.messages, next.out, done.source, next.world, step + 1);
      assert next.messages == said + Transcript(c, next.log);
      AsksMore(c, cfg, said, next.log,
               Loop(c, cfg, next.messages, next.out, done.source, next.world, step + 1).log);
    }
  }

  /** Every request of a turn carries the agent's settings and tools, and its messages are
      exactly what the journal tells up to that request; and the journal opens with the
      prompt, the settings and the names of those tools. */
  lemma {:induction false} EveryRequestInFull<W>(c: Codec, cfg: Config<W>, prompt: string, src: Source, world: W)
    requires cfg.registry.Valid() && cfg.model != ""
    ensures var log := Run(c, cfg, prompt, src, world).log;
            && log != [] && log[0] == TurnStart(prompt, cfg.model, cfg.system, cfg.registry.order, cfg.env)
            && forall i | 0 <= i < |log| && log[i].ModelRequest? ::
                 Carries(cfg, log[i].request) && log[i].request.messages == Transcript(c, log[..i])
  {
    var start, asked := [StartOf(cfg, prompt)], [Message(User, prompt, [], "", false)];
    var rest := Loop(c, cfg, [UserSaid(prompt)], NoOutcome, src, world, 1);
    var log := Run(c, cfg, prompt, src, world).log;
    TranscriptOfOne(c, start[0]);
    AsksNothing(c, cfg, [], start);
    LoopAsksInFull(c, cfg, [UserSaid(prompt)], NoOutcome, src, world, 1);
    assert [] + Transcript(c, start) == asked;
    AsksMore(c, cfg, [], start, rest.log);
    assert log == start + rest.log;
    forall i | 0 <= i < |log| && log[i].ModelRequest?
      ensures Carries(cfg, log[i].request) && log[i].request.messages == Transcript(c, log[..i])
    {
      assert AskedInFull(c, cfg, [], log, i);
      assert [] + Transcript(c, log[..i]) == Transcript(c, log[..i]);
    }
  }
}
