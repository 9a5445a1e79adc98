/** The conversations the agent loop can build, which are the ones the provider
    adapters are asked to translate. */
module Conversation {
  import opened Prelude
  import opened Journal
  import opened Llm
  import opened Recording
  import opened AgentLoop
  import opened Replay

  /** One round: what the assistant said and the results fed back for it. */
  datatype Round = Round(said: Message, results: seq<Message>)

  predicate Usable(call: ToolCall) {
    call.id != "" && call.name != ""
  }

  predicate RoundOk(r: Round) {
    && r.said.role == Assistant && r.said.toolCallID == "" && !r.said.isError
    && r.said.toolCalls != []
    && (forall i | 0 <= i < |r.said.toolCalls| :: Usable(r.said.toolCalls[i]))
    && |r.results| == |r.said.toolCalls|
    && forall i | 0 <= i < |r.results| ::
         r.results[i] == Message(ToolResult, r.results[i].text, [], r.said.toolCalls[i].id, r.results[i].isError)
  }

  predicate RoundsOk(rounds: seq<Round>) {
    forall i | 0 <= i < |rounds| :: RoundOk(rounds[i])
  }

  /** The messages of a conversation, in order. */
  function Messages(prompt: string, rounds: seq<Round>): seq<Message>
    decreases |rounds|
  {
    if rounds == [] then [UserSaid(prompt)]
    else
      var last := rounds[|rounds| - 1];
      Messages(prompt, rounds[..|rounds| - 1]) + ([last.said] + last.results)
  }

  /** Something every response's calls may be known to satisfy. */
  type CallsLaw = seq<ToolCall> -> bool

  ghost predicate Obey(law: CallsLaw, rounds: seq<Round>) {
    forall i | 0 <= i < |rounds| :: law(rounds[i].said.toolCalls)
  }

  ghost predicate LoopBuilt(law: CallsLaw, prompt: string, messages: seq<Message>) {
    exists rounds: seq<Round> :: RoundsOk(rounds) && Obey(law, rounds) && messages == Messages(prompt, rounds)
  }

  lemma RoundsOkMore(law: CallsLaw, rounds: seq<Round>, round: Round)
    requires RoundsOk(rounds) && RoundOk(round) && Obey(law, rounds) && law(round.said.toolCalls)
    ensures RoundsOk(rounds + [round]) && Obey(law, rounds + [round])
  {
  }

  lemma MessagesMore(prompt: string, rounds: seq<Round>, round: Round)
    ensures Messages(prompt, rounds + [round]) == Messages(prompt, rounds) + [round.said] + round.results
  {
    var more := rounds + [round];
    assert more[..|more| - 1] == rounds;
    var before := Messages(prompt, rounds);
    assert before + ([round.said] + round.results) == before + [round.said] + round.results;
  }

  lemma LoopBuiltMore(law: CallsLaw, prompt: string, messages: seq<Message>, round: Round)
    requires LoopBuilt(law, prompt, messages) && RoundOk(round) && law(round.said.toolCalls)
    ensures LoopBuilt(law, prompt, messages + [round.said] + round.results)
  {
    var rounds: seq<Round> :| RoundsOk(rounds) && Obey(law, rounds) && messages == Messages(prompt, rounds);
    RoundsOkMore(law, rounds, round);
    MessagesMore(prompt, rounds, round);
  }

  /** Each call of a round that ran to its end is answered, in order. */
  lemma {:induction false} CallsAnswered<W>(c: Codec, reg: Registry<W>, calls: seq<ToolCall>, world: W)
    requires RunCalls(c, reg, calls, world).error.None?
    ensures var messages := RunCalls(c, reg, calls, world).messages;
            && |messages| == |calls|
            && forall i | 0 <= i < |calls| ::
                 messages[i] == Message(ToolResult, messages[i].text, [], calls[i].id, messages[i].isError)
    decreases |calls|
  {
    if calls != [] {
      CallsAnswered(c, reg, calls[1..], RunCall(c, reg, calls[0], world).world);
    }
  }

  ghost predicate RequestsBuilt(law: CallsLaw, prompt: string, log: seq<Payload>) {
    forall p | p in log && p.ModelRequest? :: LoopBuilt(law, prompt, p.request.messages)
  }

  lemma RequestsBuiltAppend(law: CallsLaw, prompt: string, xs: seq<Payload>, ys: seq<Payload>)
    requires RequestsBuilt(law, prompt, xs) && RequestsBuilt(law, prompt, ys)
    ensures RequestsBuilt(law, prompt, xs + ys)
  {
  }

  /** Every response a source can still give obeys the law. */
  ghost predicate Answers(c: Codec, src: Source, law: CallsLaw) {
    match src
    case Live(_, replies, _) => forall i: nat :: replies(i).Answer? ==> law(replies(i).response.toolCalls)
    case Tape(_, exchanges, _, _) =>
      forall i | 0 <= i < |exchanges| ::
        var decoded := c.unmarshal(KindModelResponse, exchanges[i].response);
        decoded.Some? && decoded.value.ModelResponse? ==> law(decoded.value.response.toolCalls)
  }

  lemma AnswersObey(c: Codec, src: Source, law: CallsLaw, req: Request)
    requires Answers(c, src, law)
    ensures var done := Completed(c, src, req);
            && Answers(c, done.source, law)
            && (done.result.Ok? ==> law(done.result.value.toolCalls))
            && forall p | p in done.log && p.ModelRequest? :: p.request == req
  {
  }

  lemma {:induction false} LoopBuildsConversations<W>(c: Codec, cfg: Config<W>, messages: seq<Message>, out: Outcome,
                                                      src: Source, world: W, step: nat, prompt: string, law: CallsLaw)
    requires cfg.registry.Valid() && LoopBuilt(law, prompt, messages) && Answers(c, src, law)
    ensures RequestsBuilt(law, prompt, Loop(c, cfg, messages, out, src, world, step).log)
    decreases cfg.Steps() + 1 - step
  {
    if step <= cfg.Steps() {
      var done := Completed(c, src, RequestOf(cfg, messages));
      var out' := out.(steps := step);
      var rest := Proceed(c, cfg, messages, out', done, world, step);
      AnswersObey(c, src, law, RequestOf(cfg, messages));
      if done.result.Ok? && Stops(c, cfg, done.result.value, world) {
        StopsHere(c, cfg, messages, out', done, world, step);
      } else if done.result.Ok? {
        var next := NextRound(c, cfg, messages, out', done.result.value, world);
        GoesOn(c, cfg, messages, out', done, world, step);
        RoundBuilt(c, cfg, messages, done.result.value, world, prompt, law);
        LoopBuildsConversations(c, cfg, next.messages, next.out, done.source, next.world, step + 1, prompt, law);
        RequestsBuiltAppend(law, prompt, next.log,
                            Loop(c, cfg, next.messages, next.out, done.source, next.world, step + 1).log);
      }
      RequestsBuiltAppend(law, prompt, done.log, rest.log);
    }
  }

  lemma RoundBuilt<W>(c: Codec, cfg: Config<W>, messages: seq<Message>, resp: Response, world: W,
                      prompt: string, law: CallsLaw)
    requires LoopBuilt(law, prompt, messages) && !Stops(c, cfg, resp, world) && law(resp.toolCalls)
    ensures LoopBuilt(law, prompt,
                      messages + [AssistantSaid(resp)] + RunCalls(c, cfg.registry, resp.toolCalls, world).messages)
  {
    CallsAnswered(c, cfg.registry, resp.toolCalls, world);
    LoopBuiltMore(law, prompt, messages,
                  Round(AssistantSaid(resp), RunCalls(c, cfg.registry, resp.toolCalls, world).messages));
  }

  /** Whatever a turn asks its provider is a conversation of this shape, built of
      responses its source can give. */
  lemma TurnsAskConversations<W>(c: Codec, cfg: Config<W>, prompt: string, src: Source, world: W, law: CallsLaw)
    requires cfg.registry.Valid() && Answers(c, src, law)
    ensures RequestsBuilt(law, prompt, Run(c, cfg, prompt, src, world).log)
  {
    assert RoundsOk([]) && Obey(law, []) && Messages(prompt, []) == [UserSaid(prompt)];
    LoopBuildsConversations(c, cfg, [UserSaid(prompt)], NoOutcome, src, world, 1, prompt, law);
  }
}
