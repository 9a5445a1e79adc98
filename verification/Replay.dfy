/** What a replay is worth: the loop over a cassette against the loop over the
    live provider the cassette was recorded from.

    Relates internal/agent/agent.go, internal/llm/record.go and
    internal/journal/replay.go. */
module Replay {
  import opened Prelude
  import opened Journal
  import opened JournalWriter
  import opened Llm
  import opened Recording
  import opened AgentLoop

  predicate IsModelKind(kind: Kind) {
    kind == KindModelRequest || kind == KindModelResponse
  }

  predicate ModelFree(log: seq<Payload>) {
    forall p | p in log :: !IsModelKind(KindOf(p)) && !p.ProviderError?
  }

  /** The exchanges a log holds, seen as a cassette would extract them. */
  function ExchangesOf(c: Codec, log: seq<Payload>): seq<Exchange> {
    Exchanges(Lines(c, log), None)
  }

  lemma {:induction false} ExchangesSkip(c: Codec, log: seq<Payload>, rest: seq<Payload>)
    requires ModelFree(log)
    ensures ExchangesOf(c, log + rest) == ExchangesOf(c, rest)
    decreases |log|
  {
    if log == [] {
      assert log + rest == rest;
    } else {
      assert log[0] in log;
      assert Lines(c, log + rest)[1..] == Lines(c, log[1..] + rest);
      ExchangesSkip(c, log[1..], rest);
    }
  }

  lemma ExchangesPair(c: Codec, req: Request, answer: Payload, rest: seq<Payload>)
    requires Lawful(c) && KindOf(answer) == KindModelResponse
    ensures ExchangesOf(c, [ModelRequest(req), answer] + rest)
         == [Exchange(Some(c.marshal(ModelRequest(req))), c.marshal(answer))] + ExchangesOf(c, rest)
  {
    var lines := Lines(c, [ModelRequest(req), answer] + rest);
    var request := c.marshal(ModelRequest(req));
    assert lines[1..][1..] == Lines(c, rest);
    assert lines[0] == Line(KindModelRequest, request) && lines[1..][0] == Line(KindModelResponse, c.marshal(answer));
    assert Exchanges(lines, None) == Exchanges(lines[1..], Some(request));
  }

  lemma {:induction false} CallsAreModelFree<W>(c: Codec, reg: Registry<W>, calls: seq<ToolCall>, world: W)
    ensures ModelFree(RunCalls(c, reg, calls, world).log)
    decreases |calls|
  {
    if calls != [] {
      var first := RunCall(c, reg, calls[0], world);
      if first.error.None? {
        CallsAreModelFree(c, reg, calls[1..], first.world);
      }
    }
  }

  predicate Refused(log: seq<Payload>) {
    exists p | p in log :: p.ProviderError?
  }

  lemma RefusedAppend(a: seq<Payload>, b: seq<Payload>)
    ensures Refused(a + b) <==> Refused(a) || Refused(b)
  {
    assert forall p :: p in a + b <==> p in a || p in b;
  }

  /** Two runs that journal the same bytes and end alike. */
  ghost predicate SameRun<W>(c: Codec, a: Ran<W>, b: Ran<W>) {
    && Lines(c, a.log) == Lines(c, b.log)
    && a.out == b.out && a.world == b.world && a.error == b.error
  }

  lemma SameRunAfter<W>(c: Codec, xs: seq<Payload>, a: Ran<W>, ys: seq<Payload>, b: Ran<W>)
    requires SameRun(c, a, b) && Lines(c, xs) == Lines(c, ys)
    ensures SameRun(c, a.After(xs), b.After(ys))
  {
    LinesAppend(c, xs, a.log);
    LinesAppend(c, ys, b.log);
  }

  /** The tape at position k holds exactly what the live run will still record. */
  ghost predicate Cued<W>(c: Codec, live: Ran<W>, exchanges: seq<Exchange>, k: nat) {
    k <= |exchanges| && exchanges[k..] == ExchangesOf(c, live.log)
  }

  /** An answered step that is the turn's last. */
  predicate Stops<W>(c: Codec, cfg: Config<W>, resp: Response, world: W) {
    Validate(resp).Some? || resp.toolCalls == [] || RunCalls(c, cfg.registry, resp.toolCalls, world).error.Some?
  }

  /** What the next step starts from otherwise. */
  datatype Onward<W> = Onward(log: seq<Payload>, messages: seq<Message>, out: Outcome, world: W)

  function NextRound<W>(c: Codec, cfg: Config<W>, messages: seq<Message>, out: Outcome,
                        resp: Response, world: W): Onward<W> {
    var ran := RunCalls(c, cfg.registry, resp.toolCalls, world);
    Onward(ran.log, messages + [AssistantSaid(resp)] + ran.messages,
          out.(usage := out.usage.Plus(resp.usage), toolCalls := out.toolCalls + |ran.messages|), ran.world)
  }

  lemma StopsHere<W>(c: Codec, cfg: Config<W>, messages: seq<Message>, out: Outcome,
                     done: Completion, world: W, step: nat)
    requires cfg.registry.Valid() && step <= cfg.Steps()
    requires done.result.Ok? && Stops(c, cfg, done.result.value, world)
    ensures var ran := Proceed(c, cfg, messages, out, done, world, step);
            && ModelFree(ran.log) && !Refused(ran.log) && ran.source == done.source
            && forall other: Completion {:trigger Proceed(c, cfg, messages, out, other, world, step)} |
                 other.result == done.result ::
                 Proceed(c, cfg, messages, out, other, world, step) == ran.(source := other.source)
  {
    CallsAreModelFree(c, cfg.registry, done.result.value.toolCalls, world);
  }

  lemma GoesOn<W>(c: Codec, cfg: Config<W>, messages: seq<Message>, out: Outcome,
                  done: Completion, world: W, step: nat)
    requires cfg.registry.Valid() && step <= cfg.Steps()
    requires done.result.Ok? && !Stops(c, cfg, done.result.value, world)
    ensures var next := NextRound(c, cfg, messages, out, done.result.value, world);
            && ModelFree(next.log) && !Refused(next.log)
            && Proceed(c, cfg, messages, out, done, world, step)
               == Loop(c, cfg, next.messages, next.out, done.source, next.world, step + 1).After(next.log)
  {
    CallsAreModelFree(c, cfg.registry, done.result.value.toolCalls, world);
  }

  /** With no refused call, the loop over the tape is the loop over the provider,
      and it uses the tape up. */
  lemma {:induction false} LoopReplays<W>(c: Codec, cfg: Config<W>, messages: seq<Message>, out: Outcome,
                                          live: Source, world: W, step: nat,
                                          turn: string, exchanges: seq<Exchange>, k: nat)
    requires Lawful(c) && cfg.registry.Valid() && live.Live?
    requires Cued(c, Loop(c, cfg, messages, out, live, world, step), exchanges, k)
    requires !Refused(Loop(c, cfg, messages, out, live, world, step).log)
    ensures var tape := Loop(c, cfg, messages, out, Tape(turn, exchanges, k, true), world, step);
            && SameRun(c, tape, Loop(c, cfg, messages, out, live, world, step))
            && tape.source == Tape(turn, exchanges, |exchanges|, true)
    decreases cfg.Steps() + 1 - step
  {
    var recorded := Loop(c, cfg, messages, out, live, world, step);
    var tapeSource := Tape(turn, exchanges, k, true);
    if step > cfg.Steps() {
      assert ModelFree(recorded.log) && recorded.log + [] == recorded.log;
      ExchangesSkip(c, recorded.log, []);
    } else {
      var req := RequestOf(cfg, messages);
      var done, played := Completed(c, live, req), Completed(c, tapeSource, req);
      var out' := out.(steps := step);
      var rest := Proceed(c, cfg, messages, out', done, world, step);
      RefusedAppend(done.log, rest.log);
      assert done.log[1] in done.log;
      ExchangesPair(c, req, done.log[1], rest.log);
      assert exchanges[k..][1..] == exchanges[k + 1..];
      assert exchanges[k] == ExchangesOf(c, recorded.log)[0];
      assert played.result == done.result && Lines(c, played.log) == Lines(c, done.log);
      var tail := Proceed(c, cfg, messages, out', played, world, step);
      ProceedReplays(c, cfg, messages, out', done, played, world, step, turn, exchanges, k + 1);
      SameRunAfter(c, played.log, tail, done.log, rest);
    }
  }

  lemma {:induction false} ProceedReplays<W>(c: Codec, cfg: Config<W>, messages: seq<Message>, out: Outcome,
                                             done: Completion, played: Completion, world: W, step: nat,
                                             turn: string, exchanges: seq<Exchange>, k: nat)
    requires Lawful(c) && cfg.registry.Valid() && step <= cfg.Steps()
    requires done.source.Live? && played.source == Tape(turn, exchanges, k, true)
    requires done.result.Ok? && played.result == done.result
    requires Cued(c, Proceed(c, cfg, messages, out, done, world, step), exchanges, k)
    requires !Refused(Proceed(c, cfg, messages, out, done, world, step).log)
    ensures var tape := Proceed(c, cfg, messages, out, played, world, step);
            && SameRun(c, tape, Proceed(c, cfg, messages, out, done, world, step))
            && tape.source == Tape(turn, exchanges, |exchanges|, true)
    decreases cfg.Steps() + 1 - step, 0
  {
    var recorded := Proceed(c, cfg, messages, out, done, world, step);
    if Stops(c, cfg, done.result.value, world) {
      StopsHere(c, cfg, messages, out, done, world, step);
      StopsHere(c, cfg, messages, out, played, world, step);
      ExchangesSkip(c, recorded.log, []);
      assert recorded.log + [] == recorded.log;
    } else {
      var next := NextRound(c, cfg, messages, out, done.result.value, world);
      var rest := Loop(c, cfg, next.messages, next.out, done.source, next.world, step + 1);
      GoesOn(c, cfg, messages, out, done, world, step);
      GoesOn(c, cfg, messages, out, played, world, step);
      ExchangesSkip(c, next.log, rest.log);
      RefusedAppend(next.log, rest.log);
      LoopReplays(c, cfg, next.messages, next.out, done.source, next.world, step + 1, turn, exchanges, k);
      var tail := Loop(c, cfg, next.messages, next.out, played.source, next.world, step + 1);
      SameRunAfter(c, next.log, tail, next.log, rest);
    }
  }

  /** A refused call leaves no response behind: the tape runs dry at exactly that
      call, and the replay's stream is one event short. */
  lemma {:induction false} LoopRunsDry<W>(c: Codec, cfg: Config<W>, messages: seq<Message>, out: Outcome,
                                          live: Source, world: W, step: nat,
                                          turn: string, exchanges: seq<Exchange>, k: nat)
    requires Lawful(c) && cfg.registry.Valid() && live.Live?
    requires Cued(c, Loop(c, cfg, messages, out, live, world, step), exchanges, k)
    requires Refused(Loop(c, cfg, messages, out, live, world, step).log)
    ensures var tape := Loop(c, cfg, messages, out, Tape(turn, exchanges, k, true), world, step);
            && |tape.log| + 1 == |Loop(c, cfg, messages, out, live, world, step).log|
            && tape.error == Some(CassetteExhausted(turn, |exchanges|))
            && Loop(c, cfg, messages, out, live, world, step).error.Some?
    decreases cfg.Steps() + 1 - step
  {
    var recorded := Loop(c, cfg, messages, out, live, world, step);
    if step <= cfg.Steps() {
      var req := RequestOf(cfg, messages);
      var done, played := Completed(c, live, req), Completed(c, Tape(turn, exchanges, k, true), req);
      var out' := out.(steps := step);
      var rest := Proceed(c, cfg, messages, out', done, world, step);
      RefusedAppend(done.log, rest.log);
      if done.result.Err? {
        RefusedCallDries(c, cfg, messages, out, live, world, step, turn, exchanges, k);
      } else {
        var resp := done.result.value;
        var more := Proceed(c, cfg, messages, out', played, world, step);
        ExchangesPair(c, req, ModelResponse(resp), rest.log);
        assert exchanges[k..][1..] == exchanges[k + 1..];
        assert exchanges[k] == ExchangesOf(c, recorded.log)[0];
        assert played.result == done.result && |played.log| == |done.log| == 2;
        assert Loop(c, cfg, messages, out, Tape(turn, exchanges, k, true), world, step) == more.After(played.log);
        ProceedRunsDry(c, cfg, messages, out', done, played, world, step, turn, exchanges, k + 1);
      }
    }
  }

  lemma {:induction false} ProceedRunsDry<W>(c: Codec, cfg: Config<W>, messages: seq<Message>, out: Outcome,
                                             done: Completion, played: Completion, world: W, step: nat,
                                             turn: string, exchanges: seq<Exchange>, k: nat)
    requires Lawful(c) && cfg.registry.Valid() && step <= cfg.Steps()
    requires done.source.Live? && played.source == Tape(turn, exchanges, k, true)
    requires done.result.Ok? && played.result == done.result
    requires Cued(c, Proceed(c, cfg, messages, out, done, world, step), exchanges, k)
    requires Refused(Proceed(c, cfg, messages, out, done, world, step).log)
    ensures var tape := Proceed(c, cfg, messages, out, played, world, step);
            && |tape.log| + 1 == |Proceed(c, cfg, messages, out, done, world, step).log|
            && tape.error == Some(CassetteExhausted(turn, |exchanges|))
            && Proceed(c, cfg, messages, out, done, world, step).error.Some?
    decreases cfg.Steps() + 1 - step, 0
  {
    if Stops(c, cfg, done.result.value, world) {
      StopsHere(c, cfg, messages, out, done, world, step);
    }
    var next := NextRound(c, cfg, messages, out, done.result.value, world);
    var rest := Loop(c, cfg, next.messages, next.out, done.source, next.world, step + 1);
    GoesOn(c, cfg, messages, out, done, world, step);
    GoesOn(c, cfg, messages, out, played, world, step);
    ExchangesSkip(c, next.log, rest.log);
    RefusedAppend(next.log, rest.log);
    LoopRunsDry(c, cfg, next.messages, next.out, done.source, next.world, step + 1, turn, exchanges, k);
  }

  lemma RefusedCallDries<W>(c: Codec, cfg: Config<W>, messages: seq<Message>, out: Outcome,
                            live: Source, world: W, step: nat,
                            turn: string, exchanges: seq<Exchange>, k: nat)
    requires Lawful(c) && cfg.registry.Valid() && live.Live? && step <= cfg.Steps()
    requires Completed(c, live, RequestOf(cfg, messages)).result.Err?
    requires Cued(c, Loop(c, cfg, messages, out, live, world, step), exchanges, k)
    ensures var tape := Loop(c, cfg, messages, out, Tape(turn, exchanges, k, true), world, step);
            && |tape.log| + 1 == |Loop(c, cfg, messages, out, live, world, step).log|
            && tape.error == Some(CassetteExhausted(turn, |exchanges|))
            && Loop(c, cfg, messages, out, live, world, step).error.Some?
  {
    var done := Completed(c, live, RequestOf(cfg, messages));
    var rest := Proceed(c, cfg, messages, out.(steps := step), done, world, step);
    assert |done.log| == |rest.log| == 2;
    OnlyRequestUnanswered(c, done.log + rest.log);
    assert |exchanges[k..]| == 0;
  }

  lemma OnlyRequestUnanswered(c: Codec, log: seq<Payload>)
    requires |log| == 4 && log[0].ModelRequest? && log[1].ProviderError? && log[2].LoopError? && log[3].TurnEnd?
    ensures ExchangesOf(c, log) == []
  {
    var lines := Lines(c, log);
    var pending := Pending(lines[0].body);
    assert lines[1..][1..][1..][1..] == [];
    assert Exchanges(lines[1..][1..][1..], pending) == [];
    assert Exchanges(lines[1..][1..], pending) == [];
    assert Exchanges(lines[1..], pending) == [];
  }

  // ---------------------------------------------------------------- whole turns

  /** Re-running a recorded turn over its own cassette, with the same settings,
      tools and world, reproduces it byte for byte exactly when no call to the
      provider had failed. */
  lemma ReplayReproducesExactly<W>(c: Codec, cfg: Config<W>, prompt: string, live: Source, world: W, turn: string)
    requires Lawful(c) && cfg.registry.Valid() && cfg.model != "" && live.Live?
    ensures var recorded := Run(c, cfg, prompt, live, world);
            var exchanges := ExchangesOf(c, recorded.log);
            var replayed := Run(c, cfg, prompt, Tape(turn, exchanges, 0, true), world);
            && (Lines(c, replayed.log) == Lines(c, recorded.log) <==> !Refused(recorded.log))
            && (!Refused(recorded.log) ==>
                  SameRun(c, replayed, recorded) && exchanges != []
                  && replayed.source == Tape(turn, exchanges, |exchanges|, true))
            && (Refused(recorded.log) ==>
                  recorded.error.Some? && replayed.error == Some(CassetteExhausted(turn, |exchanges|)))
  {
    var start, messages := [StartOf(cfg, prompt)], [UserSaid(prompt)];
    var rest := Loop(c, cfg, messages, NoOutcome, live, world, 1);
    var recorded := Run(c, cfg, prompt, live, world);
    var exchanges := ExchangesOf(c, recorded.log);
    var tail := Loop(c, cfg, messages, NoOutcome, Tape(turn, exchanges, 0, true), world, 1);
    ExchangesSkip(c, start, rest.log);
    RefusedAppend(start, rest.log);
    if Refused(rest.log) {
      LoopRunsDry(c, cfg, messages, NoOutcome, live, world, 1, turn, exchanges, 0);
      assert |Lines(c, start + tail.log)| != |Lines(c, recorded.log)|;
    } else {
      LoopReplays(c, cfg, messages, NoOutcome, live, world, 1, turn, exchanges, 0);
      SameRunAfter(c, start, tail, start, rest);
      AnsweredAtLeastOnce(c, cfg, messages, live, world);
    }
  }

  lemma AnsweredAtLeastOnce<W>(c: Codec, cfg: Config<W>, messages: seq<Message>, live: Source, world: W)
    requires Lawful(c) && cfg.registry.Valid() && live.Live?
    requires !Refused(Loop(c, cfg, messages, NoOutcome, live, world, 1).log)
    ensures ExchangesOf(c, Loop(c, cfg, messages, NoOutcome, live, world, 1).log) != []
  {
    var done := Completed(c, live, RequestOf(cfg, messages));
    var rest := Proceed(c, cfg, messages, NoOutcome.(steps := 1), done, world, 1);
    RefusedAppend(done.log, rest.log);
    assert done.log[1] in done.log;
    ExchangesPair(c, RequestOf(cfg, messages), done.log[1], rest.log);
  }

  // ---------------------------------------------------------------- strictness

  /** What a strict tape promises of any run that ends without an error, whatever
      its settings, tools and world: it served as many exchanges as the run
      journaled, in order, and each request it answered is the recorded one. */
  ghost predicate ServedInOrder(exchanges: seq<Exchange>, k: nat, journaled: seq<Exchange>) {
    && k + |journaled| <= |exchanges|
    && forall i | 0 <= i < |journaled| && exchanges[k + i].request.Some? ::
         journaled[i].request == exchanges[k + i].request
  }

  lemma {:induction false} LoopServesInOrder<W>(c: Codec, cfg: Config<W>, messages: seq<Message>, out: Outcome,
                                                turn: string, exchanges: seq<Exchange>, k: nat,
                                                world: W, step: nat)
    requires Lawful(c) && cfg.registry.Valid() && k <= |exchanges|
    requires Loop(c, cfg, messages, out, Tape(turn, exchanges, k, true), world, step).error.None?
    ensures var ran := Loop(c, cfg, messages, out, Tape(turn, exchanges, k, true), world, step);
            && ServedInOrder(exchanges, k, ExchangesOf(c, ran.log))
            && ran.source == Tape(turn, exchanges, k + |ExchangesOf(c, ran.log)|, true)
    decreases cfg.Steps() + 1 - step
  {
    var req := RequestOf(cfg, messages);
    var done := Completed(c, Tape(turn, exchanges, k, true), req);
    var out' := out.(steps := step);
    var rest := Proceed(c, cfg, messages, out', done, world, step);
    assert done.result.Ok? && done.source == Tape(turn, exchanges, k + 1, true);
    ExchangesPair(c, req, done.log[1], rest.log);
    ProceedServesInOrder(c, cfg, messages, out', done, turn, exchanges, k + 1, world, step);
    ServedOneMore(exchanges, k, Exchange(Some(c.marshal(ModelRequest(req))), c.marshal(done.log[1])),
                  ExchangesOf(c, rest.log));
  }

  lemma ServedOneMore(exchanges: seq<Exchange>, k: nat, first: Exchange, later: seq<Exchange>)
    requires k < |exchanges| && ServedInOrder(exchanges, k + 1, later)
    requires exchanges[k].request.Some? ==> first.request == exchanges[k].request
    ensures ServedInOrder(exchanges, k, [first] + later)
  {
    forall i | 0 <= i < |[first] + later| && exchanges[k + i].request.Some?
      ensures ([first] + later)[i].request == exchanges[k + i].request
    {
      if i > 0 {
        assert exchanges[k + 1 + (i - 1)].request.Some?;
      }
    }
  }

  lemma {:induction false} ProceedServesInOrder<W>(c: Codec, cfg: Config<W>, messages: seq<Message>, out: Outcome,
                                                   done: Completion, turn: string, exchanges: seq<Exchange>, k: nat,
                                                   world: W, step: nat)
    requires Lawful(c) && cfg.registry.Valid() && step <= cfg.Steps() && k <= |exchanges|
    requires done.result.Ok? && done.source == Tape(turn, exchanges, k, true)
    requires Proceed(c, cfg, messages, out, done, world, step).error.None?
    ensures var ran := Proceed(c, cfg, messages, out, done, world, step);
            && ServedInOrder(exchanges, k, ExchangesOf(c, ran.log))
            && ran.source == Tape(turn, exchanges, k + |ExchangesOf(c, ran.log)|, true)
    decreases cfg.Steps() + 1 - step, 0
  {
    var ran := Proceed(c, cfg, messages, out, done, world, step);
    if Stops(c, cfg, done.result.value, world) {
      StopsHere(c, cfg, messages, out, done, world, step);
      ExchangesSkip(c, ran.log, []);
      assert ran.log + [] == ran.log;
    } else {
      var next := NextRound(c, cfg, messages, out, done.result.value, world);
      GoesOn(c, cfg, messages, out, done, world, step);
      var more := Loop(c, cfg, next.messages, next.out, done.source, next.world, step + 1);
      ExchangesSkip(c, next.log, more.log);
      LoopServesInOrder(c, cfg, next.messages, next.out, turn, exchanges, k, next.world, step + 1);
    }
  }

  lemma RunServesInOrder<W>(c: Codec, cfg: Config<W>, prompt: string, turn: string,
                            exchanges: seq<Exchange>, world: W)
    requires Lawful(c) && cfg.registry.Valid()
    requires Run(c, cfg, prompt, Tape(turn, exchanges, 0, true), world).error.None?
    ensures var ran := Run(c, cfg, prompt, Tape(turn, exchanges, 0, true), world);
            && ServedInOrder(exchanges, 0, ExchangesOf(c, ran.log))
            && ran.source == Tape(turn, exchanges, |ExchangesOf(c, ran.log)|, true)
  {
    var rest := Loop(c, cfg, [UserSaid(prompt)], NoOutcome, Tape(turn, exchanges, 0, true), world, 1);
    ExchangesSkip(c, [StartOf(cfg, prompt)], rest.log);
    LoopServesInOrder(c, cfg, [UserSaid(prompt)], NoOutcome, turn, exchanges, 0, world, 1);
  }

  /** Every turn with a model ends its log with the totals it reports. */
  lemma {:induction false} LoopCloses<W>(c: Codec, cfg: Config<W>, messages: seq<Message>, out: Outcome,
                                         src: Source, world: W, step: nat)
    requires cfg.registry.Valid()
    ensures var ran := Loop(c, cfg, messages, out, src, world, step);
            && ran.log != []
            && ran.log[|ran.log| - 1] == TurnEnd(if ran.error.None? then "end" else "error",
                                                 ran.out.steps, ran.out.toolCalls, ran.out.usage)
    decreases cfg.Steps() + 1 - step
  {
    if step <= cfg.Steps() {
      var done := Completed(c, src, RequestOf(cfg, messages));
      var out' := out.(steps := step);
      if done.result.Ok? {
        if Stops(c, cfg, done.result.value, world) {
        } else {
          var next := NextRound(c, cfg, messages, out', done.result.value, world);
          GoesOn(c, cfg, messages, out', done, world, step);
          LoopCloses(c, cfg, next.messages, next.out, done.source, next.world, step + 1);
        }
      }
    }
  }

  /** A log that ends with the response its run took the answer from. */
  ghost predicate Concludes(c: Codec, log: seq<Payload>, text: string) {
    && |log| >= 2
    && KindOf(log[|log| - 2]) == KindModelResponse
    && match c.unmarshal(KindModelResponse, c.marshal(log[|log| - 2]))
       case Some(ModelResponse(resp)) => resp.text == text
       case _ => false
  }

  lemma {:induction false} LoopConcludes<W>(c: Codec, cfg: Config<W>, messages: seq<Message>, out: Outcome,
                                            src: Source, world: W, step: nat)
    requires Lawful(c) && cfg.registry.Valid()
    requires Loop(c, cfg, messages, out, src, world, step).error.None?
    ensures var ran := Loop(c, cfg, messages, out, src, world, step);
            Concludes(c, ran.log, ran.out.text)
    decreases cfg.Steps() + 1 - step
  {
    var done := Completed(c, src, RequestOf(cfg, messages));
    var out' := out.(steps := step);
    var resp := done.result.value;
    assert c.unmarshal(KindModelResponse, c.marshal(done.log[1])) == Some(ModelResponse(resp));
    if Stops(c, cfg, resp, world) {
      var rest := Proceed(c, cfg, messages, out', done, world, step);
      assert |rest.log| == 1 && (done.log + rest.log)[1] == done.log[1];
    } else {
      var next := NextRound(c, cfg, messages, out', resp, world);
      var more := Loop(c, cfg, next.messages, next.out, done.source, next.world, step + 1);
      GoesOn(c, cfg, messages, out', done, world, step);
      LoopConcludes(c, cfg, next.messages, next.out, done.source, next.world, step + 1);
      ConcludesAfter(c, next.log, more.log, more.out.text);
      ConcludesAfter(c, done.log, next.log + more.log, more.out.text);
    }
  }

  lemma ConcludesAfter(c: Codec, earlier: seq<Payload>, log: seq<Payload>, text: string)
    requires Concludes(c, log, text)
    ensures Concludes(c, earlier + log, text)
  {
    assert (earlier + log)[|earlier + log| - 2] == log[|log| - 2];
  }
}
