/** One turn whose journal can fail to take an event.

    Models the error returns of Append in Run, runTool, journalResult, finish and fail
    of internal/agent/agent.go and in both Complete methods of internal/llm/record.go.
    Which appends fail is arbitrary. */
module Faults {
  import opened Prelude
  import opened Journal
  import opened JournalWriter
  import opened Llm
  import opened Recording
  import opened AgentLoop

  /** Whether the n-th append of a turn, counting from zero, fails on that payload. */
  type Outage = (nat, Payload) -> bool

  // Every function below extends the payloads a turn has tried to append so far.

  datatype Asked = Asked(log: seq<Payload>, source: Source, result: Result<Response, Failure>)

  function Ask(c: Codec, fails: Outage, log: seq<Payload>, src: Source, req: Request): Asked {
    var asked := log + [ModelRequest(req)];
    if fails(|log|, ModelRequest(req)) then Asked(asked, src, Err(NotJournaled(|log|)))
    else
      match src
      case Live(name, replies, used) => (
        var next := src.(used := used + 1);
        match replies(used)
        case Answer(resp) => Told(fails, asked, ModelResponse(resp), next, Ok(resp))
        case Refusal(msg) => Told(fails, asked, ProviderError(name, msg), next, Err(ProviderFailed(msg)))
      )
      case Tape(turn, exchanges, cursor, strict) =>
        if cursor >= |exchanges| then Asked(asked, src, Err(CassetteExhausted(turn, |exchanges|)))
        else
          var ex := exchanges[cursor];
          var next := src.(cursor := cursor + 1);
          var got := c.marshal(ModelRequest(req));
          if strict && ex.request.Some? && ex.request.value != got then
            Asked(asked, next, Err(RequestMismatch(cursor, ex.request.value, got)))
          else
            match c.unmarshal(KindModelResponse, ex.response)
            case Some(ModelResponse(resp)) => Told(fails, asked, Verbatim(ex.response), next, Ok(resp))
            case _ => Told(fails, asked, Verbatim(ex.response), next, Err(UndecodableResponse(cursor)))
  }

  /** The last payload of a call to the model comes before its result. */
  function Told(fails: Outage, log: seq<Payload>, p: Payload, src: Source, result: Result<Response, Failure>): Asked {
    Asked(log + [p], src, if fails(|log|, p) then Err(NotJournaled(|log|)) else result)
  }

  function Call<W>(c: Codec, fails: Outage, reg: Registry<W>, log: seq<Payload>, call: ToolCall, world: W)
    : CallsRan<W>
  {
    var called := log + [ToolCalled(call)];
    if fails(|log|, ToolCalled(call)) then CallsRan(called, [], world, Some(NotJournaled(|log|)))
    else if call.name !in reg.byName then
      Report(fails, called, call, c.missingTool(call.name, reg.Names()), true, world)
    else
      var (next, outcome) := reg.byName[call.name].run(world, call.args);
      match outcome
      case Broke(msg) => CallsRan(called, [], next, Some(ToolFailed(call.name, msg)))
      case Returned(content, isError) => Report(fails, called, call, content, isError, next)
  }

  function Report<W>(fails: Outage, log: seq<Payload>, call: ToolCall, content: string, isError: bool, world: W)
    : CallsRan<W>
  {
    var p := ToolReturned(call.id, call.name, content, isError);
    if fails(|log|, p) then CallsRan(log + [p], [], world, Some(NotJournaled(|log|)))
    else CallsRan(log + [p], [Message(ToolResult, content, [], call.id, isError)], world, None)
  }

  function Calls<W>(c: Codec, fails: Outage, reg: Registry<W>, log: seq<Payload>, calls: seq<ToolCall>, world: W)
    : CallsRan<W>
    decreases |calls|
  {
    if calls == [] then CallsRan(log, [], world, None)
    else
      var first := Call(c, fails, reg, log, calls[0], world);
      if first.error.Some? then first
      else
        var rest := Calls(c, fails, reg, first.log, calls[1..], first.world);
        rest.(messages := first.messages + rest.messages)
  }

  function Close<W>(fails: Outage, log: seq<Payload>, reason: string, out: Outcome, src: Source, world: W,
                    error: Option<Failure>): Ran<W>
  {
    var p := TurnEnd(reason, out.steps, out.toolCalls, out.usage);
    Ran(log + [p], out, src, world, if fails(|log|, p) then Some(NotJournaled(|log|)) else error)
  }

  function GiveUp<W>(fails: Outage, log: seq<Payload>, out: Outcome, src: Source, world: W,
                     stage: string, f: Failure): Ran<W>
  {
    var p := LoopError(stage, f);
    if fails(|log|, p) then Ran(log + [p], out, src, world, Some(NotJournaled(|log|)))
    else Close(fails, log + [p], "error", out, src, world, Some(f))
  }

  /** The loop from the given step on. */
  function Steps<W>(c: Codec, fails: Outage, cfg: Config<W>, log: seq<Payload>, messages: seq<Message>, out: Outcome,
                    src: Source, world: W, step: nat): Ran<W>
    requires cfg.registry.Valid()
    decreases cfg.Steps() + 1 - step
  {
    if step > cfg.Steps() then GiveUp(fails, log, out, src, world, "loop", StepLimit(cfg.Steps()))
    else
      var asked := Ask(c, fails, log, src, RequestOf(cfg, messages));
      Answered(c, fails, cfg, messages, out.(steps := step), asked, world, step)
  }

  /** The rest of a step, once the model has answered or failed to. */
  function Answered<W>(c: Codec, fails: Outage, cfg: Config<W>, messages: seq<Message>, out: Outcome,
                       asked: Asked, world: W, step: nat): Ran<W>
    requires cfg.registry.Valid() && step <= cfg.Steps()
    decreases cfg.Steps() + 1 - step, 0
  {
    match asked.result
    case Err(f) => GiveUp(fails, asked.log, out, asked.source, world, "model", f)
    case Ok(resp) =>
      match Validate(resp)
      case Some(f) => GiveUp(fails, asked.log, out, asked.source, world, "model", f)
      case None =>
        var out' := out.(usage := out.usage.Plus(resp.usage));
        if resp.toolCalls == [] then
          Close(fails, asked.log, "end", out'.(text := resp.text), asked.source, world, None)
        else
          Worked(c, fails, cfg, messages + [AssistantSaid(resp)], out', asked.source, step,
                 Calls(c, fails, cfg.registry, asked.log, resp.toolCalls, world))
  }

  /** The rest of a step, once the tools have run or one of them broke. */
  function Worked<W>(c: Codec, fails: Outage, cfg: Config<W>, messages: seq<Message>, out: Outcome,
                     src: Source, step: nat, ran: CallsRan<W>): Ran<W>
    requires cfg.registry.Valid() && step <= cfg.Steps()
    decreases cfg.Steps() + 1 - step, 0, 0
  {
    var out' := out.(toolCalls := out.toolCalls + |ran.messages|);
    if ran.error.Some? then GiveUp(fails, ran.log, out', src, ran.world, "tool", ran.error.value)
    else Steps(c, fails, cfg, ran.log, messages + ran.messages, out', src, ran.world, step + 1)
  }

  /** One whole turn on a journal that may fail. */
  function Turn<W>(c: Codec, fails: Outage, cfg: Config<W>, prompt: string, src: Source, world: W): Ran<W>
    requires cfg.registry.Valid()
  {
    if cfg.model == "" then Ran([], NoOutcome, src, world, Some(NoModel))
    else
      var started := [StartOf(cfg, prompt)];
      if fails(0, StartOf(cfg, prompt)) then Ran(started, NoOutcome, src, world, Some(NotJournaled(0)))
      else Steps(c, fails, cfg, started, [UserSaid(prompt)], NoOutcome, src, world, 1)
  }

  // ---------------------------------------------------------------- the first failure

  /** Every append from the given one on would succeed. */
  ghost predicate AllTaken(fails: Outage, log: seq<Payload>, from: nat) {
    forall i | from <= i < |log| :: !fails(i, log[i])
  }

  ghost predicate FirstLost(fails: Outage, log: seq<Payload>, from: nat, k: nat) {
    && from <= k < |log| && fails(k, log[k])
    && forall i | from <= i < k :: !fails(i, log[i])
  }

  ghost function Earliest(fails: Outage, log: seq<Payload>, from: nat): (k: nat)
    requires !AllTaken(fails, log, from)
    ensures FirstLost(fails, log, from, k)
    decreases |log| - from
  {
    if fails(from, log[from]) then from else Earliest(fails, log, from + 1)
  }

  /** The appends after which nothing is left to report a failure with. */
  predicate Bracket(p: Payload) {
    p.TurnStart? || p.LoopError? || p.TurnEnd?
  }

  /** Where a turn got to whose first failing append is the k-th of `whole`: up to it
      everything is as it would have been. At a bracket the turn stops there; anywhere
      else the failure is reported by an error event and, unless that is not taken
      either, by the closing event. The last failure is the error returned, but a
      reported one is returned only if both of those were taken. */
  ghost predicate Broken<W>(fails: Outage, turned: Ran<W>, whole: seq<Payload>, k: nat)
    requires k < |whole|
  {
    && |turned.log| > k && turned.log[..k + 1] == whole[..k + 1]
    && if Bracket(whole[k]) then |turned.log| == k + 1 && turned.error == Some(NotJournaled(k))
       else
         && |turned.log| > k + 1 && turned.log[k + 1].LoopError? && turned.log[k + 1].failure == NotJournaled(k)
         && if fails(k + 1, turned.log[k + 1])
            then |turned.log| == k + 2 && turned.error == Some(NotJournaled(k + 1))
            else
              && |turned.log| == k + 3 && turned.log[k + 2].TurnEnd?
              && turned.error == Some(NotJournaled(if fails(k + 2, turned.log[k + 2]) then k + 2 else k))
  }

  /** A turn, or the rest of one after `log`, against what it is without failures. */
  ghost predicate Agrees<W>(fails: Outage, log: seq<Payload>, turned: Ran<W>, ran: Ran<W>) {
    var whole := log + ran.log;
    && (AllTaken(fails, whole, |log|) ==> turned == ran.(log := whole))
    && (forall k | FirstLost(fails, whole, |log|, k) :: Broken(fails, turned, whole, k))
  }

  ghost predicate Unbracketed(log: seq<Payload>) {
    forall i | 0 <= i < |log| :: !Bracket(log[i])
  }

  lemma {:induction false} AskAgrees(c: Codec, fails: Outage, log: seq<Payload>, src: Source, req: Request)
    ensures var asked, done := Ask(c, fails, log, src, req), Completed(c, src, req);
            var whole := log + done.log;
            && Unbracketed(done.log)
            && (AllTaken(fails, whole, |log|) ==> asked == Asked(whole, done.source, done.result))
            && (forall k | FirstLost(fails, whole, |log|, k) ::
                  asked.log == whole[..k + 1] && asked.result == Err(NotJournaled(k)))
  {
    var done := Completed(c, src, req);
    Extends(log, done.log);
  }

  /** A log of one or two payloads, appended one at a time. */
  lemma {:induction false} Extends(log: seq<Payload>, more: seq<Payload>)
    requires 1 <= |more| <= 2
    ensures (log + more)[|log|] == more[0] && (log + more)[..|log| + 1] == log + [more[0]]
    ensures |more| == 1 ==> log + more == log + [more[0]]
    ensures |more| == 2 ==> log + more == log + [more[0]] + [more[1]] && (log + more)[|log| + 1] == more[1]
    ensures (log + more)[..|log| + |more|] == log + more
  {
  }

  lemma CallAgrees<W>(c: Codec, fails: Outage, reg: Registry<W>, log: seq<Payload>, call: ToolCall, world: W)
    ensures Keeps(fails, log, Call(c, fails, reg, log, call, world), RunCall(c, reg, call, world))
  {
    Extends(log, RunCall(c, reg, call, world).log);
  }

  /** Tool calls after `log`, against what they are without failures. */
  ghost predicate Keeps<W>(fails: Outage, log: seq<Payload>, tried: CallsRan<W>, ran: CallsRan<W>) {
    var whole := log + ran.log;
    && Unbracketed(ran.log)
    && (AllTaken(fails, whole, |log|) ==> tried == ran.(log := whole))
    && (forall k | FirstLost(fails, whole, |log|, k) ::
          tried.log == whole[..k + 1] && tried.error == Some(NotJournaled(k)))
  }

  lemma {:induction false} CallsAgree<W>(c: Codec, fails: Outage, reg: Registry<W>, log: seq<Payload>,
                                         calls: seq<ToolCall>, world: W)
    ensures Keeps(fails, log, Calls(c, fails, reg, log, calls, world), RunCalls(c, reg, calls, world))
    decreases |calls|
  {
    if calls == [] {
      assert log + [] == log;
    } else {
      var tried, first := Call(c, fails, reg, log, calls[0], world), RunCall(c, reg, calls[0], world);
      CallAgrees(c, fails, reg, log, calls[0], world);
      KeepsErrors(fails, log, tried, first);
      if first.error.None? {
        var after := Calls(c, fails, reg, log + first.log, calls[1..], first.world);
        CallsAgree(c, fails, reg, log + first.log, calls[1..], first.world);
        KeepsAfter(fails, log, tried, first, after, RunCalls(c, reg, calls[1..], first.world));
      }
    }
  }

  lemma {:induction false} KeepsErrors<W>(fails: Outage, log: seq<Payload>, tried: CallsRan<W>, ran: CallsRan<W>)
    requires Keeps(fails, log, tried, ran)
    ensures tried.error.None? ==> tried == ran.(log := log + ran.log)
    ensures ran.error.Some? ==> tried.error.Some?
  {
    if !AllTaken(fails, log + ran.log, |log|) {
      var k := Earliest(fails, log + ran.log, |log|);
    }
  }

  lemma {:induction false} KeepsAfter<W>(fails: Outage, log: seq<Payload>, tried: CallsRan<W>, first: CallsRan<W>,
                      after: CallsRan<W>, rest: CallsRan<W>)
    requires Keeps(fails, log, tried, first) && first.error.None?
    requires Keeps(fails, log + first.log, after, rest)
    ensures Keeps(fails, log, if tried.error.Some? then tried else after.(messages := tried.messages + after.messages),
                  CallsRan(first.log + rest.log, first.messages + rest.messages, rest.world, rest.error))
  {
    var mid := log + first.log;
    Associates(log, first.log, rest.log);
    Splits(fails, log, first.log, rest.log);
    if !AllTaken(fails, mid, |log|) {
      var k := Earliest(fails, mid, |log|);
      assert (mid + rest.log)[..k + 1] == mid[..k + 1];
    }
  }

  /** The first failure of a longer log is that of its first part, or else of the rest. */
  lemma {:induction false} Splits(fails: Outage, log: seq<Payload>, now: seq<Payload>, rest: seq<Payload>)
    ensures var whole := log + now + rest;
            && (AllTaken(fails, log + now, |log|) ==>
                  && (AllTaken(fails, whole, |log|) <==> AllTaken(fails, whole, |log + now|))
                  && (forall k :: FirstLost(fails, whole, |log|, k) <==> FirstLost(fails, whole, |log + now|, k)))
            && (!AllTaken(fails, log + now, |log|) ==>
                  && !AllTaken(fails, whole, |log|)
                  && (forall k :: FirstLost(fails, whole, |log|, k) <==> FirstLost(fails, log + now, |log|, k)))
  {
    var mid, whole := log + now, log + now + rest;
    assert forall i | 0 <= i < |mid| :: whole[i] == mid[i];
    if !AllTaken(fails, mid, |log|) {
      var k := Earliest(fails, mid, |log|);
      assert FirstLost(fails, whole, |log|, k);
    }
  }

  // ---------------------------------------------------------------- the turn

  lemma {:induction false} CloseAgrees<W>(fails: Outage, log: seq<Payload>, out: Outcome, src: Source, world: W)
    ensures Agrees(fails, log, Close(fails, log, "end", out, src, world, None), Finish(out, src, world))
  {
    Extends(log, Finish(out, src, world).log);
  }

  lemma {:induction false} GiveUpAgrees<W>(fails: Outage, log: seq<Payload>, out: Outcome, src: Source, world: W,
                        stage: string, f: Failure)
    ensures Agrees(fails, log, GiveUp(fails, log, out, src, world, stage, f), Fail(out, src, world, stage, f))
  {
    Extends(log, Fail(out, src, world, stage, f).log);
  }

  /** What went well before the rest of a turn joins on to it. */
  lemma AgreesAfter<W>(fails: Outage, log: seq<Payload>, now: seq<Payload>, turned: Ran<W>, ran: Ran<W>)
    requires AllTaken(fails, log + now, |log|) && Agrees(fails, log + now, turned, ran)
    ensures Agrees(fails, log, turned, ran.After(now))
  {
    Associates(log, now, ran.log);
    Splits(fails, log, now, ran.log);
  }

  /** A failure ends the turn whatever was still to come. */
  lemma AgreesBroken<W>(fails: Outage, log: seq<Payload>, now: seq<Payload>, k: nat, out: Outcome, src: Source,
                        world: W, stage: string, ran: Ran<W>)
    requires FirstLost(fails, log + now, |log|, k) && Unbracketed(now)
    ensures Agrees(fails, log, GiveUp(fails, (log + now)[..k + 1], out, src, world, stage, NotJournaled(k)),
                   ran.After(now))
  {
    var mid := log + now;
    var turned := GiveUp(fails, mid[..k + 1], out, src, world, stage, NotJournaled(k));
    var whole := mid + ran.log;
    Associates(log, now, ran.log);
    Splits(fails, log, now, ran.log);
    assert whole[..k + 1] == mid[..k + 1];
    assert mid[k] == now[k - |log|];
    Extends(mid[..k + 1], Fail(out, src, world, stage, NotJournaled(k)).log);
    assert Broken(fails, turned, whole, k);
  }

  lemma {:induction false} StepsAgree<W>(c: Codec, fails: Outage, cfg: Config<W>, log: seq<Payload>,
                                         messages: seq<Message>, out: Outcome, src: Source, world: W, step: nat)
    requires cfg.registry.Valid()
    ensures Agrees(fails, log, Steps(c, fails, cfg, log, messages, out, src, world, step),
                   Loop(c, cfg, messages, out, src, world, step))
    decreases cfg.Steps() + 1 - step, 1
  {
    if step > cfg.Steps() {
      GiveUpAgrees(fails, log, out, src, world, "loop", StepLimit(cfg.Steps()));
    } else {
      var req, out' := RequestOf(cfg, messages), out.(steps := step);
      var asked, done := Ask(c, fails, log, src, req), Completed(c, src, req);
      var rest := Proceed(c, cfg, messages, out', done, world, step);
      AskAgrees(c, fails, log, src, req);
      if AllTaken(fails, log + done.log, |log|) {
        AnsweredAgrees(c, fails, cfg, messages, out', asked, done, world, step);
        AgreesAfter(fails, log, done.log, Answered(c, fails, cfg, messages, out', asked, world, step), rest);
      } else {
        var k := Earliest(fails, log + done.log, |log|);
        AgreesBroken(fails, log, done.log, k, out', asked.source, world, "model", rest);
      }
    }
  }

  lemma {:induction false} ProceedsTo<W>(c: Codec, cfg: Config<W>, messages: seq<Message>, out: Outcome,
                                         done: Completion, world: W, step: nat)
    requires cfg.registry.Valid() && step <= cfg.Steps() && done.result.Ok?
    requires Validate(done.result.value).None? && done.result.value.toolCalls != []
    ensures var resp := done.result.value;
            var ran := RunCalls(c, cfg.registry, resp.toolCalls, world);
            Proceed(c, cfg, messages, out, done, world, step)
            == AfterTools(c, cfg, messages + [AssistantSaid(resp)], out.(usage := out.usage.Plus(resp.usage)),
                          done.source, step, ran).After(ran.log)
  {
  }

  lemma {:induction false} AnsweredAgrees<W>(c: Codec, fails: Outage, cfg: Config<W>, messages: seq<Message>,
                                             out: Outcome, asked: Asked, done: Completion, world: W, step: nat)
    requires cfg.registry.Valid() && step <= cfg.Steps()
    requires asked.source == done.source && asked.result == done.result
    ensures Agrees(fails, asked.log, Answered(c, fails, cfg, messages, out, asked, world, step),
                   Proceed(c, cfg, messages, out, done, world, step))
    decreases cfg.Steps() + 1 - step, 0
  {
    if asked.result.Err? {
      GiveUpAgrees(fails, asked.log, out, asked.source, world, "model", asked.result.error);
    } else if Validate(asked.result.value).Some? {
      GiveUpAgrees(fails, asked.log, out, asked.source, world, "model", Validate(asked.result.value).value);
    } else {
      var resp := asked.result.value;
      var out' := out.(usage := out.usage.Plus(resp.usage));
      if resp.toolCalls == [] {
        CloseAgrees(fails, asked.log, out'.(text := resp.text), asked.source, world);
      } else {
        CallsAgree(c, fails, cfg.registry, asked.log, resp.toolCalls, world);
        var tried, ran := Calls(c, fails, cfg.registry, asked.log, resp.toolCalls, world),
                          RunCalls(c, cfg.registry, resp.toolCalls, world);
        WorkedAgrees(c, fails, cfg, asked.log, messages + [AssistantSaid(resp)], out', asked.source, step, tried, ran);
        ProceedsTo(c, cfg, messages, out, done, world, step);
      }
    }
  }

  /** The rest of a step once its tools ran, without failures. */
  ghost function AfterTools<W>(c: Codec, cfg: Config<W>, messages: seq<Message>, out: Outcome, src: Source, step: nat,
                           ran: CallsRan<W>): Ran<W>
    requires cfg.registry.Valid() && step <= cfg.Steps()
  {
    var out' := out.(toolCalls := out.toolCalls + |ran.messages|);
    if ran.error.Some? then Fail(out', src, ran.world, "tool", ran.error.value)
    else Loop(c, cfg, messages + ran.messages, out', src, ran.world, step + 1)
  }

  lemma {:induction false} WorkedAgrees<W>(c: Codec, fails: Outage, cfg: Config<W>, log: seq<Payload>,
                                           messages: seq<Message>, out: Outcome, src: Source, step: nat,
                                           tried: CallsRan<W>, ran: CallsRan<W>)
    requires cfg.registry.Valid() && step <= cfg.Steps()
    requires Keeps(fails, log, tried, ran)
    ensures Agrees(fails, log, Worked(c, fails, cfg, messages, out, src, step, tried),
                   AfterTools(c, cfg, messages, out, src, step, ran).After(ran.log))
    decreases cfg.Steps() + 1 - step, 0, 0
  {
    var out' := out.(toolCalls := out.toolCalls + |tried.messages|);
    var rest := AfterTools(c, cfg, messages, out, src, step, ran);
    if !AllTaken(fails, log + ran.log, |log|) {
      var k := Earliest(fails, log + ran.log, |log|);
      AgreesBroken(fails, log, ran.log, k, out', src, tried.world, "tool", rest);
    } else {
      if ran.error.Some? {
        GiveUpAgrees(fails, tried.log, out', src, ran.world, "tool", ran.error.value);
      } else {
        StepsAgree(c, fails, cfg, tried.log, messages + ran.messages, out', src, ran.world, step + 1);
      }
      AgreesAfter(fails, log, ran.log, Worked(c, fails, cfg, messages, out, src, step, tried), rest);
    }
  }

  lemma {:induction false} TurnAgrees<W>(c: Codec, fails: Outage, cfg: Config<W>, prompt: string, src: Source, world: W)
    requires cfg.registry.Valid()
    ensures Agrees(fails, [], Turn(c, fails, cfg, prompt, src, world), Run(c, cfg, prompt, src, world))
  {
    if cfg.model != "" {
      var started := [StartOf(cfg, prompt)];
      assert [] + started == started;
      var rest := Loop(c, cfg, [UserSaid(prompt)], NoOutcome, src, world, 1);
      if !fails(0, started[0]) {
        StepsAgree(c, fails, cfg, started, [UserSaid(prompt)], NoOutcome, src, world, 1);
        AgreesAfter(fails, [], started, Turn(c, fails, cfg, prompt, src, world), rest);
      } else {
        assert ([] + rest.After(started).log)[..1] == started;
      }
    }
  }

  /** A turn succeeds on a failing journal exactly when it would succeed on a sound one
      and none of the events of that run is refused, and then it is that run. So no
      append that fails goes unnoticed. */
  lemma SucceedsExactly<W>(c: Codec, fails: Outage, cfg: Config<W>, prompt: string, src: Source, world: W)
    requires cfg.registry.Valid()
    ensures var turned, ran := Turn(c, fails, cfg, prompt, src, world), Run(c, cfg, prompt, src, world);
            && (turned.error.None? <==> ran.error.None? && AllTaken(fails, ran.log, 0))
            && (AllTaken(fails, ran.log, 0) ==> turned == ran)
  {
    var turned, ran := Turn(c, fails, cfg, prompt, src, world), Run(c, cfg, prompt, src, world);
    TurnAgrees(c, fails, cfg, prompt, src, world);
    assert [] + ran.log == ran.log;
    if !AllTaken(fails, ran.log, 0) {
      var k := Earliest(fails, ran.log, 0);
      assert Broken(fails, turned, ran.log, k);
    }
  }

  // ---------------------------------------------------------------- what is left on disk

  /** The failures of a writer whose n-th append meets the n-th fault. */
  function OutageOf(c: Codec, h: Header, faults: nat -> Fault): Outage {
    (n: nat, p: Payload) => !FateOf(h, Empty, LineOf(c, p), faults(n)).Written?
  }

  const Empty := WriterState(0, [], map[], false)

  function AppendsOf(c: Codec, log: seq<Payload>, faults: nat -> Fault): seq<AppendCall> {
    seq(|log|, i requires 0 <= i < |log| => AppendCall(LineOf(c, log[i]), faults(i)))
  }

  lemma {:induction false} StaysOpen(h: Header, calls: seq<AppendCall>)
    ensures !AttemptAll(h, Empty, calls).closed
    decreases |calls|
  {
    if calls != [] {
      StaysOpen(h, calls[..|calls| - 1]);
    }
  }

  lemma {:induction false} FatesOf(c: Codec, h: Header, log: seq<Payload>, faults: nat -> Fault)
    ensures var calls := AppendsOf(c, log, faults);
            forall i | 0 <= i < |log| ::
              FateAt(h, Empty, calls, i) == FateOf(h, Empty, LineOf(c, log[i]), faults(i))
  {
    var calls := AppendsOf(c, log, faults);
    forall i | 0 <= i < |log|
      ensures FateAt(h, Empty, calls, i) == FateOf(h, Empty, LineOf(c, log[i]), faults(i))
    {
      StaysOpen(h, calls[..i]);
    }
  }

  /** The k-th event is the first that is not written, and it is lost: its append failed
      past numbering. */
  ghost predicate LostAt(c: Codec, h: Header, faults: nat -> Fault, log: seq<Payload>, k: nat) {
    && FirstLost(OutageOf(c, h, faults), log, 0, k)
    && FateOf(h, Empty, LineOf(c, log[k]), faults(k)).Lost?
  }

  /** A journal reads back exactly when nothing was written after a lost event. */
  lemma {:induction false} ReadsBackAs(c: Codec, h: Header, log: seq<Payload>, faults: nat -> Fault)
    ensures Contiguous(AttemptAll(h, Empty, AppendsOf(c, log, faults)).events)
       <==> forall i, j | 0 <= i < j < |log| && FateOf(h, Empty, LineOf(c, log[i]), faults(i)).Lost? ::
              OutageOf(c, h, faults)(j, log[j])
  {
    var calls := AppendsOf(c, log, faults);
    FatesOf(c, h, log, faults);
    ReadsBackExactly(h, Empty, calls);
    if WrittenAfterLoss(h, Empty, calls) {
      var i, j :| 0 <= i < j < |calls| && FateAt(h, Empty, calls, i).Lost? && FateAt(h, Empty, calls, j).Written?;
      assert !OutageOf(c, h, faults)(j, log[j]);
    }
    forall i, j | 0 <= i < j < |log| && FateOf(h, Empty, LineOf(c, log[i]), faults(i)).Lost?
      && !OutageOf(c, h, faults)(j, log[j])
      ensures WrittenAfterLoss(h, Empty, calls)
    {
      assert FateAt(h, Empty, calls, i).Lost? && FateAt(h, Empty, calls, j).Written?;
    }
  }

  /** A first failure of the log a turn would have left is one of the log it did leave. */
  lemma {:induction false} BrokenThere<W>(fails: Outage, turned: Ran<W>, whole: seq<Payload>, k: nat)
    requires FirstLost(fails, whole, 0, k) && Broken(fails, turned, whole, k)
    ensures FirstLost(fails, turned.log, 0, k) && turned.log[k] == whole[k]
    ensures (forall j | k < j < |turned.log| :: fails(j, turned.log[j]))
            <==> Bracket(whole[k]) || fails(k + 1, turned.log[k + 1])
    ensures forall i | k < i < |turned.log| && i != |turned.log| - 1 :: !fails(i, turned.log[i])
  {
    assert forall i | 0 <= i <= k :: turned.log[i] == turned.log[..k + 1][i] == whole[..k + 1][i] == whole[i];
  }

  /** Whatever fails, the journal a turn leaves behind reads back exactly unless the first
      event it could not write was lost past numbering, was not one after which the turn
      writes nothing, and the event reporting the failure was then written. */
  lemma {:induction false} LeftReadableExactly<W>(c: Codec, h: Header, faults: nat -> Fault, cfg: Config<W>,
                                                  prompt: string, src: Source, world: W)
    requires cfg.registry.Valid()
    ensures var fails, ran := OutageOf(c, h, faults), Run(c, cfg, prompt, src, world);
            var turned := Turn(c, fails, cfg, prompt, src, world);
            Contiguous(AttemptAll(h, Empty, AppendsOf(c, turned.log, faults)).events)
            <==> forall k: nat | LostAt(c, h, faults, ran.log, k) ::
                   Bracket(ran.log[k]) || (k + 1 < |turned.log| && fails(k + 1, turned.log[k + 1]))
  {
    var fails, ran := OutageOf(c, h, faults), Run(c, cfg, prompt, src, world);
    var turned := Turn(c, fails, cfg, prompt, src, world);
    TurnAgrees(c, fails, cfg, prompt, src, world);
    assert [] + ran.log == ran.log;
    ReadsBackAs(c, h, turned.log, faults);
    if AllTaken(fails, ran.log, 0) {
      NothingLost(c, h, faults, ran.log);
    } else {
      var k := Earliest(fails, ran.log, 0);
      assert Broken(fails, turned, ran.log, k);
      BrokenThere(fails, turned, ran.log, k);
      OnlyFirst(c, h, faults, turned.log, k);
      assert forall l: nat | LostAt(c, h, faults, ran.log, l) :: l == k;
    }
  }

  lemma {:induction false} NothingLost(c: Codec, h: Header, faults: nat -> Fault, log: seq<Payload>)
    requires AllTaken(OutageOf(c, h, faults), log, 0)
    ensures forall k: nat :: !LostAt(c, h, faults, log, k)
    ensures forall i | 0 <= i < |log| :: !FateOf(h, Empty, LineOf(c, log[i]), faults(i)).Lost?
  {
    forall i | 0 <= i < |log|
      ensures FateOf(h, Empty, LineOf(c, log[i]), faults(i)).Written?
    {
      assert !OutageOf(c, h, faults)(i, log[i]);
    }
  }

  /** When at most the last append fails after the first failure, only the first matters. */
  lemma {:induction false} OnlyFirst(c: Codec, h: Header, faults: nat -> Fault, log: seq<Payload>, k: nat)
    requires FirstLost(OutageOf(c, h, faults), log, 0, k)
    requires forall i | k < i < |log| && i != |log| - 1 :: !OutageOf(c, h, faults)(i, log[i])
    ensures (forall i, j | 0 <= i < j < |log| && FateOf(h, Empty, LineOf(c, log[i]), faults(i)).Lost? ::
               OutageOf(c, h, faults)(j, log[j]))
       <==> (LostAt(c, h, faults, log, k) ==> forall j | k < j < |log| :: OutageOf(c, h, faults)(j, log[j]))
  {
    forall i | 0 <= i < |log| && FateOf(h, Empty, LineOf(c, log[i]), faults(i)).Lost?
      ensures i >= k && (i > k ==> i == |log| - 1)
    {
      assert OutageOf(c, h, faults)(i, log[i]);
    }
  }
}
