/** Replaying a recorded turn end to end, as the library offers it.

    Models Agent.Replay and replayStart of nemuz.go. */
module Nemuz {
  import opened Prelude
  import opened Journal
  import opened JournalWriter
  import opened Llm
  import opened Recording
  import opened AgentLoop
  import opened Replay
  import Requests
  import Audit

  /** The options of the library's agent that a replay depends on. */
  datatype Options<!W> = Options(maxSteps: int, maxTokens: int, registry: Registry<W>)

  /** The loop configuration of a first run under these options. */
  function RecordConfig<W>(opts: Options<W>, model: string, system: string, env: map<string, string>): Config<W> {
    Config(model, system, opts.maxSteps, opts.maxTokens, env, opts.registry)
  }

  /** The loop configuration of a replay: MaxTokens is not passed on. */
  function ReplayConfig<W>(opts: Options<W>, start: Payload): Config<W>
    requires start.TurnStart?
  {
    Config(start.model, start.system, opts.maxSteps, 0, start.env, opts.registry)
  }

  datatype StartError = NoStartEvent | StartBlobMissing | StartUndecodable | NoPrompt

  function StartFound(c: Codec, blobs: Blobs, e: Event): Result<Payload, StartError> {
    match ContentOf(blobs, e)
    case None => Err(StartBlobMissing)
    case Some(body) =>
      match c.unmarshal(KindTurnStart, body)
      case Some(TurnStart(prompt, model, system, tools, env)) =>
        if prompt == "" then Err(NoPrompt) else Ok(TurnStart(prompt, model, system, tools, env))
      case _ => Err(StartUndecodable)
  }

  function FindStart(c: Codec, blobs: Blobs, events: seq<Event>): (r: Result<Payload, StartError>)
    ensures r.Ok? ==> r.value.TurnStart?
    decreases |events|
  {
    if events == [] then Err(NoStartEvent)
    else if events[0].kind != KindTurnStart then FindStart(c, blobs, events[1..])
    else StartFound(c, blobs, events[0])
  }

  method ReplayStart(c: Codec, blobs: Blobs, events: seq<Event>) returns (r: Result<Payload, StartError>)
    ensures r == FindStart(c, blobs, events)
  {
    for i := 0 to |events|
      invariant FindStart(c, blobs, events[i..]) == FindStart(c, blobs, events)
    {
      assert events[i..][0] == events[i] && events[i..][1..] == events[i + 1..];
      if events[i].kind == KindTurnStart {
        return StartFound(c, blobs, events[i]);
      }
    }
    return Err(NoStartEvent);
  }

  datatype ReplayError =
    | Redacted
    | BadCassette(cassette: CassetteError)
    | BadStart(start: StartError)
    | RunFailed(failure: Failure)
    | Diverged(divergence: Divergence)

  /** The replay's own run, given a cassette and an opening event. */
  function Replayed<W>(c: Codec, opts: Options<W>, recorded: seq<Event>,
                       exchanges: seq<Exchange>, start: Payload, world: W): Ran<W>
    requires opts.registry.Valid() && start.TurnStart?
  {
    Run(c, ReplayConfig(opts, start), start.prompt, Tape(FirstTurnID(recorded), exchanges, 0, true), world)
  }

  /** When a replay writing under header h reports no error. */
  ghost predicate Accepts<W>(c: Codec, h: Header, opts: Options<W>, blobs: Blobs,
                             recorded: seq<Event>, redacted: bool, world: W)
    requires IsSha(h.sha) && opts.registry.Valid()
  {
    && !redacted
    && CassetteContent(blobs, recorded).Ok?
    && FindStart(c, blobs, recorded).Ok?
    && var ran := Replayed(c, opts, recorded, CassetteContent(blobs, recorded).value,
                           FindStart(c, blobs, recorded).value, world);
       && ran.error.None?
       && |recorded| == |ran.log|
       && SameUpTo(h.sha, recorded, SealAll(h, 0, Lines(c, ran.log)), |recorded|)
  }

  /** What a replay reports, and why: the first of the things that can go wrong. */
  ghost predicate Reports<W>(c: Codec, h: Header, opts: Options<W>, blobs: Blobs, recorded: seq<Event>,
                             redacted: bool, world: W, err: Option<ReplayError>)
    requires IsSha(h.sha) && opts.registry.Valid()
  {
    if redacted then err == Some(Redacted)
    else
      match CassetteContent(blobs, recorded)
      case Err(why) => err == Some(BadCassette(why))
      case Ok(exchanges) =>
        match FindStart(c, blobs, recorded)
        case Err(why) => err == Some(BadStart(why))
        case Ok(start) =>
          var ran := Replayed(c, opts, recorded, exchanges, start, world);
          var events := SealAll(h, 0, Lines(c, ran.log));
          if ran.error.Some? then err == Some(RunFailed(ran.error.value))
          else if |recorded| == |events| && SameUpTo(h.sha, recorded, events, |recorded|) then err == None
          else err.Some? && err.value.Diverged? && FirstDivergence(h.sha, recorded, events, err.value.divergence)
  }

  method ReplayTurn<W>(c: Codec, opts: Options<W>, store: BlobStore, recorded: seq<Event>, redacted: bool,
                       replayID: string, clock: nat -> int, world: World<W>)
    returns (err: Option<ReplayError>)
    requires IsSha(store.sha) && opts.registry.Valid() && world as object != store
    modifies store, world
    ensures Reports(c, Header(replayID, clock, store.sha, true), opts, old(store.blobs), recorded, redacted,
                    old(world.state), err)
  {
    if redacted {
      return Some(Redacted);
    }
    var cassette := CassetteFrom(recorded, store.blobs);
    if cassette.Err? {
      return Some(BadCassette(cassette.error));
    }
    var start := ReplayStart(c, store.blobs, recorded);
    if start.Err? {
      return Some(BadStart(start.error));
    }
    var w := new Writer.Create(replayID, store, store.sha, clock);
    ghost var h := w.Head();
    var cfg := ReplayConfig(opts, start.value);
    var runner := new Agent(c, Player(cassette.value, w, true), cfg, world);
    ghost var ran := Replayed(c, opts, recorded, cassette.value.exchanges, start.value, world.state);
    var out, failure := runner.RunTurn(start.value.prompt);
    HoldsMeans(c, h, runner.base, runner.log, w.State());
    assert w.events == SealAll(h, 0, Lines(c, ran.log)) by {
      assert [] + SealAll(h, 0, Lines(c, ran.log)) == SealAll(h, 0, Lines(c, ran.log));
      assert [] + ran.log == ran.log;
    }
    w.Close();
    if failure.Some? {
      return Some(RunFailed(failure.value));
    }
    var replayed := ReadFrom(w.disk);
    assert Contiguous(w.disk);
    var d := Verify(store.sha, recorded, replayed.value);
    if d.Some? {
      return Some(Diverged(d.value));
    }
    return None;
  }

  /** A clean replay is one that reports nothing. */
  lemma AcceptsExactly<W>(c: Codec, h: Header, opts: Options<W>, blobs: Blobs, recorded: seq<Event>,
                          redacted: bool, world: W, err: Option<ReplayError>)
    requires IsSha(h.sha) && opts.registry.Valid() && Reports(c, h, opts, blobs, recorded, redacted, world, err)
    ensures err.None? <==> Accepts(c, h, opts, blobs, recorded, redacted, world)
  {
  }

  // ---------------------------------------------------------------- theorems

  /** The options decide what a first run asks: the library's own token limit, tools and
      steps, the caller's model and system prompt. */
  lemma {:induction false} RecordingAsks<W>(c: Codec, opts: Options<W>, model: string, system: string,
                                            env: map<string, string>, prompt: string, live: Source, world: W)
    requires Lawful(c) && opts.registry.Valid() && model != ""
    ensures var ran := Run(c, RecordConfig(opts, model, system, env), prompt, live, world);
            && ran.log != [] && ran.log[0] == TurnStart(prompt, model, system, opts.registry.order, env)
            && ran.out.steps <= (if opts.maxSteps > 0 then opts.maxSteps else 16)
            && forall p | p in ran.log && p.ModelRequest? ::
                 p.request.maxTokens == opts.maxTokens && Asks(p.request, model, system, opts.registry)
  {
    var cfg := RecordConfig(opts, model, system, env);
    Requests.EveryRequestInFull(c, cfg, prompt, live, world);
    Audit.EveryTurnAudits(c, cfg, prompt, live, world);
  }

  /** A replay takes model, system prompt and environment from the recording, tools and
      steps from the options, and asks without a token limit of its own. */
  lemma {:induction false} ReplayAsks<W>(c: Codec, opts: Options<W>, recorded: seq<Event>,
                                         exchanges: seq<Exchange>, start: Payload, world: W)
    requires Lawful(c) && opts.registry.Valid() && start.TurnStart? && start.model != ""
    ensures var ran := Replayed(c, opts, recorded, exchanges, start, world);
            && ran.log != []
            && ran.log[0] == TurnStart(start.prompt, start.model, start.system, opts.registry.order, start.env)
            && ran.out.steps <= (if opts.maxSteps > 0 then opts.maxSteps else 16)
            && forall p | p in ran.log && p.ModelRequest? ::
                 p.request.maxTokens == 0 && Asks(p.request, start.model, start.system, opts.registry)
  {
    var cfg := ReplayConfig(opts, start);
    var tape := Tape(FirstTurnID(recorded), exchanges, 0, true);
    Requests.EveryRequestInFull(c, cfg, start.prompt, tape, world);
    Audit.EveryTurnAudits(c, cfg, start.prompt, tape, world);
  }

  ghost predicate Asks<W>(req: Request, model: string, system: string, registry: Registry<W>) {
    && req.model == model && req.system == system && |req.tools| == |registry.order|
    && forall i | 0 <= i < |req.tools| ::
         && registry.order[i] in registry.byName
         && var t := registry.byName[registry.order[i]];
            req.tools[i].name == t.name && req.tools[i].description == t.description && req.tools[i].schema == t.schema
  }

  /** Everything the lines spilled is in the store. */
  ghost predicate Readable(h: Header, blobs: Blobs, lines: seq<Line>) {
    forall l | l in lines && h.Spills(l.body) :: h.sha(l.body) in blobs && blobs[h.sha(l.body)] == l.body
  }

  /** The events a run left in the journal, and their blobs still in the store. */
  ghost predicate RecordingOf<W>(c: Codec, h: Header, events: seq<Event>, blobs: Blobs, ran: Ran<W>) {
    events == SealAll(h, 0, Lines(c, ran.log)) && Readable(h, blobs, Lines(c, ran.log))
  }

  /** Records one turn into a journal of its own and closes it. What is on disk
      afterwards is the run's log, sealed and complete, and it can be read back in
      full as long as no two stored contents collide. */
  method RecordTurn<W>(c: Codec, opts: Options<W>, model: string, system: string, env: map<string, string>,
                       prompt: string, provider: LiveModel, store: BlobStore, turnID: string,
                       clock: nat -> int, world: World<W>)
    returns (out: Outcome, failure: Option<Failure>, disk: seq<Event>)
    requires opts.registry.Valid()
    requires world as object != store && provider as object != store && world as object != provider
    modifies provider, store, world
    ensures var h := Header(turnID, clock, store.sha, true);
            var live := Live(provider.name, provider.replies, old(provider.used));
            var ran := Run(c, RecordConfig(opts, model, system, env), prompt, live, old(world.state));
            && out == ran.out && failure == ran.error && world.state == ran.world
            && disk == SealAll(h, 0, Lines(c, ran.log))
            && store.blobs == StoredAll(h, old(store.blobs), Lines(c, ran.log))
            && Contiguous(disk)
            && (NoCollisions(c, h, old(store.blobs), ran) ==> RecordingOf(c, h, disk, store.blobs, ran))
  {
    var w := new Writer.Create(turnID, store, store.sha, clock);
    ghost var h := w.Head();
    ghost var before := store.blobs;
    var cfg := RecordConfig(opts, model, system, env);
    var runner := new Agent(c, Recorder(provider, w), cfg, world);
    ghost var ran := Run(c, cfg, prompt, runner.provider.Current(), world.state);
    out, failure := runner.RunTurn(prompt);
    HoldsMeans(c, h, runner.base, runner.log, w.State());
    assert w.events == SealAll(h, 0, Lines(c, ran.log)) by {
      assert [] + ran.log == ran.log;
      assert [] + SealAll(h, 0, Lines(c, ran.log)) == SealAll(h, 0, Lines(c, ran.log));
    }
    assert [] + ran.log == ran.log;
    w.Close();
    disk := w.disk;
    FreshUnlessCollisions(c, h, before, ran);
  }

  ghost predicate NoCollisions<W>(c: Codec, h: Header, before: Blobs, ran: Ran<W>) {
    Intact(h.sha, before) && CollisionFree(h.sha, before.Values + BodiesOf(Lines(c, ran.log)))
  }

  lemma FreshUnlessCollisions<W>(c: Codec, h: Header, before: Blobs, ran: Ran<W>)
    ensures NoCollisions(c, h, before, ran) ==>
              RecordingOf(c, h, SealAll(h, 0, Lines(c, ran.log)), StoredAll(h, before, Lines(c, ran.log)), ran)
    ensures Contiguous(SealAll(h, 0, Lines(c, ran.log)))
  {
    if NoCollisions(c, h, before, ran) {
      FreshRecordingReadable(c, h, before, StoredAll(h, before, Lines(c, ran.log)), ran);
    }
  }

  /** A run just recorded into a content-addressed store is readable there, and
      stays readable in whatever the store grows into. */
  lemma FreshRecordingReadable<W>(c: Codec, h: Header, before: Blobs, after: Blobs, ran: Ran<W>)
    requires Intact(h.sha, before)
    requires CollisionFree(h.sha, before.Values + BodiesOf(Lines(c, ran.log)))
    requires var stored := StoredAll(h, before, Lines(c, ran.log));
             forall ref | ref in stored :: ref in after && after[ref] == stored[ref]
    ensures RecordingOf(c, h, SealAll(h, 0, Lines(c, ran.log)), after, ran)
  {
    StoredAllHolds(h, before, Lines(c, ran.log));
  }

  lemma RecordingReadsBack<W>(c: Codec, h: Header, events: seq<Event>, blobs: Blobs, ran: Ran<W>)
    requires IsSha(h.sha) && RecordingOf(c, h, events, blobs, ran)
    ensures forall i | 0 <= i < |events| :: ContentOf(blobs, events[i]) == Some(Lines(c, ran.log)[i].body)
    ensures CassetteContent(blobs, events)
         == if ExchangesOf(c, ran.log) == [] then Err(NoResponses) else Ok(ExchangesOf(c, ran.log))
  {
    var lines := Lines(c, ran.log);
    forall i | 0 <= i < |lines|
      ensures ContentOf(blobs, SealAll(h, 0, lines)[i]) == Some(lines[i].body)
    {
      assert lines[i] in lines;
      SealedContent(h, blobs, i, lines[i]);
    }
    ExtractSealed(h, blobs, 0, lines, None, []);
    assert [] + Exchanges(lines, None) == Exchanges(lines, None);
  }

  lemma RecordingStarts<W>(c: Codec, h: Header, events: seq<Event>, blobs: Blobs,
                           cfg: Config<W>, prompt: string, src: Source, world: W)
    requires Lawful(c) && IsSha(h.sha) && cfg.registry.Valid() && cfg.model != ""
    requires RecordingOf(c, h, events, blobs, Run(c, cfg, prompt, src, world))
    ensures FindStart(c, blobs, events) == if prompt == "" then Err(NoPrompt) else Ok(StartOf(cfg, prompt))
  {
    RecordingReadsBack(c, h, events, blobs, Run(c, cfg, prompt, src, world));
    assert Run(c, cfg, prompt, src, world).log[0] == StartOf(cfg, prompt);
    assert ContentOf(blobs, events[0]) == Some(c.marshal(StartOf(cfg, prompt)));
    assert Decodable(StartOf(cfg, prompt));
  }

  /** Sealing the same lines in another turn, at other times, looks the same. */
  lemma ResealedLooksSame(g: Header, h: Header, lines: seq<Line>)
    requires IsSha(h.sha) && g.sha == h.sha && g.spills == h.spills
    ensures SameUpTo(h.sha, SealAll(g, 0, lines), SealAll(h, 0, lines), |lines|)
  {
    forall i | 0 <= i < |lines|
      ensures LooksSame(h.sha, SealAll(g, 0, lines)[i], SealAll(h, 0, lines)[i])
    {
      var a, b := Seal(g, i, lines[i]), Seal(h, i, lines[i]);
      ConcatOne(EventBytes, a);
      ConcatOne(EventBytes, b);
      assert Body(a) == Body(b);
    }
  }

  /** The first thing a recorded turn asked. */
  lemma FirstRequest<W>(c: Codec, cfg: Config<W>, prompt: string, src: Source, world: W)
    requires Lawful(c) && cfg.registry.Valid() && cfg.model != "" && src.Live?
    requires ExchangesOf(c, Run(c, cfg, prompt, src, world).log) != []
    ensures ExchangesOf(c, Run(c, cfg, prompt, src, world).log)[0].request
         == Some(c.marshal(ModelRequest(RequestOf(cfg, [UserSaid(prompt)]))))
  {
    var req := RequestOf(cfg, [UserSaid(prompt)]);
    var done := Completed(c, src, req);
    var rest := Proceed(c, cfg, [UserSaid(prompt)], NoOutcome.(steps := 1), done, world, 1);
    ExchangesSkip(c, [StartOf(cfg, prompt)], done.log + rest.log);
    if done.result.Ok? {
      ExchangesPair(c, req, done.log[1], rest.log);
    } else {
      OnlyRequestUnanswered(c, done.log + rest.log);
    }
  }

  /** A replay whose first request differs from the recorded one fails. */
  lemma MismatchFails<W>(c: Codec, cfg: Config<W>, prompt: string, turn: string,
                         exchanges: seq<Exchange>, world: W)
    requires cfg.registry.Valid() && cfg.model != "" && exchanges != [] && exchanges[0].request.Some?
    requires exchanges[0].request.value != c.marshal(ModelRequest(RequestOf(cfg, [UserSaid(prompt)])))
    ensures Run(c, cfg, prompt, Tape(turn, exchanges, 0, true), world).error.Some?
  {
    var done := Completed(c, Tape(turn, exchanges, 0, true), RequestOf(cfg, [UserSaid(prompt)]));
    assert done.result.Err?;
    assert Proceed(c, cfg, [UserSaid(prompt)], NoOutcome.(steps := 1), done, world, 1).error.Some?;
  }

  /** Under the options it was recorded with, and against the same tools and
      world, a turn replays cleanly exactly when it succeeded, had a prompt, and
      was recorded with no MaxTokens set. */
  lemma ReplayAcceptsExactly<W>(c: Codec, g: Header, h: Header, opts: Options<W>, blobs: Blobs,
                                model: string, system: string, env: map<string, string>, prompt: string,
                                live: Source, world: W, recorded: seq<Event>)
    requires Lawful(c) && IsSha(h.sha) && g.sha == h.sha && g.spills == h.spills
    requires opts.registry.Valid() && model != "" && live.Live?
    requires RecordingOf(c, g, recorded, blobs, Run(c, RecordConfig(opts, model, system, env), prompt, live, world))
    ensures Accepts(c, h, opts, blobs, recorded, false, world)
       <==> Run(c, RecordConfig(opts, model, system, env), prompt, live, world).error.None?
            && prompt != "" && opts.maxTokens == 0
  {
    var cfg := RecordConfig(opts, model, system, env);
    var ran := Run(c, cfg, prompt, live, world);
    var exchanges := ExchangesOf(c, ran.log);
    var turn := FirstTurnID(recorded);
    RecordingReadsBack(c, g, recorded, blobs, ran);
    RecordingStarts(c, g, recorded, blobs, cfg, prompt, live, world);
    ReplayReproducesExactly(c, cfg, prompt, live, world, turn);
    if prompt != "" && exchanges != [] {
      var again := ReplayConfig(opts, StartOf(cfg, prompt));
      if opts.maxTokens == 0 {
        assert again == cfg;
        ResealedLooksSame(g, h, Lines(c, ran.log));
      } else {
        var asked, recordedAsk := RequestOf(again, [UserSaid(prompt)]), RequestOf(cfg, [UserSaid(prompt)]);
        assert Decodable(ModelRequest(asked)) && Decodable(ModelRequest(recordedAsk));
        assert asked.maxTokens != recordedAsk.maxTokens;
        FirstRequest(c, cfg, prompt, live, world);
        MismatchFails(c, again, prompt, turn, exchanges, world);
      }
    }
  }

  /** Events that look the same carry the same kind and payload. */
  lemma SameViewSameLine(g: Header, h: Header, i: nat, a: Line, b: Line)
    requires IsSha(g.sha) && g.sha == h.sha && CollisionFree(h.sha, {a.body, b.body})
    requires ViewOf(Seal(g, i, a)) == ViewOf(Seal(h, i, b))
    ensures a == b
  {
    assert |h.sha(a.body)| == 64 && |h.sha(b.body)| == 64;
  }

  lemma SealedWellFormed(c: Codec, h: Header, log: seq<Payload>)
    requires Lawful(c) && IsSha(h.sha) && |log| < TwoTo63
    ensures AllWellFormed(SealAll(h, 0, Lines(c, log)))
  {
    forall i | 0 <= i < |log|
      ensures WellFormed(Seal(h, i, LineOf(c, log[i])))
    {
      var body := c.marshal(log[i]);
      assert NulFree(body);
      assert NulFree(h.sha(body)) by {
        assert forall ch | ch in h.sha(body) :: '0' <= ch <= '9' || 'a' <= ch <= 'f';
      }
    }
  }

  lemma SameViewsSameLines(g: Header, h: Header, was: seq<Line>, now: seq<Line>)
    requires IsSha(g.sha) && g.sha == h.sha && CollisionFree(h.sha, BodiesOf(was) + BodiesOf(now))
    requires Views(SealAll(g, 0, was)) == Views(SealAll(h, 0, now))
    ensures was == now
  {
    var a, b := SealAll(g, 0, was), SealAll(h, 0, now);
    assert |Views(a)| == |was| && |Views(b)| == |now|;
    forall i | 0 <= i < |was|
      ensures was[i] == now[i]
    {
      assert Views(a)[i] == Views(b)[i];
      assert was[i] in was && now[i] in now;
      SameViewSameLine(g, h, i, was[i], now[i]);
    }
  }

  /** A clean replay is never a false one. Whatever options, tools and world it
      ran with, if it reports no error then it journaled exactly the recorded
      kinds and payloads, served every recorded exchange once and in order, and
      both runs succeeded with the same answer and the same totals. */
  lemma AcceptedReplayIsFaithful<V, W>(c: Codec, g: Header, h: Header, blobs: Blobs, recorded: seq<Event>,
                                       cfg: Config<V>, prompt: string, src: Source, world: V,
                                       opts: Options<W>, redacted: bool, world': W)
    requires Lawful(c) && IsSha(h.sha) && g.sha == h.sha && cfg.registry.Valid() && opts.registry.Valid()
    requires RecordingOf(c, g, recorded, blobs, Run(c, cfg, prompt, src, world))
    requires Accepts(c, h, opts, blobs, recorded, redacted, world')
    requires |recorded| < TwoTo63
    requires var replayed := Replayed(c, opts, recorded, CassetteContent(blobs, recorded).value,
                                      FindStart(c, blobs, recorded).value, world');
             && NoShortCollisions(h.sha, recorded, SealAll(h, 0, Lines(c, replayed.log)))
             && CollisionFree(h.sha, BodiesOf(Lines(c, Run(c, cfg, prompt, src, world).log))
                                     + BodiesOf(Lines(c, replayed.log)))
    ensures var ran := Run(c, cfg, prompt, src, world);
            var exchanges := ExchangesOf(c, ran.log);
            var replayed := Replayed(c, opts, recorded, exchanges, FindStart(c, blobs, recorded).value, world');
            && Lines(c, replayed.log) == Lines(c, ran.log)
            && replayed.source == Tape(FirstTurnID(recorded), exchanges, |exchanges|, true)
            && ServedInOrder(exchanges, 0, ExchangesOf(c, replayed.log))
            && |ExchangesOf(c, replayed.log)| == |exchanges|
            && ran.error.None? && replayed.error.None?
            && replayed.out == ran.out
  {
    var ran := Run(c, cfg, prompt, src, world);
    RecordingReadsBack(c, g, recorded, blobs, ran);
    var exchanges := ExchangesOf(c, ran.log);
    var start := FindStart(c, blobs, recorded).value;
    var replayed := Replayed(c, opts, recorded, exchanges, start, world');
    var was, now := Lines(c, ran.log), Lines(c, replayed.log);
    assert |now| == |was| == |recorded|;
    SealedWellFormed(c, g, ran.log);
    SealedWellFormed(c, h, replayed.log);
    VerifyAcceptsExactly(h.sha, recorded, SealAll(h, 0, now));
    SameViewsSameLines(g, h, was, now);
    var again, tape := ReplayConfig(opts, start), Tape(FirstTurnID(recorded), exchanges, 0, true);
    assert replayed == Run(c, again, start.prompt, tape, world');
    RunServesInOrder(c, again, start.prompt, FirstTurnID(recorded), exchanges, world');
    SameBytesSameOutcome(c, cfg, prompt, src, world, again, start.prompt, tape, world');
  }

  /** Two runs that journaled the same bytes, one of them successful, ended alike. */
  lemma SameBytesSameOutcome<V, W>(c: Codec, cfg: Config<V>, prompt: string, src: Source, world: V,
                                   cfg': Config<W>, prompt': string, src': Source, world': W)
    requires Lawful(c) && cfg.registry.Valid() && cfg'.registry.Valid()
    requires Run(c, cfg', prompt', src', world').error.None?
    requires Lines(c, Run(c, cfg, prompt, src, world).log) == Lines(c, Run(c, cfg', prompt', src', world').log)
    ensures Run(c, cfg, prompt, src, world).error.None?
    ensures Run(c, cfg, prompt, src, world).out == Run(c, cfg', prompt', src', world').out
  {
    var a, b := Run(c, cfg, prompt, src, world), Run(c, cfg', prompt', src', world');
    RunCloses(c, cfg', prompt', src', world');
    assert |Lines(c, a.log)| == |Lines(c, b.log)|;
    RunCloses(c, cfg, prompt, src, world);
    SameLastPayload(c, a.log, b.log);
    RunConcludes(c, cfg, prompt, src, world);
    RunConcludes(c, cfg', prompt', src', world');
    SameConclusion(c, a.log, b.log, a.out.text, b.out.text);
  }

  /** The closing payload of a run. */
  function ClosingOf<W>(ran: Ran<W>): Payload {
    TurnEnd(if ran.error.None? then "end" else "error", ran.out.steps, ran.out.toolCalls, ran.out.usage)
  }

  lemma RunCloses<W>(c: Codec, cfg: Config<W>, prompt: string, src: Source, world: W)
    requires cfg.registry.Valid()
    ensures var ran := Run(c, cfg, prompt, src, world);
            if cfg.model == "" then ran.log == [] && ran.error.Some?
            else |ran.log| > 0 && ran.log[|ran.log| - 1] == ClosingOf(ran)
  {
    LoopCloses(c, cfg, [UserSaid(prompt)], NoOutcome, src, world, 1);
  }

  lemma RunConcludes<W>(c: Codec, cfg: Config<W>, prompt: string, src: Source, world: W)
    requires Lawful(c) && cfg.registry.Valid() && Run(c, cfg, prompt, src, world).error.None?
    ensures Concludes(c, Run(c, cfg, prompt, src, world).log, Run(c, cfg, prompt, src, world).out.text)
  {
    var rest := Loop(c, cfg, [UserSaid(prompt)], NoOutcome, src, world, 1);
    LoopConcludes(c, cfg, [UserSaid(prompt)], NoOutcome, src, world, 1);
    ConcludesAfter(c, [StartOf(cfg, prompt)], rest.log, rest.out.text);
  }

  lemma SameLastPayload(c: Codec, a: seq<Payload>, b: seq<Payload>)
    requires Lawful(c) && Lines(c, a) == Lines(c, b) && |a| > 0 && |b| > 0
    requires a[|a| - 1].TurnEnd? && b[|b| - 1].TurnEnd?
    ensures a[|a| - 1] == b[|b| - 1]
  {
    assert |Lines(c, a)| == |a| && |Lines(c, b)| == |b|;
    assert Lines(c, a)[|a| - 1] == Lines(c, b)[|b| - 1];
    assert Decodable(a[|a| - 1]) && Decodable(b[|b| - 1]);
  }

  lemma SameConclusion(c: Codec, a: seq<Payload>, b: seq<Payload>, text: string, text': string)
    requires Lines(c, a) == Lines(c, b) && Concludes(c, a, text) && Concludes(c, b, text')
    ensures text == text'
  {
    assert |Lines(c, a)| == |a| && |Lines(c, b)| == |b|;
    assert Lines(c, a)[|a| - 2] == Lines(c, b)[|b| - 2];
  }
}
