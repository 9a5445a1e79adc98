/** The search index: what one recorded turn contributes, and why the tables are a
    function of the journal.

    Models ReadTurn, insertTurn, Ingest and Rebuild in internal/index/index.go, with
    each SQLite table as a map from turn id to that turn's rows. */
module TurnIndex {
  import opened Prelude
  import opened Journal
  import opened JournalWriter
  import opened Llm
  import opened Recording
  import opened AgentLoop
  import opened Replay
  import opened Nemuz
  import opened Order

  datatype IndexedCall = IndexedCall(name: string, isError: bool)

  datatype TurnRow = TurnRow(
    id: string, startedAt: int, model: string, prompt: string, answer: string,
    steps: int, toolCalls: int, usage: Usage, errored: bool, sandbox: string, role: string)

  datatype Facts = Facts(turn: TurnRow, tools: seq<IndexedCall>)

  datatype ReadError = SequenceGap | EmptyJournal

  function Lookup(env: map<string, string>, key: string): string {
    if key in env then env[key] else ""
  }

  // ---------------------------------------------------------------- reading one turn

  /** An errored result marks every call so far to a tool of that name. */
  function Marked(tools: seq<IndexedCall>, name: string): (marked: seq<IndexedCall>)
    ensures |marked| == |tools|
  {
    seq(|tools|, i requires 0 <= i < |tools| =>
      IndexedCall(tools[i].name, tools[i].isError || tools[i].name == name))
  }

  /** What a decoded payload adds. */
  function Noted(f: Facts, p: Payload): Facts {
    match p
    case TurnStart(prompt, model, _, _, env) =>
      f.(turn := f.turn.(prompt := prompt, model := model,
                         sandbox := Lookup(env, "sandbox"), role := Lookup(env, "role")))
    case ModelResponse(resp) =>
      var turn := f.turn.(usage := f.turn.usage.Plus(resp.usage));
      f.(turn := if resp.text != "" then turn.(answer := resp.text) else turn)
    case ToolCalled(call) =>
      if call.name != "" then f.(tools := f.tools + [IndexedCall(call.name, false)]) else f
    case ToolReturned(_, name, _, isError) =>
      if isError then f.(tools := Marked(f.tools, name)) else f
    case TurnEnd(_, steps, toolCalls, _) =>
      f.(turn := f.turn.(steps := steps, toolCalls := toolCalls))
    case _ => f
  }

  /** What one event adds: nothing when its blob is missing or its payload does not
      decode, and an error whatever its payload says. */
  function Read(c: Codec, blobs: Blobs, f: Facts, e: Event): Facts {
    match ContentOf(blobs, e)
    case None => f
    case Some(body) =>
      if e.kind == KindError then f.(turn := f.turn.(errored := true))
      else if e.kind in {KindTurnStart, KindModelResponse, KindToolCall, KindToolResult, KindTurnEnd} then
        match c.unmarshal(e.kind, body)
        case Some(p) => if KindOf(p) == e.kind then Noted(f, p) else f
        case None => f
      else f
  }

  function ReadAll(c: Codec, blobs: Blobs, f: Facts, events: seq<Event>): Facts
    decreases |events|
  {
    if events == [] then f
    else Read(c, blobs, ReadAll(c, blobs, f, events[..|events| - 1]), events[|events| - 1])
  }

  function Blank(first: Event): Facts {
    Facts(TurnRow(first.turnID, first.ts, "", "", "", 0, 0, NoUsage, false, "", ""), [])
  }

  /** A journal of nothing the index reads leaves a row of its first event's turn and
      time and nothing else. */
  lemma {:induction false} SilentJournal(c: Codec, blobs: Blobs, disk: seq<Event>)
    requires Contiguous(disk) && disk != []
    requires forall i | 0 <= i < |disk| :: disk[i].kind == KindModelRequest || disk[i].kind == KindNote
    ensures FactsIn(c, blobs, disk)
         == Ok(Facts(TurnRow(disk[0].turnID, disk[0].ts, "", "", "", 0, 0, Usage(0, 0, 0), false, "", ""), []))
  {
    NothingRead(c, blobs, Blank(disk[0]), disk);
  }

  lemma {:induction false} NothingRead(c: Codec, blobs: Blobs, f: Facts, events: seq<Event>)
    requires forall i | 0 <= i < |events| :: events[i].kind == KindModelRequest || events[i].kind == KindNote
    ensures ReadAll(c, blobs, f, events) == f
    decreases |events|
  {
    if events != [] {
      NothingRead(c, blobs, f, events[..|events| - 1]);
    }
  }

  /** What one journal file contributes to the index. */
  function FactsIn(c: Codec, blobs: Blobs, disk: seq<Event>): Result<Facts, ReadError> {
    if !Contiguous(disk) then Err(SequenceGap)
    else if disk == [] then Err(EmptyJournal)
    else Ok(ReadAll(c, blobs, Blank(disk[0]), disk))
  }

  method MarkErrors(tools: seq<IndexedCall>, name: string) returns (marked: seq<IndexedCall>)
    ensures marked == Marked(tools, name)
  {
    marked := tools;
    for i := 0 to |tools|
      invariant |marked| == |tools|
      invariant forall j | 0 <= j < i :: marked[j] == Marked(tools, name)[j]
      invariant forall j | i <= j < |tools| :: marked[j] == tools[j]
    {
      if marked[i].name == name {
        marked := marked[i := marked[i].(isError := true)];
      }
    }
  }

  method ReadTurn(c: Codec, blobs: Blobs, disk: seq<Event>) returns (r: Result<Facts, ReadError>)
    ensures r == FactsIn(c, blobs, disk)
  {
    var read := ReadFrom(disk);
    if read.Err? {
      return Err(SequenceGap);
    }
    var events := read.value;
    if |events| == 0 {
      return Err(EmptyJournal);
    }
    var f := Blank(events[0]);
    for i := 0 to |events|
      invariant f == ReadAll(c, blobs, Blank(events[0]), events[..i])
    {
      assert events[..i + 1][..i] == events[..i];
      var e := events[i];
      var body := ContentOf(blobs, e);
      if body.None? {
        continue;
      }
      if e.kind == KindError {
        f := f.(turn := f.turn.(errored := true));
      } else if e.kind in {KindTurnStart, KindModelResponse, KindToolCall, KindToolResult, KindTurnEnd} {
        var p := c.unmarshal(e.kind, body.value);
        if p.Some? && KindOf(p.value) == e.kind {
          if p.value.ToolReturned? && p.value.isError {
            var tools := MarkErrors(f.tools, p.value.name);
            f := f.(tools := tools);
          } else {
            f := Noted(f, p.value);
          }
        }
      }
    }
    assert events[..|events|] == events;
    return Ok(f);
  }

  // ---------------------------------------------------------------- what a run contributes

  /** What a logged payload adds, without the detour over bytes. */
  function Told(f: Facts, p: Payload): Facts {
    if KindOf(p) == KindError then f.(turn := f.turn.(errored := true)) else Noted(f, p)
  }

  lemma ToldFew(f: Facts, log: seq<Payload>)
    ensures |log| == 1 ==> Fold(Told, f, log) == Told(f, log[0])
    ensures |log| == 2 ==> Fold(Told, f, log) == Told(Told(f, log[0]), log[1])
  {
    if |log| == 1 {
      assert log[1..] == [];
    } else if |log| == 2 {
      var rest := log[1..];
      assert rest[1..] == [] && rest[0] == log[1];
      assert Fold(Told, Told(f, log[0]), rest) == Told(Told(f, log[0]), rest[0]);
    }
  }

  /** A payload that a live run can journal. */
  predicate FromLive(p: Payload) {
    !p.Verbatim?
  }

  lemma ReadIsTold(c: Codec, blobs: Blobs, f: Facts, e: Event, p: Payload)
    requires Lawful(c) && FromLive(p) && e.kind == KindOf(p) && ContentOf(blobs, e) == Some(c.marshal(p))
    ensures Read(c, blobs, f, e) == Told(f, p)
  {
    if Decodable(p) {
      assert c.unmarshal(KindOf(p), c.marshal(p)) == Some(p);
    }
  }

  /** Reading the events of a recording is being told its payloads. */
  lemma {:induction false} ReadAllIsToldAll(c: Codec, blobs: Blobs, f: Facts, events: seq<Event>, log: seq<Payload>)
    requires Lawful(c) && |events| == |log|
    requires forall p | p in log :: FromLive(p)
    requires forall i | 0 <= i < |log| ::
               events[i].kind == KindOf(log[i]) && ContentOf(blobs, events[i]) == Some(c.marshal(log[i]))
    ensures ReadAll(c, blobs, f, events) == Fold(Told, f, log)
    decreases |log|
  {
    if log != [] {
      var n := |log| - 1;
      ReadAllIsToldAll(c, blobs, f, events[..n], log[..n]);
      ReadIsTold(c, blobs, Fold(Told, f, log[..n]), events[n], log[n]);
      FoldAppend(Told, f, log[..n], [log[n]]);
      assert log == log[..n] + [log[n]];
    }
  }

  /** A live run journals nothing verbatim. */
  lemma {:induction false} CallsFromLive<W>(c: Codec, reg: Registry<W>, calls: seq<ToolCall>, world: W)
    ensures forall p | p in RunCalls(c, reg, calls, world).log :: FromLive(p)
    decreases |calls|
  {
    if calls != [] {
      CallsFromLive(c, reg, calls[1..], RunCall(c, reg, calls[0], world).world);
    }
  }

  ghost predicate AllLive(log: seq<Payload>) {
    forall p | p in log :: FromLive(p)
  }

  /** The calls of a round leave the turn's row alone and add a row each. */
  lemma {:induction false} CallsTold<W>(c: Codec, reg: Registry<W>, calls: seq<ToolCall>, world: W, f: Facts)
    requires forall i | 0 <= i < |calls| :: calls[i].name != ""
    ensures var ran := RunCalls(c, reg, calls, world);
            && Fold(Told, f, ran.log).turn == f.turn
            && (ran.error.None? ==> |Fold(Told, f, ran.log).tools| == |f.tools| + |ran.messages|)
    decreases |calls|
  {
    if calls != [] {
      var first := RunCall(c, reg, calls[0], world);
      RunCallTold(c, reg, calls[0], world, f);
      if first.error.None? {
        var rest := RunCalls(c, reg, calls[1..], first.world);
        CallsTold(c, reg, calls[1..], first.world, Fold(Told, f, first.log));
        FoldAppend(Told, f, first.log, rest.log);
      }
    }
  }

  lemma RunCallTold<W>(c: Codec, reg: Registry<W>, call: ToolCall, world: W, f: Facts)
    requires call.name != ""
    ensures var ran := RunCall(c, reg, call, world);
            && Fold(Told, f, ran.log).turn == f.turn
            && |ran.messages| == (if ran.error.None? then 1 else 0)
            && |Fold(Told, f, ran.log).tools| == |f.tools| + 1
  {
    ToldFew(f, RunCall(c, reg, call, world).log);
  }

  /** The row and the loop's own tally, in step. */
  predicate Tallies(f: Facts, out: Outcome) {
    f.turn.usage == out.usage && |f.tools| == out.toolCalls && !f.turn.errored
  }

  /** The turn ended on a response that was journaled but never counted. */
  predicate Rejected(error: Option<Failure>) {
    error.Some? && (error.value.EmptyResponse? || error.value.UnnamedCall? || error.value.NoIdCall?)
  }

  lemma BadCallRejects(calls: seq<ToolCall>, i: nat)
    requires i <= |calls| && FirstBadCall(calls, i).Some?
    ensures Rejected(FirstBadCall(calls, i))
    decreases |calls| - i
  {
    if calls[i].name != "" && calls[i].id != "" {
      BadCallRejects(calls, i + 1);
    }
  }

  predicate SameTurn(f: Facts, g: Facts) {
    && f.turn.id == g.turn.id && f.turn.startedAt == g.turn.startedAt
    && f.turn.prompt == g.turn.prompt && f.turn.model == g.turn.model
    && f.turn.sandbox == g.turn.sandbox && f.turn.role == g.turn.role
  }

  /** The usage of the latest response. */
  function Heard(last: Usage, p: Payload): Usage {
    if p.ModelResponse? then p.response.usage else last
  }

  /** The tokens a run's row holds: what the run counted, and the last response's on
      top when that was rejected. */
  function Counted<W>(ran: Ran<W>, last: Usage): Usage {
    if Rejected(ran.error) then ran.out.usage.Plus(Fold(Heard, last, ran.log)) else ran.out.usage
  }

  /** What the index makes of a whole run, or of the rest of one after a response
      that used `last`. */
  predicate Indexes<W>(f: Facts, g: Facts, last: Usage, ran: Ran<W>) {
    && SameTurn(f, g)
    && g.turn.steps == ran.out.steps && g.turn.toolCalls == ran.out.toolCalls
    && g.turn.errored == ran.error.Some?
    && g.turn.usage == Counted(ran, last)
    && (ran.error.None? ==> g.turn.answer == ran.out.text && |g.tools| == ran.out.toolCalls)
  }

  lemma StepTold<W>(c: Codec, cfg: Config<W>, messages: seq<Message>, out: Outcome,
                    done: Completion, world: W, step: nat, f: Facts, last: Usage)
    requires cfg.registry.Valid() && step <= cfg.Steps() && Tallies(f, out) && AllLive(done.log)
    requires |done.log| == 2 && done.log[0].ModelRequest?
    requires done.result.Ok? ==> done.log[1] == ModelResponse(done.result.value)
    requires done.result.Err? ==> done.log[1].ProviderError? && !Rejected(Some(done.result.error))
    requires done.result.Ok? ==> Stops(c, cfg, done.result.value, world)
    ensures var ran := Proceed(c, cfg, messages, out, done, world, step);
            Indexed(Fold(Told, f, done.log), Fold(Heard, last, done.log), ran)
  {
    AskTold(f, done);
    HeardFew(last, done.log);
    var g, heard := Fold(Told, f, done.log), Fold(Heard, last, done.log);
    var ran := Proceed(c, cfg, messages, out, done, world, step);
    if done.result.Err? {
      FailIndexed(g, heard, ran, out);
    } else if Validate(done.result.value).Some? {
      if !Validate(done.result.value).value.EmptyResponse? {
        BadCallRejects(done.result.value.toolCalls, 0);
      }
      FailIndexed(g, heard, ran, out);
    } else if done.result.value.toolCalls == [] {
      ToldFew(g, ran.log);
    } else {
      BrokenTold(c, cfg, messages, out, done, world, step, g, heard);
    }
  }

  /** A turn that ends here without having counted the latest response, if at all. */
  lemma FailIndexed<W>(g: Facts, heard: Usage, ran: Ran<W>, out: Outcome)
    requires |ran.log| == 2 && ran.log[0].LoopError? && ran.error.Some? && ran.out == out
    requires ran.log[1].TurnEnd? && ran.log[1].steps == out.steps && ran.log[1].toolCalls == out.toolCalls
    requires g.turn.usage == if Rejected(ran.error) then out.usage.Plus(heard) else out.usage
    ensures Indexed(g, heard, ran)
  {
    FailTold(g, ran.log);
    HeardFew(heard, ran.log);
  }

  /** A turn that ends because a tool broke. */
  lemma BrokenTold<W>(c: Codec, cfg: Config<W>, messages: seq<Message>, out: Outcome,
                      done: Completion, world: W, step: nat, g: Facts, heard: Usage)
    requires cfg.registry.Valid() && step <= cfg.Steps() && done.result.Ok?
    requires g.turn.usage == out.usage.Plus(done.result.value.usage)
    requires Validate(done.result.value).None? && done.result.value.toolCalls != []
    requires Stops(c, cfg, done.result.value, world)
    ensures Indexed(g, heard, Proceed(c, cfg, messages, out, done, world, step))
  {
    var ran := Proceed(c, cfg, messages, out, done, world, step);
    var calls := RunCalls(c, cfg.registry, done.result.value.toolCalls, world);
    CallsTold(c, cfg.registry, done.result.value.toolCalls, world, g);
    CallsFromLive(c, cfg.registry, done.result.value.toolCalls, world);
    CallsBreakOnly(c, cfg.registry, done.result.value.toolCalls, world);
    var tail := ran.log[|calls.log|..];
    assert ran.log == calls.log + tail;
    FoldAppend(Told, g, calls.log, tail);
    FailTold(Fold(Told, g, calls.log), tail);
  }

  lemma {:induction false} CallsBreakOnly<W>(c: Codec, reg: Registry<W>, calls: seq<ToolCall>, world: W)
    ensures !Rejected(RunCalls(c, reg, calls, world).error)
    decreases |calls|
  {
    if calls != [] {
      CallsBreakOnly(c, reg, calls[1..], RunCall(c, reg, calls[0], world).world);
    }
  }

  lemma HeardFew(last: Usage, log: seq<Payload>)
    ensures |log| == 2 ==> Fold(Heard, last, log) == Heard(Heard(last, log[0]), log[1])
  {
    if |log| == 2 {
      var rest := log[1..];
      assert rest[1..] == [] && rest[0] == log[1];
      assert Fold(Heard, Heard(last, log[0]), rest) == Heard(Heard(last, log[0]), rest[0]);
    }
  }

  lemma AskTold(f: Facts, done: Completion)
    requires |done.log| == 2 && done.log[0].ModelRequest?
    ensures done.log[1].ProviderError? ==> Fold(Told, f, done.log) == f.(turn := f.turn.(errored := true))
    ensures done.log[1].ModelResponse? ==> Fold(Told, f, done.log) == Noted(f, done.log[1])
  {
    ToldFew(f, done.log);
  }

  lemma FailTold(f: Facts, log: seq<Payload>)
    requires |log| == 2 && log[0].LoopError? && log[1].TurnEnd?
    ensures Fold(Told, f, log)
         == f.(turn := f.turn.(errored := true, steps := log[1].steps, toolCalls := log[1].toolCalls))
  {
    ToldFew(f, log);
  }

  /** A step after which the turn goes on. */
  lemma RoundTold<W>(c: Codec, cfg: Config<W>, messages: seq<Message>, out: Outcome,
                     done: Completion, world: W, f: Facts)
    requires Tallies(f, out) && done.result.Ok? && !Stops(c, cfg, done.result.value, world)
    requires |done.log| == 2 && done.log[0].ModelRequest? && done.log[1] == ModelResponse(done.result.value)
    ensures var next := NextRound(c, cfg, messages, out, done.result.value, world);
            var g := Fold(Told, Fold(Told, f, done.log), next.log);
            AllLive(done.log) && AllLive(next.log) && Tallies(g, next.out) && SameTurn(f, g)
  {
    var calls := done.result.value.toolCalls;
    AskTold(f, done);
    CallsTold(c, cfg.registry, calls, world, Fold(Told, f, done.log));
    CallsFromLive(c, cfg.registry, calls, world);
  }

  ghost predicate Indexed<W>(f: Facts, last: Usage, ran: Ran<W>) {
    AllLive(ran.log) && Indexes(f, Fold(Told, f, ran.log), last, ran)
  }

  /** What comes before the rest of a run changes nothing it decides. */
  lemma IndexedAfter<W>(f: Facts, last: Usage, earlier: seq<Payload>, rest: Ran<W>)
    requires AllLive(earlier) && SameTurn(f, Fold(Told, f, earlier))
    requires Indexed(Fold(Told, f, earlier), Fold(Heard, last, earlier), rest)
    ensures Indexed(f, last, rest.After(earlier))
  {
    FoldAppend(Told, f, earlier, rest.log);
    FoldAppend(Heard, last, earlier, rest.log);
  }

  lemma {:induction false} LoopTold<W>(c: Codec, cfg: Config<W>, messages: seq<Message>, out: Outcome,
                                       live: Source, world: W, step: nat, f: Facts, last: Usage)
    requires cfg.registry.Valid() && live.Live? && Tallies(f, out)
    ensures Indexed(f, last, Loop(c, cfg, messages, out, live, world, step))
    decreases cfg.Steps() + 1 - step
  {
    if step > cfg.Steps() {
      FailTold(f, Loop(c, cfg, messages, out, live, world, step).log);
      return;
    }
    var done := Completed(c, live, RequestOf(cfg, messages));
    var out' := out.(steps := step);
    var rest := Proceed(c, cfg, messages, out', done, world, step);
    AskTold(f, done);
    if done.result.Err? || Stops(c, cfg, done.result.value, world) {
      StepTold(c, cfg, messages, out', done, world, step, f, last);
    } else {
      var next := NextRound(c, cfg, messages, out', done.result.value, world);
      GoesOn(c, cfg, messages, out', done, world, step);
      RoundTold(c, cfg, messages, out', done, world, f);
      var g, heard := Fold(Told, f, done.log), Fold(Heard, last, done.log);
      LoopTold(c, cfg, next.messages, next.out, done.source, next.world, step + 1,
               Fold(Told, g, next.log), Fold(Heard, heard, next.log));
      IndexedAfter(g, heard, next.log, Loop(c, cfg, next.messages, next.out, done.source, next.world, step + 1));
    }
    assert AllLive(done.log) && SameTurn(f, Fold(Told, f, done.log));
    IndexedAfter(f, last, done.log, rest);
  }

  // ---------------------------------------------------------------- the rows of a turn's tool calls

  /** The calls a log tells of, each with whether its own result was an error. */
  function Perform(calls: seq<IndexedCall>, p: Payload): seq<IndexedCall> {
    match p
    case ToolCalled(call) => calls + [IndexedCall(call.name, false)]
    case ToolReturned(_, _, _, isError) =>
      if calls == [] then calls else calls[|calls| - 1 := calls[|calls| - 1].(isError := isError)]
    case _ => calls
  }

  function Performed(log: seq<Payload>): seq<IndexedCall> {
    Fold(Perform, [], log)
  }

  /** How the index flags them: a call counts as failed when it or any later call of
      the same name failed. */
  function Smeared(calls: seq<IndexedCall>): seq<IndexedCall> {
    seq(|calls|, i requires 0 <= i < |calls| => IndexedCall(calls[i].name, FailsFrom(calls, i, calls[i].name)))
  }

  predicate FailsFrom(calls: seq<IndexedCall>, i: nat, name: string) {
    exists j | i <= j < |calls| :: calls[j].name == name && calls[j].isError
  }

  /** Results follow their calls at once, and every call has a name. */
  predicate Paired(log: seq<Payload>) {
    forall i | 0 <= i < |log| :: PairedAt(log, i)
  }

  predicate PairedAt(log: seq<Payload>, i: nat)
    requires i < |log|
  {
    && (log[i].ToolReturned? ==> i > 0 && log[i - 1].ToolCalled? && log[i - 1].call.name == log[i].name)
    && (log[i].ToolCalled? ==> log[i].call.name != "")
  }

  lemma PairedAppend(xs: seq<Payload>, ys: seq<Payload>)
    requires Paired(xs) && Paired(ys)
    ensures Paired(xs + ys)
  {
    forall i | 0 <= i < |xs + ys|
      ensures PairedAt(xs + ys, i)
    {
      if i < |xs| {
        assert PairedAt(xs, i);
      } else {
        assert PairedAt(ys, i - |xs|);
      }
    }
  }

  lemma {:induction false} CallsPaired<W>(c: Codec, reg: Registry<W>, calls: seq<ToolCall>, world: W)
    requires forall i | 0 <= i < |calls| :: calls[i].name != ""
    ensures Paired(RunCalls(c, reg, calls, world).log)
    decreases |calls|
  {
    if calls != [] {
      var first := RunCall(c, reg, calls[0], world);
      if first.error.None? {
        CallsPaired(c, reg, calls[1..], first.world);
        PairedAppend(first.log, RunCalls(c, reg, calls[1..], first.world).log);
      }
    }
  }

  lemma StopPaired<W>(c: Codec, cfg: Config<W>, messages: seq<Message>, out: Outcome,
                      done: Completion, world: W, step: nat)
    requires cfg.registry.Valid() && step <= cfg.Steps()
    requires done.result.Ok? ==> Stops(c, cfg, done.result.value, world)
    ensures Paired(Proceed(c, cfg, messages, out, done, world, step).log)
  {
    var ran := Proceed(c, cfg, messages, out, done, world, step);
    if done.result.Ok? && Validate(done.result.value).None? && done.result.value.toolCalls != [] {
      var calls := RunCalls(c, cfg.registry, done.result.value.toolCalls, world);
      CallsPaired(c, cfg.registry, done.result.value.toolCalls, world);
      PairedAppend(calls.log, ran.log[|calls.log|..]);
      assert ran.log == calls.log + ran.log[|calls.log|..];
    }
  }

  lemma {:induction false} LoopPaired<W>(c: Codec, cfg: Config<W>, messages: seq<Message>, out: Outcome,
                                         src: Source, world: W, step: nat)
    requires cfg.registry.Valid()
    ensures Paired(Loop(c, cfg, messages, out, src, world, step).log)
    decreases cfg.Steps() + 1 - step
  {
    if step <= cfg.Steps() {
      var done := Completed(c, src, RequestOf(cfg, messages));
      var out' := out.(steps := step);
      if done.result.Err? || Stops(c, cfg, done.result.value, world) {
        StopPaired(c, cfg, messages, out', done, world, step);
      } else {
        var next := NextRound(c, cfg, messages, out', done.result.value, world);
        GoesOn(c, cfg, messages, out', done, world, step);
        CallsPaired(c, cfg.registry, done.result.value.toolCalls, world);
        LoopPaired(c, cfg, next.messages, next.out, done.source, next.world, step + 1);
        PairedAppend(next.log, Loop(c, cfg, next.messages, next.out, done.source, next.world, step + 1).log);
      }
      assert Paired(done.log);
      PairedAppend(done.log, Proceed(c, cfg, messages, out', done, world, step).log);
    }
  }

  lemma RunPaired<W>(c: Codec, cfg: Config<W>, prompt: string, src: Source, world: W)
    requires cfg.registry.Valid() && cfg.model != ""
    ensures Paired(Run(c, cfg, prompt, src, world).log)
  {
    var rest := Loop(c, cfg, [UserSaid(prompt)], NoOutcome, src, world, 1);
    LoopPaired(c, cfg, [UserSaid(prompt)], NoOutcome, src, world, 1);
    PairedAppend([StartOf(cfg, prompt)], rest.log);
  }

  lemma FoldOneMore<S, T>(step: (S, T) -> S, st: S, xs: seq<T>)
    requires xs != []
    ensures Fold(step, st, xs) == step(Fold(step, st, xs[..|xs| - 1]), xs[|xs| - 1])
  {
    var init, x := xs[..|xs| - 1], xs[|xs| - 1];
    assert xs == init + [x];
    FoldAppend(step, st, init, [x]);
    assert [x][1..] == [];
  }

  lemma PairedPrefix(log: seq<Payload>)
    requires log != [] && Paired(log)
    ensures Paired(log[..|log| - 1])
  {
    var init := log[..|log| - 1];
    forall i | 0 <= i < |init|
      ensures PairedAt(init, i)
    {
      assert PairedAt(log, i);
    }
  }

  /** The rows of a paired log's calls. */
  lemma {:induction false} PairedTold(log: seq<Payload>, f: Facts)
    requires Paired(log) && f.tools == []
    ensures Fold(Told, f, log).tools == Smeared(Performed(log))
    decreases |log|
  {
    if log != [] {
      var n := |log| - 1;
      var init, p := log[..n], log[n];
      PairedPrefix(log);
      PairedTold(init, f);
      assert PairedAt(log, n);
      FoldOneMore(Told, f, log);
      FoldOneMore(Perform, [], log);
      var calls := Performed(init);
      if p.ToolCalled? {
        SmearedMore(calls, p.call.name);
      } else if p.ToolReturned? {
        assert init[n - 1] == log[n - 1];
        FoldOneMore(Perform, [], init);
        SmearedLast(calls, p.name, p.isError);
      }
    }
  }

  lemma SmearedMore(calls: seq<IndexedCall>, name: string)
    ensures Smeared(calls + [IndexedCall(name, false)]) == Smeared(calls) + [IndexedCall(name, false)]
  {
    var more := calls + [IndexedCall(name, false)];
    forall i | 0 <= i < |more|
      ensures Smeared(more)[i] == (Smeared(calls) + [IndexedCall(name, false)])[i]
    {
      if i < |calls| {
        assert forall j | i <= j < |calls| :: more[j] == calls[j];
        assert FailsFrom(more, i, calls[i].name) <==> FailsFrom(calls, i, calls[i].name);
      }
    }
  }

  /** The latest call's result, and what it says about earlier calls of its name. */
  lemma SmearedLast(calls: seq<IndexedCall>, name: string, isError: bool)
    requires calls != [] && calls[|calls| - 1] == IndexedCall(name, false)
    ensures Smeared(calls[|calls| - 1 := IndexedCall(name, isError)])
         == if isError then Marked(Smeared(calls), name) else Smeared(calls)
  {
    var n := |calls| - 1;
    var now := calls[n := IndexedCall(name, isError)];
    forall i | 0 <= i < |calls|
      ensures FailsFrom(now, i, calls[i].name)
              <==> FailsFrom(calls, i, calls[i].name) || (isError && calls[i].name == name)
    {
      if isError && calls[i].name == name {
        assert now[n].name == name && now[n].isError;
      }
      if j :| i <= j < |calls| && calls[j].name == calls[i].name && calls[j].isError {
        assert now[j] == calls[j];
      }
      if j :| i <= j < |now| && now[j].name == calls[i].name && now[j].isError {
        assert j == n || now[j] == calls[j];
      }
    }
    assert Smeared(now) == if isError then Marked(Smeared(calls), name) else Smeared(calls);
  }

  /** The row the index should hold for a run. */
  ghost predicate RowOf<W>(cfg: Config<W>, prompt: string, first: Event, ran: Ran<W>, f: Facts) {
    && f.turn.id == first.turnID && f.turn.startedAt == first.ts
    && f.turn.prompt == prompt && f.turn.model == cfg.model
    && f.turn.sandbox == (if "sandbox" in cfg.env then cfg.env["sandbox"] else "")
    && f.turn.role == (if "role" in cfg.env then cfg.env["role"] else "")
    && f.turn.steps == ran.out.steps && f.turn.toolCalls == ran.out.toolCalls
    && f.turn.errored == ran.error.Some?
    && f.turn.usage == Counted(ran, NoUsage)
    && f.tools == Smeared(Performed(ran.log))
    && (ran.error.None? ==> f.turn.answer == ran.out.text && |f.tools| == ran.out.toolCalls)
  }

  /** Reading back a live run's journal recovers its prompt, its settings and its
      outcome: whether it failed, its steps and tool calls, its tokens, one row per
      call performed, and for a run that did not fail its answer. */
  lemma IndexRecoversTheRun<W>(c: Codec, h: Header, cfg: Config<W>, prompt: string, live: Source, world: W,
                               events: seq<Event>, blobs: Blobs)
    requires Lawful(c) && IsSha(h.sha) && cfg.registry.Valid() && cfg.model != "" && live.Live?
    requires RecordingOf(c, h, events, blobs, Run(c, cfg, prompt, live, world))
    ensures var f := FactsIn(c, blobs, events);
            f.Ok? && RowOf(cfg, prompt, events[0], Run(c, cfg, prompt, live, world), f.value)
  {
    var ran := Run(c, cfg, prompt, live, world);
    RunTold(c, cfg, prompt, live, world, Blank(events[0]));
    RunPaired(c, cfg, prompt, live, world);
    PairedTold(ran.log, Blank(events[0]));
    RecordingIsTold(c, h, blobs, events, ran);
  }

  lemma RecordingIsTold<W>(c: Codec, h: Header, blobs: Blobs, events: seq<Event>, ran: Ran<W>)
    requires Lawful(c) && IsSha(h.sha) && RecordingOf(c, h, events, blobs, ran) && AllLive(ran.log) && ran.log != []
    ensures FactsIn(c, blobs, events) == Ok(Fold(Told, Blank(events[0]), ran.log))
  {
    RecordingReadsBack(c, h, events, blobs, ran);
    ReadAllIsToldAll(c, blobs, Blank(events[0]), events, ran.log);
  }

  /** The row's tokens are the outcome's exactly when the run did not end on a
      rejected response that used any. */
  lemma TokensAgreeExactly<W>(c: Codec, h: Header, cfg: Config<W>, prompt: string, live: Source, world: W,
                              events: seq<Event>, blobs: Blobs)
    requires Lawful(c) && IsSha(h.sha) && cfg.registry.Valid() && cfg.model != "" && live.Live?
    requires RecordingOf(c, h, events, blobs, Run(c, cfg, prompt, live, world))
    ensures var ran, f := Run(c, cfg, prompt, live, world), FactsIn(c, blobs, events);
            && f.Ok?
            && (f.value.turn.usage == ran.out.usage
                <==> !Rejected(ran.error) || Fold(Heard, NoUsage, ran.log) == NoUsage)
  {
    IndexRecoversTheRun(c, h, cfg, prompt, live, world, events, blobs);
  }

  lemma SmearedIsExact(calls: seq<IndexedCall>)
    ensures Smeared(calls) == calls
       <==> forall i, j | 0 <= i < j < |calls| && calls[i].name == calls[j].name && calls[j].isError :: calls[i].isError
  {
    if forall i, j | 0 <= i < j < |calls| && calls[i].name == calls[j].name && calls[j].isError :: calls[i].isError {
      forall i | 0 <= i < |calls|
        ensures Smeared(calls)[i] == calls[i]
      {
        assert calls[i].isError ==> FailsFrom(calls, i, calls[i].name);
      }
    }
    if Smeared(calls) == calls {
      forall i, j | 0 <= i < j < |calls| && calls[i].name == calls[j].name && calls[j].isError
        ensures calls[i].isError
      {
        assert Smeared(calls)[i].isError;
      }
    }
  }

  /** The rows tell which calls failed exactly when no call that succeeded is followed
      by one of the same name that did not. */
  lemma FlagsAgreeExactly<W>(c: Codec, h: Header, cfg: Config<W>, prompt: string, live: Source, world: W,
                             events: seq<Event>, blobs: Blobs)
    requires Lawful(c) && IsSha(h.sha) && cfg.registry.Valid() && cfg.model != "" && live.Live?
    requires RecordingOf(c, h, events, blobs, Run(c, cfg, prompt, live, world))
    ensures var f, calls := FactsIn(c, blobs, events), Performed(Run(c, cfg, prompt, live, world).log);
            && f.Ok?
            && (f.value.tools == calls
                <==> !exists i, j :: 0 <= i < j < |calls| && calls[i].name == calls[j].name
                                  && !calls[i].isError && calls[j].isError)
  {
    IndexRecoversTheRun(c, h, cfg, prompt, live, world, events, blobs);
    SmearedIsExact(Performed(Run(c, cfg, prompt, live, world).log));
  }

  /** A first response that calls a tool without naming it. */
  function Unnamed(usage: Usage, model: string): Response {
    Response("", [ToolCall("1", "", "{}")], "tool_use", usage, model)
  }

  lemma UnnamedEndsTheRun<W>(c: Codec, cfg: Config<W>, prompt: string, live: Source, world: W, usage: Usage)
    requires cfg.registry.Valid() && cfg.model != "" && live.Live?
    requires live.replies(live.used) == Answer(Unnamed(usage, cfg.model))
    ensures var ran, req := Run(c, cfg, prompt, live, world), RequestOf(cfg, [UserSaid(prompt)]);
            && ran.error == Some(UnnamedCall(0)) && ran.out.usage == NoUsage
            && ran.log == [StartOf(cfg, prompt)]
                          + ([ModelRequest(req), ModelResponse(Unnamed(usage, cfg.model))]
                             + [LoopError("model", UnnamedCall(0)), TurnEnd("error", 1, 0, NoUsage)])
  {
    var done := Completed(c, live, RequestOf(cfg, [UserSaid(prompt)]));
    assert FirstBadCall(Unnamed(usage, cfg.model).toolCalls, 0) == Some(UnnamedCall(0));
    assert Validate(done.result.value) == Some(UnnamedCall(0));
    assert Proceed(c, cfg, [UserSaid(prompt)], NoOutcome.(steps := 1), done, world, 1)
        == Fail(NoOutcome.(steps := 1), done.source, world, "model", UnnamedCall(0));
  }

  /** Such a turn counts nothing, and its row counts that response. */
  lemma RejectedTokensAreCounted<W>(c: Codec, h: Header, cfg: Config<W>, prompt: string, live: Source, world: W,
                                    events: seq<Event>, blobs: Blobs)
    requires Lawful(c) && IsSha(h.sha) && cfg.registry.Valid() && cfg.model != "" && live.Live?
    requires live.replies(live.used) == Answer(Unnamed(Usage(7, 5, 0), cfg.model))
    requires RecordingOf(c, h, events, blobs, Run(c, cfg, prompt, live, world))
    ensures var ran, f := Run(c, cfg, prompt, live, world), FactsIn(c, blobs, events);
            && ran.error == Some(UnnamedCall(0)) && ran.out.usage == NoUsage
            && f.Ok? && f.value.turn.usage == Usage(7, 5, 0)
  {
    IndexRecoversTheRun(c, h, cfg, prompt, live, world, events, blobs);
    UnnamedEndsTheRun(c, cfg, prompt, live, world, Usage(7, 5, 0));
    var start := [StartOf(cfg, prompt)];
    var asked := [ModelRequest(RequestOf(cfg, [UserSaid(prompt)])), ModelResponse(Unnamed(Usage(7, 5, 0), cfg.model))];
    var closed := [LoopError("model", UnnamedCall(0)), TurnEnd("error", 1, 0, NoUsage)];
    HeardThrough(start, asked, closed);
  }

  lemma HeardThrough(start: seq<Payload>, asked: seq<Payload>, closed: seq<Payload>)
    requires |start| == 1 && start[0].TurnStart? && |asked| == |closed| == 2
    requires asked[0].ModelRequest? && asked[1].ModelResponse? && closed[0].LoopError? && closed[1].TurnEnd?
    ensures Fold(Heard, NoUsage, start + (asked + closed)) == asked[1].response.usage
  {
    FoldAppend(Heard, NoUsage, start, asked + closed);
    assert start[1..] == [];
    FoldAppend(Heard, NoUsage, asked, closed);
    HeardFew(NoUsage, asked);
    HeardFew(asked[1].response.usage, closed);
  }

  lemma RunTold<W>(c: Codec, cfg: Config<W>, prompt: string, live: Source, world: W, f: Facts)
    requires cfg.registry.Valid() && cfg.model != "" && live.Live? && Tallies(f, NoOutcome)
    ensures var ran := Run(c, cfg, prompt, live, world);
            && AllLive(ran.log)
            && Indexes(Told(f, StartOf(cfg, prompt)), Fold(Told, f, ran.log), NoUsage, ran)
  {
    var start := [StartOf(cfg, prompt)];
    var rest := Loop(c, cfg, [UserSaid(prompt)], NoOutcome, live, world, 1);
    ToldFew(f, start);
    FoldAppend(Told, f, start, rest.log);
    FoldAppend(Heard, NoUsage, start, rest.log);
    assert Fold(Heard, NoUsage, start) == NoUsage;
    LoopTold(c, cfg, [UserSaid(prompt)], NoOutcome, live, world, 1, Fold(Told, f, start), NoUsage);
  }

  // ---------------------------------------------------------------- the tables

  datatype Tables = Tables(turns: map<string, TurnRow>, texts: map<string, (string, string)>,
                           calls: map<string, seq<IndexedCall>>)

  const NoTables := Tables(map[], map[], map[])

  /** A turn replaces whatever its id held in all three tables. */
  function Inserted(t: Tables, f: Facts): Tables {
    var id := f.turn.id;
    Tables(t.turns[id := f.turn], t.texts[id := (f.turn.prompt, f.turn.answer)],
           if f.tools == [] then t.calls - {id} else t.calls[id := f.tools])
  }

  function IngestAll(t: Tables, xs: seq<Facts>): Tables
    decreases |xs|
  {
    if xs == [] then t else Inserted(IngestAll(t, xs[..|xs| - 1]), xs[|xs| - 1])
  }

  /** The facts of the listed journals that can be read, in listing order. */
  function FactsFrom(c: Codec, blobs: Blobs, files: map<string, seq<Event>>, names: seq<string>): seq<Facts>
    requires forall n | n in names :: n in files
    decreases |names|
  {
    if names == [] then []
    else
      var init := FactsFrom(c, blobs, files, names[..|names| - 1]);
      match FactsIn(c, blobs, files[names[|names| - 1]])
      case Ok(f) => init + [f]
      case Err(_) => init
  }

  /** The journals a rebuild has to leave out, in listing order. */
  function Unreadable(c: Codec, blobs: Blobs, files: map<string, seq<Event>>, names: seq<string>): seq<string>
    requires forall n | n in names :: n in files
    decreases |names|
  {
    if names == [] then []
    else
      var last := names[|names| - 1];
      Unreadable(c, blobs, files, names[..|names| - 1])
      + if FactsIn(c, blobs, files[last]).Err? then [last] else []
  }

  lemma IngestMore(t: Tables, xs: seq<Facts>, f: Facts)
    ensures IngestAll(t, xs + [f]) == Inserted(IngestAll(t, xs), f)
  {
    assert (xs + [f])[..|xs|] == xs;
  }

  lemma FactsFromMore(c: Codec, blobs: Blobs, files: map<string, seq<Event>>, names: seq<string>, i: nat)
    requires i < |names| && forall n | n in names :: n in files
    ensures FactsFrom(c, blobs, files, names[..i + 1])
         == match FactsIn(c, blobs, files[names[i]]) {
              case Ok(f) => FactsFrom(c, blobs, files, names[..i]) + [f]
              case Err(_) => FactsFrom(c, blobs, files, names[..i])
            }
    ensures Unreadable(c, blobs, files, names[..i + 1])
         == Unreadable(c, blobs, files, names[..i])
            + if FactsIn(c, blobs, files[names[i]]).Err? then [names[i]] else []
  {
    assert names[..i + 1][..i] == names[..i] && names[..i + 1][i] == names[i];
  }

  class Index {
    var turns: map<string, TurnRow>
    var texts: map<string, (string, string)>
    var calls: map<string, seq<IndexedCall>>

    function Contents(): Tables
      reads this
    {
      Tables(turns, texts, calls)
    }

    constructor ()
      ensures Contents() == NoTables
    {
      turns, texts, calls := map[], map[], map[];
    }

    method InsertTurn(f: Facts)
      modifies this
      ensures Contents() == Inserted(old(Contents()), f)
    {
      var id := f.turn.id;
      calls, texts, turns := calls - {id}, texts - {id}, turns - {id};
      turns := turns[id := f.turn];
      texts := texts[id := (f.turn.prompt, f.turn.answer)];
      for i := 0 to |f.tools|
        invariant turns == old(turns)[id := f.turn]
        invariant texts == old(texts)[id := (f.turn.prompt, f.turn.answer)]
        invariant calls == if i == 0 then old(calls) - {id} else old(calls)[id := f.tools[..i]]
      {
        var rows := if id in calls then calls[id] else [];
        assert rows + [f.tools[i]] == f.tools[..i + 1];
        calls := calls[id := rows + [f.tools[i]]];
      }
      assert f.tools[..|f.tools|] == f.tools;
    }

    method Rebuild(c: Codec, blobs: Blobs, files: map<string, seq<Event>>)
      returns (indexed: nat, skipped: seq<string>)
      modifies this
      ensures Contents() == IngestAll(NoTables, FactsFrom(c, blobs, files, Sorted(files.Keys)))
      ensures indexed == |FactsFrom(c, blobs, files, Sorted(files.Keys))|
      ensures skipped == Unreadable(c, blobs, files, Sorted(files.Keys))
    {
      var names := List(files.Keys);
      calls, texts, turns := map[], map[], map[];
      indexed, skipped := 0, [];
      for i := 0 to |names|
        invariant Contents() == IngestAll(NoTables, FactsFrom(c, blobs, files, names[..i]))
        invariant indexed == |FactsFrom(c, blobs, files, names[..i])|
        invariant skipped == Unreadable(c, blobs, files, names[..i])
      {
        FactsFromMore(c, blobs, files, names, i);
        var r := ReadTurn(c, blobs, files[names[i]]);
        if r.Err? {
          skipped := skipped + [names[i]];
          continue;
        }
        IngestMore(NoTables, FactsFrom(c, blobs, files, names[..i]), r.value);
        InsertTurn(r.value);
        indexed := indexed + 1;
      }
      assert names[..|names|] == names;
    }
  }

  // ---------------------------------------------------------------- order does not matter

  /** Different facts belong to different turns. */
  ghost predicate OneEach(xs: seq<Facts>) {
    forall f, g | f in xs && g in xs && f.turn.id == g.turn.id :: f == g
  }

  predicate Listed(xs: seq<Facts>, id: string) {
    exists f | f in xs :: f.turn.id == id
  }

  predicate Holds(t: Tables, f: Facts) {
    var id := f.turn.id;
    && id in t.turns && t.turns[id] == f.turn
    && id in t.texts && t.texts[id] == (f.turn.prompt, f.turn.answer)
    && (if f.tools == [] then id !in t.calls else id in t.calls && t.calls[id] == f.tools)
  }

  /** The tables hold these facts and nothing else. */
  ghost predicate Mirrors(t: Tables, xs: seq<Facts>) {
    && (forall f | f in xs :: Holds(t, f))
    && (forall id | id in t.turns || id in t.texts || id in t.calls :: Listed(xs, id))
  }

  lemma {:induction false} IngestMirrors(xs: seq<Facts>)
    requires OneEach(xs)
    ensures Mirrors(IngestAll(NoTables, xs), xs)
    decreases |xs|
  {
    if xs != [] {
      var n := |xs| - 1;
      var init, last := xs[..n], xs[n];
      IngestMirrors(init);
      assert xs == init + [last];
      InsertedMirrors(IngestAll(NoTables, init), init, last);
    }
  }

  lemma InsertedMirrors(t: Tables, init: seq<Facts>, last: Facts)
    requires OneEach(init + [last]) && Mirrors(t, init)
    ensures Mirrors(Inserted(t, last), init + [last])
  {
    var xs, u := init + [last], Inserted(t, last);
    assert last in xs && forall f | f in init :: f in xs;
    forall f | f in xs
      ensures Holds(u, f)
    {
      assert f in init || f == last;
    }
    forall id | id in u.turns || id in u.texts || id in u.calls
      ensures Listed(xs, id)
    {
      if id != last.turn.id {
        assert Listed(init, id);
      }
    }
  }

  lemma MirrorsUnique(t: Tables, u: Tables, xs: seq<Facts>)
    requires Mirrors(t, xs) && Mirrors(u, xs)
    ensures t == u
  {
    forall id | Listed(xs, id)
      ensures id in t.turns && id in u.turns && t.turns[id] == u.turns[id]
      ensures id in t.texts && id in u.texts && t.texts[id] == u.texts[id]
      ensures (id in t.calls <==> id in u.calls) && (id in t.calls ==> t.calls[id] == u.calls[id])
    {
      var f :| f in xs && f.turn.id == id;
      assert Holds(t, f) && Holds(u, f);
    }
    assert t.turns == u.turns && t.texts == u.texts && t.calls == u.calls;
  }

  /** The tables do not depend on the order turns were ingested in, nor on how often. */
  lemma IngestionOrderIrrelevant(xs: seq<Facts>, ys: seq<Facts>)
    requires OneEach(xs) && forall f :: f in xs <==> f in ys
    ensures IngestAll(NoTables, xs) == IngestAll(NoTables, ys)
  {
    IngestMirrors(xs);
    IngestMirrors(ys);
    var u := IngestAll(NoTables, ys);
    assert Mirrors(u, xs) by {
      forall id | Listed(ys, id)
        ensures Listed(xs, id)
      {
        var f :| f in ys && f.turn.id == id;
        assert f in xs;
      }
    }
    MirrorsUnique(IngestAll(NoTables, xs), u, xs);
  }

  // ---------------------------------------------------------------- what a rebuild leaves

  /** Journals are named after the turns they hold, as the writer names them. */
  ghost predicate NamedByTurn(c: Codec, blobs: Blobs, files: map<string, seq<Event>>) {
    forall n | n in files && FactsIn(c, blobs, files[n]).Ok? :: FactsIn(c, blobs, files[n]).value.turn.id == n
  }

  lemma {:induction false} FactsFromMeans(c: Codec, blobs: Blobs, files: map<string, seq<Event>>, names: seq<string>,
                                          f: Facts)
    requires forall n | n in names :: n in files
    ensures f in FactsFrom(c, blobs, files, names) <==> exists n | n in names :: FactsIn(c, blobs, files[n]) == Ok(f)
    decreases |names|
  {
    if names != [] {
      var init, last := names[..|names| - 1], names[|names| - 1];
      assert names == init + [last];
      FactsFromMeans(c, blobs, files, init, f);
      if f in FactsFrom(c, blobs, files, init) {
        var n :| n in init && FactsIn(c, blobs, files[n]) == Ok(f);
        assert n in names;
      }
      if FactsIn(c, blobs, files[last]) == Ok(f) {
        assert last in names;
      }
    }
  }

  /** Rebuilding leaves exactly the readable turns, each with its own facts. */
  lemma RebuiltMirrorsTheJournals(c: Codec, blobs: Blobs, files: map<string, seq<Event>>)
    requires NamedByTurn(c, blobs, files)
    ensures var t := IngestAll(NoTables, FactsFrom(c, blobs, files, Sorted(files.Keys)));
            && (forall n :: n in t.turns <==> n in files && FactsIn(c, blobs, files[n]).Ok?)
            && (forall n | n in t.texts || n in t.calls :: n in t.turns)
            && forall n | n in t.turns :: Holds(t, FactsIn(c, blobs, files[n]).value)
  {
    var names := Sorted(files.Keys);
    var xs := FactsFrom(c, blobs, files, names);
    forall f, g | f in xs && g in xs && f.turn.id == g.turn.id
      ensures f == g
    {
      FactsFromMeans(c, blobs, files, names, f);
      FactsFromMeans(c, blobs, files, names, g);
    }
    IngestMirrors(xs);
    var t := IngestAll(NoTables, xs);
    forall n | Listed(xs, n)
      ensures n in files && FactsIn(c, blobs, files[n]).Ok? && FactsIn(c, blobs, files[n]).value in xs
    {
      var f :| f in xs && f.turn.id == n;
      FactsFromMeans(c, blobs, files, names, f);
    }
    forall n | n in files && FactsIn(c, blobs, files[n]).Ok?
      ensures n in t.turns
    {
      var f := FactsIn(c, blobs, files[n]).value;
      FactsFromMeans(c, blobs, files, names, f);
      assert n in names && Holds(t, f);
    }
  }
}
