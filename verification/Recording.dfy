/** The recorder, the player, and the cassette between them.

    Models internal/llm/record.go and the cassette half of internal/journal/replay.go. */
module Recording {
  import opened Prelude
  import opened Journal
  import opened JournalWriter
  import opened Llm

  /** One answer of a live provider. Whatever decides them, the answers a run gets
      form a stream indexed by call. */
  datatype Reply = Answer(response: Response) | Refusal(message: string)

  /** The bytes of one recorded exchange; no request in journals from older code. */
  datatype Exchange = Exchange(request: Option<string>, response: string)

  /** Where a run's answers come from, as a value. */
  datatype Source =
    | Live(name: string, replies: nat -> Reply, used: nat)
    | Tape(turn: string, exchanges: seq<Exchange>, cursor: nat, strict: bool)

  datatype Completion = Completion(log: seq<Payload>, source: Source, result: Result<Response, Failure>)

  /** One model call: what it journals, what it leaves of the source, what it returns. */
  function Completed(c: Codec, src: Source, req: Request): Completion {
    match src
    case Live(name, replies, used) => (
      var next := src.(used := used + 1);
      match replies(used)
      case Answer(resp) => Completion([ModelRequest(req), ModelResponse(resp)], next, Ok(resp))
      case Refusal(msg) => Completion([ModelRequest(req), ProviderError(name, msg)], next, Err(ProviderFailed(msg)))
    )
    case Tape(turn, exchanges, cursor, strict) =>
      if cursor >= |exchanges| then
        Completion([ModelRequest(req)], src, Err(CassetteExhausted(turn, |exchanges|)))
      else
        var ex := exchanges[cursor];
        var next := src.(cursor := cursor + 1);
        var got := c.marshal(ModelRequest(req));
        if strict && ex.request.Some? && ex.request.value != got then
          Completion([ModelRequest(req)], next, Err(RequestMismatch(cursor, ex.request.value, got)))
        else
          var log := [ModelRequest(req), Verbatim(ex.response)];
          match c.unmarshal(KindModelResponse, ex.response)
          case Some(ModelResponse(resp)) => Completion(log, next, Ok(resp))
          case _ => Completion(log, next, Err(UndecodableResponse(cursor)))
  }

  function LineOf(c: Codec, p: Payload): Line {
    Line(KindOf(p), c.marshal(p))
  }

  function Lines(c: Codec, log: seq<Payload>): (lines: seq<Line>)
    ensures |lines| == |log|
  {
    seq(|log|, i requires 0 <= i < |log| => LineOf(c, log[i]))
  }

  lemma LinesAppend(c: Codec, xs: seq<Payload>, ys: seq<Payload>)
    ensures Lines(c, xs + ys) == Lines(c, xs) + Lines(c, ys)
  {
  }

  // ---------------------------------------------------------------- cassette

  /** Pairs each response with the latest unmatched request, as CassetteFrom does. */
  function Extract(blobs: Blobs, events: seq<Event>, pending: Option<string>, acc: seq<Exchange>)
    : Option<seq<Exchange>>
    decreases |events|
  {
    if events == [] then Some(acc)
    else
      var e, rest := events[0], events[1..];
      if e.kind == KindModelRequest then
        match ContentOf(blobs, e)
        case None => None
        case Some(body) => Extract(blobs, rest, Pending(body), acc)
      else if e.kind == KindModelResponse then
        match ContentOf(blobs, e)
        case None => None
        case Some(body) => Extract(blobs, rest, None, acc + [Exchange(pending, body)])
      else
        Extract(blobs, rest, pending, acc)
  }

  /** An empty body is indistinguishable from no request at all. */
  function Pending(body: string): Option<string> {
    if body == "" then None else Some(body)
  }

  /** The same pairing on a log whose payloads are all at hand. */
  function Exchanges(lines: seq<Line>, pending: Option<string>): seq<Exchange>
    decreases |lines|
  {
    if lines == [] then []
    else if lines[0].kind == KindModelRequest then Exchanges(lines[1..], Pending(lines[0].body))
    else if lines[0].kind == KindModelResponse then
      [Exchange(pending, lines[0].body)] + Exchanges(lines[1..], None)
    else Exchanges(lines[1..], pending)
  }

  /** Reading a cassette out of sealed events loses nothing: it is the pairing of
      the lines that were appended. */
  lemma {:induction false} ExtractSealed(h: Header, blobs: Blobs, from: nat, lines: seq<Line>,
                                         pending: Option<string>, acc: seq<Exchange>)
    requires forall i | 0 <= i < |lines| :: ContentOf(blobs, SealAll(h, from, lines)[i]) == Some(lines[i].body)
    ensures Extract(blobs, SealAll(h, from, lines), pending, acc) == Some(acc + Exchanges(lines, pending))
    decreases |lines|
  {
    var events := SealAll(h, from, lines);
    if lines == [] {
      assert acc + [] == acc;
    } else {
      var rest := lines[1..];
      assert events[1..] == SealAll(h, from + 1, rest);
      forall i | 0 <= i < |rest|
        ensures ContentOf(blobs, SealAll(h, from + 1, rest)[i]) == Some(rest[i].body)
      {
        assert SealAll(h, from + 1, rest)[i] == events[i + 1] && rest[i] == lines[i + 1];
      }
      assert ContentOf(blobs, events[0]) == Some(lines[0].body);
      if lines[0].kind == KindModelRequest {
        ExtractSealed(h, blobs, from + 1, rest, Pending(lines[0].body), acc);
      } else if lines[0].kind == KindModelResponse {
        var ex := Exchange(pending, lines[0].body);
        ExtractSealed(h, blobs, from + 1, rest, None, acc + [ex]);
        assert acc + [ex] + Exchanges(rest, None) == acc + ([ex] + Exchanges(rest, None));
      } else {
        ExtractSealed(h, blobs, from + 1, rest, pending, acc);
      }
    }
  }

  class Cassette {
    const turnID: string
    const exchanges: seq<Exchange>
    var cursor: nat

    constructor (turnID: string, exchanges: seq<Exchange>)
      ensures this.turnID == turnID && this.exchanges == exchanges && cursor == 0
    {
      this.turnID, this.exchanges, cursor := turnID, exchanges, 0;
    }

    method Next() returns (ex: Option<Exchange>)
      modifies this
      ensures old(cursor) < |exchanges| ==> ex == Some(exchanges[old(cursor)]) && cursor == old(cursor) + 1
      ensures old(cursor) >= |exchanges| ==> ex == None && cursor == old(cursor)
    {
      if cursor >= |exchanges| {
        return None;
      }
      ex := Some(exchanges[cursor]);
      cursor := cursor + 1;
    }
  }

  function FirstTurnID(events: seq<Event>): string
    decreases |events|
  {
    if events == [] then "" else if events[0].turnID != "" then events[0].turnID else FirstTurnID(events[1..])
  }

  datatype CassetteError = MissingBlob | NoResponses

  /** The exchanges CassetteFrom accepts, or why it refuses. */
  function CassetteContent(blobs: Blobs, events: seq<Event>): Result<seq<Exchange>, CassetteError> {
    match Extract(blobs, events, None, [])
    case None => Err(MissingBlob)
    case Some(exchanges) => if exchanges == [] then Err(NoResponses) else Ok(exchanges)
  }

  method CassetteFrom(events: seq<Event>, blobs: Blobs) returns (r: Result<Cassette, CassetteError>)
    ensures match CassetteContent(blobs, events)
            case Err(e) => r == Err(e)
            case Ok(exchanges) =>
              r.Ok? && fresh(r.value) && r.value.cursor == 0 && r.value.exchanges == exchanges
              && r.value.turnID == FirstTurnID(events)
  {
    var turnID := "";
    var exchanges: seq<Exchange> := [];
    var pending: Option<string> := None;
    for i := 0 to |events|
      invariant Extract(blobs, events[i..], pending, exchanges) == Extract(blobs, events, None, [])
      invariant FirstTurnID(events) == if turnID == "" then FirstTurnID(events[i..]) else turnID
    {
      var ev := events[i];
      assert events[i..][0] == ev && events[i..][1..] == events[i + 1..];
      if turnID == "" {
        turnID := ev.turnID;
      }
      if ev.kind == KindModelRequest {
        var body := ContentOf(blobs, ev);
        if body.None? {
          return Err(MissingBlob);
        }
        pending := Pending(body.value);
      } else if ev.kind == KindModelResponse {
        var body := ContentOf(blobs, ev);
        if body.None? {
          return Err(MissingBlob);
        }
        exchanges := exchanges + [Exchange(pending, body.value)];
        pending := None;
      }
    }
    if exchanges == [] {
      return Err(NoResponses);
    }
    var cassette := new Cassette(turnID, exchanges);
    return Ok(cassette);
  }

  // ---------------------------------------------------------------- providers

  class LiveModel {
    const name: string
    const replies: nat -> Reply
    var used: nat

    constructor (name: string, replies: nat -> Reply)
      ensures this.name == name && this.replies == replies && used == 0
    {
      this.name, this.replies, used := name, replies, 0;
    }

    method Complete() returns (r: Reply)
      modifies this
      ensures r == replies(old(used)) && used == old(used) + 1
    {
      r := replies(used);
      used := used + 1;
    }
  }

  /** The two wrappers the loop is ever given, both journaling into `j`. */
  datatype Provider =
    | Recorder(inner: LiveModel, j: Writer)
    | Player(cassette: Cassette, j: Writer, strict: bool)
  {
    function Current(): Source
      reads match this case Recorder(inner, _) => {inner as object} case Player(cassette, _, _) => {cassette as object}
    {
      match this
      case Recorder(inner, _) => Live(inner.name, inner.replies, inner.used)
      case Player(cassette, _, strict) => Tape(cassette.turnID, cassette.exchanges, cassette.cursor, strict)
    }

    function Cursor(): object {
      match this
      case Recorder(inner, _) => inner
      case Player(cassette, _, _) => cassette
    }
  }

  /** The writer's state after the given lines were appended without a fault. */
  function Appended(h: Header, st: WriterState, lines: seq<Line>): WriterState {
    WriterState(st.seqNo + |lines|, st.events + SealAll(h, st.seqNo, lines),
                StoredAll(h, st.blobs, lines), st.closed)
  }

  lemma AppendedTwice(h: Header, st: WriterState, xs: seq<Line>, ys: seq<Line>)
    ensures Appended(h, Appended(h, st, xs), ys) == Appended(h, st, xs + ys)
  {
    StoredAllAppend(h, st.blobs, xs, ys);
    SealAllAppend(h, st.seqNo, xs, ys);
    assert st.events + SealAll(h, st.seqNo, xs) + SealAll(h, st.seqNo + |xs|, ys)
        == st.events + (SealAll(h, st.seqNo, xs) + SealAll(h, st.seqNo + |xs|, ys));
  }

  /** `st` is `base` with `log` appended. The quantifier keeps that equation folded
      until `Unfold(log)` is mentioned. */
  ghost predicate Holds(c: Codec, h: Header, base: WriterState, log: seq<Payload>, st: WriterState) {
    forall l: seq<Payload> {:trigger Unfold(l)} ::
      Unfold(l) && l == log ==> st == Appended(h, base, Lines(c, l))
  }

  predicate Unfold(log: seq<Payload>) {
    true
  }

  lemma HoldsMore(c: Codec, h: Header, base: WriterState, log: seq<Payload>, more: seq<Payload>, st: WriterState)
    requires Holds(c, h, base, log, st)
    ensures Holds(c, h, base, log + more, Appended(h, st, Lines(c, more)))
  {
    assert Unfold(log);
    AppendedTwice(h, base, Lines(c, log), Lines(c, more));
    LinesAppend(c, log, more);
  }

  lemma HoldsNothing(c: Codec, h: Header, base: WriterState)
    ensures Holds(c, h, base, [], base)
  {
    assert SealAll(h, base.seqNo, []) == [];
  }

  lemma HoldsMeans(c: Codec, h: Header, base: WriterState, log: seq<Payload>, st: WriterState)
    requires Holds(c, h, base, log, st)
    ensures st == Appended(h, base, Lines(c, log))
  {
    assert Unfold(log);
  }

  /** Journals one payload on an open writer. Append failures inside a run are not modelled. */
  method Note(c: Codec, j: Writer, p: Payload)
    requires j.Valid() && !j.closed
    modifies j, j.store
    ensures j.Valid() && !j.closed && j.disk == old(j.disk)
    ensures j.State() == Appended(j.Head(), old(j.State()), Lines(c, [p]))
  {
    var before := j.State();
    var _ := j.Append(LineOf(c, p), NoFault);
    assert Lines(c, [p]) == [LineOf(c, p)];
    assert SealAll(j.Head(), before.seqNo, [LineOf(c, p)]) == [Seal(j.Head(), before.seqNo, LineOf(c, p))];
  }

  /** One model call through either wrapper. */
  method Complete(c: Codec, p: Provider, req: Request) returns (r: Result<Response, Failure>)
    requires p.j.Valid() && !p.j.closed && p.Cursor() != p.j && p.Cursor() != p.j.store
    modifies p.j, p.j.store, p.Cursor()
    ensures p.j.Valid() && !p.j.closed && p.j.disk == old(p.j.disk)
    ensures var done := Completed(c, old(p.Current()), req);
            && p.Current() == done.source
            && r == done.result
            && p.j.State() == Appended(p.j.Head(), old(p.j.State()), Lines(c, done.log))
  {
    ghost var h, st := p.j.Head(), p.j.State();
    Note(c, p.j, ModelRequest(req));
    match p
    case Recorder(inner, j) =>
      var reply := inner.Complete();
      match reply {
        case Refusal(msg) =>
          Note(c, j, ProviderError(inner.name, msg));
          r := Err(ProviderFailed(msg));
          NotedTwice(c, h, st, ModelRequest(req), ProviderError(inner.name, msg));
        case Answer(resp) =>
          Note(c, j, ModelResponse(resp));
          r := Ok(resp);
          NotedTwice(c, h, st, ModelRequest(req), ModelResponse(resp));
      }
    case Player(cassette, j, strict) =>
      var pos := cassette.cursor;
      var ex := cassette.Next();
      if ex.None? {
        return Err(CassetteExhausted(cassette.turnID, |cassette.exchanges|));
      }
      if strict && ex.value.request.Some? {
        var got := c.marshal(ModelRequest(req));
        if ex.value.request.value != got {
          return Err(RequestMismatch(pos, ex.value.request.value, got));
        }
      }
      Note(c, j, Verbatim(ex.value.response));
      NotedTwice(c, h, st, ModelRequest(req), Verbatim(ex.value.response));
      match c.unmarshal(KindModelResponse, ex.value.response) {
        case Some(ModelResponse(resp)) => r := Ok(resp);
        case _ => r := Err(UndecodableResponse(pos));
      }
  }

  lemma NotedTwice(c: Codec, h: Header, st: WriterState, p: Payload, q: Payload)
    ensures Appended(h, Appended(h, st, Lines(c, [p])), Lines(c, [q])) == Appended(h, st, Lines(c, [p, q]))
  {
    AppendedTwice(h, st, Lines(c, [p]), Lines(c, [q]));
    LinesAppend(c, [p], [q]);
    assert [p] + [q] == [p, q];
  }
}
