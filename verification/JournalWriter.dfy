/** The writer that appends a turn's events, the blob store large payloads spill
    into, and the reader that accepts a journal file only when it has no gaps.

    Models internal/journal/writer.go, internal/journal/reader.go and
    internal/blob/store.go. */
module JournalWriter {
  import opened Prelude
  import opened Journal

  /** One append as its caller sees it: a kind and the marshalled payload. */
  datatype Line = Line(kind: Kind, body: string)

  /** What is fixed for one turn. `spills` says whether a blob store is attached. */
  datatype Header = Header(turnID: string, clock: nat -> int, sha: Hash, spills: bool) {
    predicate Spills(body: string) {
      spills && |body| >= SpillThreshold
    }
  }

  type Blobs = map<string, string>

  /** The event written for the n-th append, counting from zero. */
  function Seal(h: Header, n: nat, line: Line): Event {
    var spilled := h.Spills(line.body);
    Event(n + 1, h.turnID, line.kind, h.clock(n), |line.body|,
          if spilled then "" else line.body,
          if spilled then h.sha(line.body) else "")
  }

  /** A sealed event is numbered from one, and its payload moves to the blob store exactly
      when there is one and the payload has 4096 bytes or more. */
  lemma SealedAs(h: Header, n: nat, line: Line)
    requires IsSha(h.sha)
    ensures var e := Seal(h, n, line);
            && e.seqNo == n + 1 && e.turnID == h.turnID && e.kind == line.kind && e.ts == h.clock(n)
            && e.size == |line.body|
            && (e.Spilled() <==> h.spills && |line.body| >= 4096)
            && (if e.Spilled() then e.payload == "" && e.blob == h.sha(line.body)
                else e.payload == line.body && e.blob == "")
  {
    assert |h.sha(line.body)| == 64;
  }

  function SealAll(h: Header, from: nat, lines: seq<Line>): (events: seq<Event>)
    ensures |events| == |lines|
  {
    seq(|lines|, i requires 0 <= i < |lines| => Seal(h, from + i, lines[i]))
  }

  lemma SealAllAt(h: Header, from: nat, lines: seq<Line>, i: nat)
    requires i < |lines|
    ensures SealAll(h, from, lines)[i] == Seal(h, from + i, lines[i])
  {
  }

  lemma SealAllAppend(h: Header, from: nat, xs: seq<Line>, ys: seq<Line>)
    ensures SealAll(h, from, xs + ys) == SealAll(h, from, xs) + SealAll(h, from + |xs|, ys)
  {
  }

  // ---------------------------------------------------------------- blob store

  /** Storing content that is already present, going by its hash, is a no-op. */
  function Stored(sha: Hash, blobs: Blobs, body: string): Blobs {
    if sha(body) in blobs then blobs else blobs[sha(body) := body]
  }

  function StoredAll(h: Header, blobs: Blobs, lines: seq<Line>): Blobs
    decreases |lines|
  {
    if lines == [] then blobs
    else
      var last := lines[|lines| - 1].body;
      var rest := StoredAll(h, blobs, lines[..|lines| - 1]);
      if h.Spills(last) then Stored(h.sha, rest, last) else rest
  }

  lemma {:induction false} StoredAllAppend(h: Header, blobs: Blobs, xs: seq<Line>, ys: seq<Line>)
    ensures StoredAll(h, blobs, xs + ys) == StoredAll(h, StoredAll(h, blobs, xs), ys)
    decreases |ys|
  {
    if ys == [] {
      assert xs + ys == xs;
    } else {
      StoredAllAppend(h, blobs, xs, ys[..|ys| - 1]);
      assert (xs + ys)[..|xs + ys| - 1] == xs + ys[..|ys| - 1];
    }
  }

  /** Every blob is filed under the hash of its content. */
  ghost predicate Intact(sha: Hash, blobs: Blobs) {
    forall ref | ref in blobs :: sha(blobs[ref]) == ref
  }

  function BodiesOf(lines: seq<Line>): set<string> {
    set l | l in lines :: l.body
  }

  ghost predicate CollisionFree(sha: Hash, contents: set<string>) {
    forall x, y | x in contents && y in contents :: sha(x) == sha(y) ==> x == y
  }

  /** The store only grows, stays content-addressed, and ends up holding every
      payload that spilled into it. */
  lemma {:induction false} StoredAllHolds(h: Header, blobs: Blobs, lines: seq<Line>)
    requires Intact(h.sha, blobs)
    requires CollisionFree(h.sha, blobs.Values + BodiesOf(lines))
    ensures var final := StoredAll(h, blobs, lines);
            && Intact(h.sha, final)
            && final.Values <= blobs.Values + BodiesOf(lines)
            && (forall ref | ref in blobs :: ref in final && final[ref] == blobs[ref])
            && forall l | l in lines && h.Spills(l.body) ::
                 h.sha(l.body) in final && final[h.sha(l.body)] == l.body
    decreases |lines|
  {
    if lines != [] {
      var init, last := lines[..|lines| - 1], lines[|lines| - 1];
      assert BodiesOf(init) <= BodiesOf(lines);
      assert last in lines;
      StoredAllHolds(h, blobs, init);
      forall l | l in lines
        ensures l in init || l == last
      {
        var i :| 0 <= i < |lines| && lines[i] == l;
        assert i < |init| ==> init[i] == l;
      }
    }
  }

  /** Fetches an event's payload; None when the blob it names is missing. */
  function ContentOf(blobs: Blobs, e: Event): Option<string> {
    if !e.Spilled() then Some(e.payload)
    else if e.blob in blobs then Some(blobs[e.blob])
    else None
  }

  /** Every sealed payload can be fetched again, byte for byte. */
  lemma SealedContentReadsBack(h: Header, blobs: Blobs, from: nat, lines: seq<Line>)
    requires IsSha(h.sha) && Intact(h.sha, blobs)
    requires CollisionFree(h.sha, blobs.Values + BodiesOf(lines))
    ensures forall i | 0 <= i < |lines| ::
              ContentOf(StoredAll(h, blobs, lines), SealAll(h, from, lines)[i]) == Some(lines[i].body)
  {
    StoredAllHolds(h, blobs, lines);
    var final := StoredAll(h, blobs, lines);
    forall i | 0 <= i < |lines|
      ensures ContentOf(final, SealAll(h, from, lines)[i]) == Some(lines[i].body)
    {
      var line := lines[i];
      assert line in lines;
      SealedContent(h, final, from + i, line);
      SealAllAt(h, from, lines, i);
    }
  }

  lemma SealedContent(h: Header, blobs: Blobs, n: nat, line: Line)
    requires IsSha(h.sha)
    requires h.Spills(line.body) ==> h.sha(line.body) in blobs && blobs[h.sha(line.body)] == line.body
    ensures ContentOf(blobs, Seal(h, n, line)) == Some(line.body)
  {
    assert |h.sha(line.body)| == 64;
  }

  lemma StoredAllOne(h: Header, blobs: Blobs, line: Line)
    ensures StoredAll(h, blobs, [line]) == if h.Spills(line.body) then Stored(h.sha, blobs, line.body) else blobs
  {
    assert [line][..0] == [];
  }

  class BlobStore {
    const sha: Hash
    var blobs: Blobs

    constructor (sha: Hash)
      ensures this.sha == sha && blobs == map[]
    {
      this.sha := sha;
      blobs := map[];
    }

    method PutBytes(b: string) returns (ref: string)
      modifies this
      ensures ref == sha(b)
      ensures blobs == Stored(sha, old(blobs), b)
    {
      ref := sha(b);
      if ref !in blobs {
        blobs := blobs[ref := b];
      }
    }
  }

  // ---------------------------------------------------------------- appending

  /** Where an append can fail. Only the first leaves the sequence number alone. */
  datatype Fault = NoFault | MarshalFails | SpillFails | EncodeFails | WriteFails

  /** The writer's fields, with the attached store's content. */
  datatype WriterState = WriterState(seqNo: nat, events: seq<Event>, blobs: Blobs, closed: bool)

  /** What became of one append. A lost append has consumed a sequence number. */
  datatype Fate = Written | Refused | Lost

  function FateOf(h: Header, st: WriterState, line: Line, fault: Fault): Fate {
    if fault.MarshalFails? || st.closed then Refused
    else if fault.NoFault? || (fault.SpillFails? && !h.Spills(line.body)) then Written
    else Lost
  }

  function Attempt(h: Header, st: WriterState, line: Line, fault: Fault): WriterState {
    match FateOf(h, st, line, fault)
    case Refused => st
    case Written =>
      WriterState(st.seqNo + 1, st.events + [Seal(h, st.seqNo, line)], StoredAll(h, st.blobs, [line]), false)
    case Lost =>
      var blobs := if fault.SpillFails? then st.blobs else StoredAll(h, st.blobs, [line]);
      WriterState(st.seqNo + 1, st.events, blobs, false)
  }

  class Writer {
    const turnID: string
    const store: BlobStore?
    const sha: Hash
    const clock: nat -> int
    var seqNo: nat
    var events: seq<Event>
    var closed: bool
    var disk: seq<Event>

    ghost predicate Valid()
      reads this
    {
      && (store != null ==> store.sha == sha)
      && (closed ==> disk == events)
    }

    function Head(): Header {
      Header(turnID, clock, sha, store != null)
    }

    function State(): WriterState
      reads this, store
    {
      WriterState(seqNo, events, if store == null then map[] else store.blobs, closed)
    }

    constructor Create(turnID: string, store: BlobStore?, sha: Hash, clock: nat -> int)
      requires store != null ==> store.sha == sha
      ensures Valid() && !closed && seqNo == 0 && events == [] && disk == []
      ensures this.turnID == turnID && this.store == store && this.sha == sha && this.clock == clock
    {
      this.turnID, this.store, this.sha, this.clock := turnID, store, sha, clock;
      seqNo, events, closed, disk := 0, [], false, [];
    }

    method Append(line: Line, fault: Fault) returns (fate: Fate)
      requires Valid()
      modifies this, store
      ensures Valid() && disk == old(disk)
      ensures fate == FateOf(Head(), old(State()), line, fault)
      ensures State() == Attempt(Head(), old(State()), line, fault)
    {
      StoredAllOne(Head(), State().blobs, line);
      if fault.MarshalFails? || closed {
        return Refused;
      }
      seqNo := seqNo + 1;
      var ev := Event(seqNo, turnID, line.kind, clock(seqNo - 1), |line.body|, "", "");
      if |line.body| >= SpillThreshold && store != null {
        if fault.SpillFails? {
          return Lost;
        }
        var ref := store.PutBytes(line.body);
        ev := ev.(blob := ref);
      } else {
        ev := ev.(payload := line.body);
      }
      if fault.EncodeFails? || fault.WriteFails? {
        return Lost;
      }
      events := events + [ev];
      return Written;
    }

    /** Closing flushes the buffer; closing again does nothing. */
    method Close()
      requires Valid()
      modifies this
      ensures Valid() && closed && disk == old(if closed then disk else events)
      ensures events == old(events) && seqNo == old(seqNo)
    {
      if closed {
        return;
      }
      closed := true;
      disk := events;
    }
  }

  // ---------------------------------------------------------------- reading back

  predicate Contiguous(events: seq<Event>) {
    forall i | 0 <= i < |events| :: events[i].seqNo == i + 1
  }

  /** Parses a journal file; Err carries the sequence number found at the gap. */
  method ReadFrom(disk: seq<Event>) returns (r: Result<seq<Event>, int>)
    ensures Contiguous(disk) ==> r == Ok(disk)
    ensures !Contiguous(disk) ==>
              exists i | 0 <= i < |disk| ::
                Contiguous(disk[..i]) && disk[i].seqNo != i + 1 && r == Err(disk[i].seqNo)
  {
    var events: seq<Event> := [];
    for i := 0 to |disk|
      invariant events == disk[..i] && Contiguous(disk[..i])
    {
      if disk[i].seqNo != |events| + 1 {
        return Err(disk[i].seqNo);
      }
      events := events + [disk[i]];
    }
    assert disk[..|disk|] == disk;
    return Ok(events);
  }

  datatype AppendCall = AppendCall(line: Line, fault: Fault)

  /** The writer after a whole series of append attempts. */
  function AttemptAll(h: Header, st: WriterState, calls: seq<AppendCall>): WriterState
    decreases |calls|
  {
    if calls == [] then st
    else
      var before := AttemptAll(h, st, calls[..|calls| - 1]);
      var r := calls[|calls| - 1];
      Attempt(h, before, r.line, r.fault)
  }

  function FateAt(h: Header, st: WriterState, calls: seq<AppendCall>, i: nat): Fate
    requires i < |calls|
  {
    FateOf(h, AttemptAll(h, st, calls[..i]), calls[i].line, calls[i].fault)
  }

  ghost predicate SomeLost(h: Header, st: WriterState, calls: seq<AppendCall>) {
    exists i | 0 <= i < |calls| :: FateAt(h, st, calls, i).Lost?
  }

  /** Some append was written after an earlier one had lost its number. */
  ghost predicate WrittenAfterLoss(h: Header, st: WriterState, calls: seq<AppendCall>) {
    exists i, j | 0 <= i < j < |calls| ::
      FateAt(h, st, calls, i).Lost? && FateAt(h, st, calls, j).Written?
  }

  /** A journal reads back, whatever appends failed, exactly when nothing was
      written after an append that failed past numbering. */
  lemma {:induction false} ReadsBackExactly(h: Header, st: WriterState, calls: seq<AppendCall>)
    requires st.seqNo == 0 && st.events == []
    ensures Contiguous(AttemptAll(h, st, calls).events) <==> !WrittenAfterLoss(h, st, calls)
    ensures |AttemptAll(h, st, calls).events| <= AttemptAll(h, st, calls).seqNo
    ensures SomeLost(h, st, calls)
            <==> |AttemptAll(h, st, calls).events| < AttemptAll(h, st, calls).seqNo
    decreases |calls|
  {
    if calls == [] {
      return;
    }
    var n := |calls| - 1;
    var init, last := calls[..n], calls[n];
    ReadsBackExactly(h, st, init);
    forall i | 0 <= i < n
      ensures FateAt(h, st, calls, i) == FateAt(h, st, init, i)
    {
      assert calls[..i] == init[..i];
    }
    var before, after := AttemptAll(h, st, init), AttemptAll(h, st, calls);
    var fate := FateOf(h, before, last.line, last.fault);
    assert fate == FateAt(h, st, calls, n);
    assert SomeLost(h, st, calls) <==> SomeLost(h, st, init) || fate.Lost?;
    assert WrittenAfterLoss(h, st, calls)
      <==> WrittenAfterLoss(h, st, init) || (SomeLost(h, st, init) && fate.Written?);
    if fate.Written? {
      assert after.events[..|before.events|] == before.events;
      assert after.events[|before.events|].seqNo == before.seqNo + 1;
      assert Contiguous(after.events) <==> Contiguous(before.events) && before.seqNo == |before.events|;
    }
  }
}
