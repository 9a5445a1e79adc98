/** The append-only turn journal: events, the digest over them, the writer, the
    reader, and the comparison of two recorded streams.

    Models internal/journal/event.go, writer.go, reader.go and the comparing half
    of replay.go, with internal/blob/store.go as a content-addressed map. */
module Journal {
  import opened Prelude

  datatype Kind =
    | KindTurnStart | KindModelRequest | KindModelResponse | KindToolCall
    | KindToolResult | KindNote | KindError | KindTurnEnd

  function KindName(k: Kind): string {
    match k
    case KindTurnStart => "turn.start"
    case KindModelRequest => "model.request"
    case KindModelResponse => "model.response"
    case KindToolCall => "tool.call"
    case KindToolResult => "tool.result"
    case KindNote => "note"
    case KindError => "error"
    case KindTurnEnd => "turn.end"
  }

  lemma KindNamesDecodable(a: Kind, b: Kind)
    ensures NulFree(KindName(a))
    ensures KindName(a) == KindName(b) ==> a == b
  {
    assert KindName(a) == KindName(b) ==> |KindName(a)| == |KindName(b)|;
  }

  /** Payloads at or above this many bytes move to the blob store. */
  const SpillThreshold := 4096

  /** SHA-256 as lowercase hex, seen from outside: 64 hexadecimal characters. */
  type Hash = string -> string

  ghost predicate IsSha(sha: Hash) {
    forall b: string :: |sha(b)| == 64 && forall ch | ch in sha(b) :: '0' <= ch <= '9' || 'a' <= ch <= 'f'
  }

  datatype Event = Event(seqNo: int, turnID: string, kind: Kind, ts: int,
                         size: nat, payload: string, blob: string) {
    predicate Spilled() {
      blob != ""
    }
  }

  // ---------------------------------------------------------------- digest

  /** What a digest is meant to depend on: everything but turn id, time and size. */
  datatype Content = Inline(bytes: string) | InBlob(ref: string)
  datatype View = View(seqNo: int, kind: Kind, content: Content)

  function ViewOf(e: Event): View {
    View(e.seqNo, e.kind, if e.Spilled() then InBlob(e.blob) else Inline(e.payload))
  }

  function Views(events: seq<Event>): seq<View> {
    seq(|events|, i requires 0 <= i < |events| => ViewOf(events[i]))
  }

  /** The k low-order bytes of n, most significant first. */
  function BigEndian(n: nat, k: nat): (s: string)
    ensures |s| == k
  {
    if k == 0 then "" else BigEndian(n / 256, k - 1) + [(n % 256) as char]
  }

  lemma {:induction false} BigEndianInjective(a: nat, b: nat, k: nat)
    requires a < Pow256(k) && b < Pow256(k)
    requires BigEndian(a, k) == BigEndian(b, k)
    ensures a == b
  {
    if k > 0 {
      var x, y := BigEndian(a, k), BigEndian(b, k);
      assert x[k - 1] == (a % 256) as char && y[k - 1] == (b % 256) as char;
      assert x[..k - 1] == BigEndian(a / 256, k - 1) && y[..k - 1] == BigEndian(b / 256, k - 1);
      BigEndianInjective(a / 256, b / 256, k - 1);
    }
  }

  const TwoTo63 := 0x8000_0000_0000_0000

  predicate IsInt64(n: int) {
    -TwoTo63 <= n < TwoTo63
  }

  /** Go's conversion of an int64 to a uint64, then its eight bytes. */
  function Unsigned64(n: int): nat {
    n % (2 * TwoTo63)
  }

  function SeqWidth(): nat {
    8
  }

  function SeqBytes(n: int): (s: string)
    ensures |s| == SeqWidth()
  {
    BigEndian(Unsigned64(n), SeqWidth())
  }

  lemma SeqBytesInjective(a: int, b: int)
    requires IsInt64(a) && IsInt64(b) && SeqBytes(a) == SeqBytes(b)
    ensures a == b
  {
    assert Pow256(8) == 2 * TwoTo63;
    BigEndianInjective(Unsigned64(a), Unsigned64(b), 8);
  }

  /** A journal whose events can be told apart byte for byte. JSON text never
      contains a raw NUL. */
  predicate WellFormed(e: Event) {
    IsInt64(e.seqNo) && NulFree(e.payload) && NulFree(e.blob)
  }

  predicate AllWellFormed(events: seq<Event>) {
    forall e | e in events :: WellFormed(e)
  }

  /** The bytes one event contributes to a digest. */
  function Body(e: Event): string {
    if e.Spilled() then "blob:" + e.blob else "inline:" + e.payload
  }

  function EventBytes(e: Event): string {
    SeqBytes(e.seqNo) + (KindName(e.kind) + [NUL] + (Body(e) + [NUL]))
  }

  function DigestInput(events: seq<Event>): string {
    Concat(EventBytes, events)
  }

  /** Folds the events into a running hash, as the loop over digestInto does. */
  method Digest(sha: Hash, events: seq<Event>) returns (d: string)
    ensures d == sha(DigestInput(events))
  {
    var written := "";
    for i := 0 to |events|
      invariant written == DigestInput(events[..i])
    {
      assert events[..i + 1] == events[..i] + [events[i]];
      ConcatAppend(EventBytes, events[..i], [events[i]]);
      ConcatOne(EventBytes, events[i]);
      written := written + EventBytes(events[i]);
    }
    assert events[..|events|] == events;
    d := sha(written);
  }

  /** The number eight bytes spell, most significant first. */
  function Spelled(s: string): nat
    decreases |s|
  {
    if s == "" then 0 else 256 * Spelled(s[..|s| - 1]) + s[|s| - 1] as nat
  }

  lemma {:induction false} BigEndianSpells(n: nat, k: nat)
    requires n < Pow256(k)
    ensures Spelled(BigEndian(n, k)) == n
    decreases k
  {
    if k > 0 {
      BigEndianSpells(n / 256, k - 1);
      var s := BigEndian(n, k);
      assert s[..k - 1] == BigEndian(n / 256, k - 1);
    }
  }

  /** Kinds are hashed by the names journals give them. */
  lemma KindsAreNamed()
    ensures KindName(KindTurnStart) == "turn.start" && KindName(KindTurnEnd) == "turn.end"
    ensures KindName(KindModelRequest) == "model.request" && KindName(KindModelResponse) == "model.response"
    ensures KindName(KindToolCall) == "tool.call" && KindName(KindToolResult) == "tool.result"
    ensures KindName(KindNote) == "note" && KindName(KindError) == "error"
  {
  }

  /** The bytes behind one event's digest: its number as a big-endian 64-bit integer, the
      name of its kind, and its payload or, when that was spilled, its ref, marked as the
      one or the other, the last two closed by a NUL each. */
  lemma {:induction false} DigestInputOfOne(e: Event)
    requires IsInt64(e.seqNo)
    ensures var s := DigestInput([e]);
            && |s| >= 8
            && Spelled(s[..8]) == (if e.seqNo >= 0 then e.seqNo else e.seqNo + 0x1_0000_0000_0000_0000)
            && s[8..] == KindName(e.kind) + ['\0'] + (if e.blob == "" then "inline:" + e.payload else "blob:" + e.blob)
                         + ['\0']
  {
    ConcatOne(EventBytes, e);
    assert Pow256(8) == 0x1_0000_0000_0000_0000;
    BigEndianSpells(Unsigned64(e.seqNo), 8);
    assert DigestInput([e])[..8] == SeqBytes(e.seqNo);
  }

  lemma BodyDeterminesContent(x: Event, y: Event)
    requires Body(x) == Body(y)
    ensures ViewOf(x).content == ViewOf(y).content
  {
    var a, b := Body(x), Body(y);
    if x.Spilled() {
      assert a[0] == 'b';
      assert x.blob == a[5..];
    } else {
      assert a[0] == 'i';
      assert x.payload == a[7..];
    }
    if y.Spilled() {
      assert b[0] == 'b';
      assert y.blob == b[5..];
    } else {
      assert b[0] == 'i';
      assert y.payload == b[7..];
    }
  }

  lemma EventBytesSplit(e: Event, rest: string)
    requires WellFormed(e)
    ensures |EventBytes(e) + rest| >= 8
    ensures (EventBytes(e) + rest)[..8] == SeqBytes(e.seqNo)
    ensures (EventBytes(e) + rest)[8..] == KindName(e.kind) + [NUL] + (Body(e) + [NUL] + rest)
  {
  }

  /** One event's bytes can be read back off the front of any digest input. */
  lemma EventBytesPrefix(x: Event, restX: string, y: Event, restY: string)
    requires WellFormed(x) && WellFormed(y)
    requires EventBytes(x) + restX == EventBytes(y) + restY
    ensures ViewOf(x) == ViewOf(y) && restX == restY
  {
    var lTail, rTail := Body(x) + [NUL] + restX, Body(y) + [NUL] + restY;
    EventBytesSplit(x, restX);
    EventBytesSplit(y, restY);
    SeqBytesInjective(x.seqNo, y.seqNo);
    KindNamesDecodable(x.kind, y.kind);
    KindNamesDecodable(y.kind, x.kind);
    SplitAtNul(KindName(x.kind), lTail, KindName(y.kind), rTail);
    SplitAtNul(Body(x), restX, Body(y), restY);
    BodyDeterminesContent(x, y);
  }

  /** The byte string behind a digest is uniquely decodable. */
  lemma {:induction false} DigestInputDecodable(xs: seq<Event>, ys: seq<Event>)
    requires AllWellFormed(xs) && AllWellFormed(ys)
    ensures DigestInput(xs) == DigestInput(ys) <==> Views(xs) == Views(ys)
  {
    if xs == [] || ys == [] {
      assert |Views(xs)| == |xs| && |Views(ys)| == |ys|;
    } else {
      DigestInputDecodable(xs[1..], ys[1..]);
      assert Views(xs) == [ViewOf(xs[0])] + Views(xs[1..]);
      assert Views(ys) == [ViewOf(ys[0])] + Views(ys[1..]);
      if DigestInput(xs) == DigestInput(ys) {
        EventBytesPrefix(xs[0], DigestInput(xs[1..]), ys[0], DigestInput(ys[1..]));
      }
      if Views(xs) == Views(ys) {
        assert Views(xs)[0] == Views(ys)[0];
        assert Views(xs)[1..] == Views(ys)[1..];
      }
    }
  }

  /** Two turns have the same digest exactly when they agree on every event's
      sequence number, kind and content, unless their two inputs collide. */
  lemma DigestsAgreeExactly(sha: Hash, xs: seq<Event>, ys: seq<Event>)
    requires AllWellFormed(xs) && AllWellFormed(ys)
    requires sha(DigestInput(xs)) == sha(DigestInput(ys)) ==> DigestInput(xs) == DigestInput(ys)
    ensures sha(DigestInput(xs)) == sha(DigestInput(ys)) <==> Views(xs) == Views(ys)
  {
    DigestInputDecodable(xs, ys);
  }

  /** The tail of b's bytes, without the closing NUL, as a payload could carry it. */
  function Smuggled(b: Event): string {
    SeqBytes(b.seqNo) + (KindName(b.kind) + [NUL] + Body(b))
  }

  /** Without NUL-freedom the input is ambiguous: one event whose payload spells
      out a second event hashes like the two events. */
  lemma NulMakesDigestAmbiguous(a: Event, b: Event)
    requires !a.Spilled()
    ensures var forged := a.(payload := a.payload + ([NUL] + Smuggled(b)));
            DigestInput([forged]) == DigestInput([a, b]) && Views([forged]) != Views([a, b])
  {
    var forged := a.(payload := a.payload + ([NUL] + Smuggled(b)));
    ConcatOne(EventBytes, forged);
    ConcatOne(EventBytes, a);
    ConcatOne(EventBytes, b);
    ConcatAppend(EventBytes, [a], [b]);
    assert [a] + [b] == [a, b];
    ForgedBytes(a, b);
    assert |Views([forged])| != |Views([a, b])|;
  }

  lemma ForgedBytes(a: Event, b: Event)
    requires !a.Spilled()
    ensures EventBytes(a.(payload := a.payload + ([NUL] + Smuggled(b)))) == EventBytes(a) + EventBytes(b)
  {
    var forged := a.(payload := a.payload + ([NUL] + Smuggled(b)));
    ConcatAssociates("inline:", a.payload, [NUL] + Smuggled(b));
    assert Body(forged) == Body(a) + ([NUL] + Smuggled(b));
    Reassociate(SeqBytes(b.seqNo), KindName(b.kind) + [NUL], Body(b));
    Smuggle(SeqBytes(a.seqNo), KindName(a.kind) + [NUL], Body(a), Smuggled(b));
  }

  lemma ConcatAssociates(a: string, b: string, c: string)
    ensures a + (b + c) == (a + b) + c
  {
  }

  lemma Smuggle(s: string, k: string, n: string, tail: string)
    ensures s + (k + ((n + ([NUL] + tail)) + [NUL])) == (s + (k + (n + [NUL]))) + (tail + [NUL])
  {
  }

  lemma Reassociate(s: string, k: string, b: string)
    ensures s + (k + (b + [NUL])) == (s + (k + b)) + [NUL]
  {
  }

  // ---------------------------------------------------------------- verify

  datatype Reason = KindDiffers | PayloadDiffers | StoppedEarly | ExtraEvents

  datatype Divergence = Divergence(seqNo: int, reason: Reason)

  /** The per-event test of Verify: same kind, and digests alike in their first 16
      characters. */
  ghost predicate LooksSame(sha: Hash, r: Event, p: Event)
    requires IsSha(sha)
  {
    r.kind == p.kind && sha(DigestInput([r]))[..16] == sha(DigestInput([p]))[..16]
  }

  /** The two truncated digests being compared do not collide. */
  ghost predicate NoShortCollision(sha: Hash, r: Event, p: Event)
    requires IsSha(sha)
  {
    sha(DigestInput([r]))[..16] == sha(DigestInput([p]))[..16] ==> DigestInput([r]) == DigestInput([p])
  }

  /** d says where and how the streams first part ways. */
  ghost predicate FirstDivergence(sha: Hash, recorded: seq<Event>, replayed: seq<Event>, d: Divergence)
    requires IsSha(sha)
  {
    exists i :: DivergesAt(sha, recorded, replayed, i, d)
  }

  ghost predicate DivergesAt(sha: Hash, recorded: seq<Event>, replayed: seq<Event>, i: int, d: Divergence)
    requires IsSha(sha)
  {
    && 0 <= i <= |recorded|
    && i <= |replayed|
    && SameUpTo(sha, recorded, replayed, i)
    && match d.reason
       case KindDiffers =>
         i < |recorded| && i < |replayed| && d.seqNo == recorded[i].seqNo && recorded[i].kind != replayed[i].kind
       case PayloadDiffers =>
         i < |recorded| && i < |replayed| && d.seqNo == recorded[i].seqNo && recorded[i].kind == replayed[i].kind
         && !LooksSame(sha, recorded[i], replayed[i])
       case StoppedEarly =>
         i == |replayed| < |recorded| && d.seqNo == recorded[i].seqNo
       case ExtraEvents =>
         i == |recorded| < |replayed| && d.seqNo == replayed[i].seqNo
  }

  ghost predicate SameUpTo(sha: Hash, recorded: seq<Event>, replayed: seq<Event>, n: nat)
    requires IsSha(sha) && n <= |recorded| && n <= |replayed|
  {
    forall i | 0 <= i < n :: LooksSame(sha, recorded[i], replayed[i])
  }

  method Verify(sha: Hash, recorded: seq<Event>, replayed: seq<Event>) returns (d: Option<Divergence>)
    requires IsSha(sha)
    ensures d.None? <==> |recorded| == |replayed| && SameUpTo(sha, recorded, replayed, |recorded|)
    ensures d.None? ==>
              forall i | 0 <= i < |recorded| ::
                && recorded[i].kind == replayed[i].kind
                && sha(DigestInput([recorded[i]]))[..16] == sha(DigestInput([replayed[i]]))[..16]
    ensures d.Some? ==> FirstDivergence(sha, recorded, replayed, d.value)
  {
    var n := if |replayed| < |recorded| then |replayed| else |recorded|;
    for i := 0 to n
      invariant SameUpTo(sha, recorded, replayed, i)
    {
      var r, p := recorded[i], replayed[i];
      if r.kind != p.kind {
        d := Some(Divergence(r.seqNo, KindDiffers));
        assert DivergesAt(sha, recorded, replayed, i, d.value);
        return;
      }
      var rd := Digest(sha, [r]);
      var pd := Digest(sha, [p]);
      if rd[..16] != pd[..16] {
        d := Some(Divergence(r.seqNo, PayloadDiffers));
        assert !LooksSame(sha, r, p);
        assert DivergesAt(sha, recorded, replayed, i, d.value);
        return;
      }
    }
    if |replayed| < |recorded| {
      d := Some(Divergence(recorded[|replayed|].seqNo, StoppedEarly));
      assert DivergesAt(sha, recorded, replayed, n, d.value);
    } else if |replayed| > |recorded| {
      d := Some(Divergence(replayed[|recorded|].seqNo, ExtraEvents));
      assert DivergesAt(sha, recorded, replayed, n, d.value);
    } else {
      d := None;
    }
  }

  ghost predicate NoShortCollisions(sha: Hash, recorded: seq<Event>, replayed: seq<Event>)
    requires IsSha(sha)
  {
    forall i | 0 <= i < |recorded| && i < |replayed| :: NoShortCollision(sha, recorded[i], replayed[i])
  }

  /** Verify accepts exactly the streams that agree on seq, kind and content. */
  lemma VerifyAcceptsExactly(sha: Hash, recorded: seq<Event>, replayed: seq<Event>)
    requires IsSha(sha) && AllWellFormed(recorded) && AllWellFormed(replayed)
    requires NoShortCollisions(sha, recorded, replayed)
    ensures (|recorded| == |replayed| && SameUpTo(sha, recorded, replayed, |recorded|))
            <==> Views(recorded) == Views(replayed)
  {
    forall i | 0 <= i < |recorded| && i < |replayed|
      ensures LooksSame(sha, recorded[i], replayed[i]) <==> ViewOf(recorded[i]) == ViewOf(replayed[i])
    {
      OneEventComparison(sha, recorded[i], replayed[i]);
    }
    if Views(recorded) == Views(replayed) {
      assert |recorded| == |Views(recorded)| == |replayed|;
      forall i | 0 <= i < |recorded|
        ensures LooksSame(sha, recorded[i], replayed[i])
      {
        assert Views(recorded)[i] == Views(replayed)[i];
      }
    }
  }

  lemma OneEventComparison(sha: Hash, r: Event, p: Event)
    requires IsSha(sha) && WellFormed(r) && WellFormed(p) && NoShortCollision(sha, r, p)
    ensures LooksSame(sha, r, p) <==> ViewOf(r) == ViewOf(p)
  {
    DigestInputDecodable([r], [p]);
    assert Views([r])[0] == ViewOf(r) && Views([p])[0] == ViewOf(p);
    if ViewOf(r) == ViewOf(p) {
      assert Views([r]) == Views([p]);
    }
  }
}
