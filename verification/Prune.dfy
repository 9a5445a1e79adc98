/** Retention: removing old turns, then every blob no surviving turn refers to.

    Models pruneJournals and verifyTurn in cmd/nemuz/journal.go, with Refs and Remove
    of internal/blob/store.go. Any removal may fail, and every state the disk passes
    through is remembered, so that what is proved holds between the steps too. */
module Prune {
  import opened Prelude
  import opened Journal
  import opened JournalWriter
  import opened Order

  /** Turn files by id, and the refs of the blobs present. */
  datatype Snapshot = Snapshot(turns: map<string, seq<Event>>, blobs: set<string>)

  datatype Report = Report(turns: seq<string>, blobs: nat)

  predicate Expired(events: seq<Event>, before: int) {
    |events| > 0 && events[0].ts < before
  }

  function RefsIn(events: seq<Event>): set<string> {
    set e | e in events && e.Spilled() :: e.blob
  }

  predicate AllReadable(turns: map<string, seq<Event>>) {
    forall id | id in turns :: Contiguous(turns[id])
  }

  /** The expired among the named turns, in the order they are named. */
  function ExpiredOf(turns: map<string, seq<Event>>, before: int, names: seq<string>): seq<string>
    requires forall n | n in names :: n in turns
    decreases |names|
  {
    if names == [] then []
    else
      var last := names[|names| - 1];
      ExpiredOf(turns, before, names[..|names| - 1]) + if Expired(turns[last], before) then [last] else []
  }

  /** The refs of the others. */
  function LiveOf(turns: map<string, seq<Event>>, before: int, names: seq<string>): set<string>
    requires forall n | n in names :: n in turns
    decreases |names|
  {
    if names == [] then {}
    else
      var last := names[|names| - 1];
      LiveOf(turns, before, names[..|names| - 1])
      + if Expired(turns[last], before) then {} else RefsIn(turns[last])
  }

  lemma {:induction false} ExpiredOfMeans(turns: map<string, seq<Event>>, before: int, names: seq<string>, n: string)
    requires forall x | x in names :: x in turns
    ensures n in ExpiredOf(turns, before, names) <==> n in names && Expired(turns[n], before)
    decreases |names|
  {
    if names != [] {
      ExpiredOfMeans(turns, before, names[..|names| - 1], n);
      assert names == names[..|names| - 1] + [names[|names| - 1]];
    }
  }

  predicate RefersTo(turns: map<string, seq<Event>>, id: string, ref: string) {
    id in turns && ref in RefsIn(turns[id])
  }

  lemma {:induction false} LiveOfMeans(turns: map<string, seq<Event>>, before: int, names: seq<string>, ref: string)
    requires forall x | x in names :: x in turns
    ensures ref in LiveOf(turns, before, names)
            <==> exists n | n in names :: !Expired(turns[n], before) && RefersTo(turns, n, ref)
    decreases |names|
  {
    if names != [] {
      var init, last := names[..|names| - 1], names[|names| - 1];
      LiveOfMeans(turns, before, init, ref);
      assert names == init + [last];
      if ref in LiveOf(turns, before, init) {
        var n :| n in init && !Expired(turns[n], before) && RefersTo(turns, n, ref);
        assert n in names;
      } else if !Expired(turns[last], before) && ref in RefsIn(turns[last]) {
        assert last in names && RefersTo(turns, last, ref);
      }
    }
  }

  predicate ReadableUpTo(turns: map<string, seq<Event>>, names: seq<string>, i: nat)
    requires i <= |names| && forall n | n in names :: n in turns
    decreases i
  {
    i == 0 || (Contiguous(turns[names[i - 1]]) && ReadableUpTo(turns, names, i - 1))
  }

  lemma {:induction false} ReadableMeans(turns: map<string, seq<Event>>, names: seq<string>, i: nat)
    requires i <= |names| && forall n | n in names :: n in turns
    ensures ReadableUpTo(turns, names, i) <==> forall n | n in names[..i] :: Contiguous(turns[n])
    decreases i
  {
    if i > 0 {
      ReadableMeans(turns, names, i - 1);
      assert names[..i] == names[..i - 1] + [names[i - 1]];
    }
  }

  lemma ReadableToTheEnd(turns: map<string, seq<Event>>, names: seq<string>)
    requires forall n :: n in names <==> n in turns
    ensures ReadableUpTo(turns, names, |names|) <==> AllReadable(turns)
  {
    ReadableMeans(turns, names, |names|);
    assert names[..|names|] == names;
  }

  lemma ScanMore(turns: map<string, seq<Event>>, before: int, names: seq<string>, i: nat)
    requires i < |names| && forall n | n in names :: n in turns
    ensures ExpiredOf(turns, before, names[..i + 1])
         == ExpiredOf(turns, before, names[..i]) + if Expired(turns[names[i]], before) then [names[i]] else []
    ensures LiveOf(turns, before, names[..i + 1])
         == LiveOf(turns, before, names[..i]) + if Expired(turns[names[i]], before) then {} else RefsIn(turns[names[i]])
  {
    assert names[..i + 1][..i] == names[..i] && names[..i + 1][i] == names[i];
  }

  function Survivors(turns: map<string, seq<Event>>, before: int): map<string, seq<Event>> {
    map id | id in turns && !Expired(turns[id], before) :: turns[id]
  }

  /** No turn still present has lost a blob it refers to, and nothing was added. */
  ghost predicate Safe(was: Snapshot, now: Snapshot) {
    && now.blobs <= was.blobs
    && forall id | id in now.turns ::
         && id in was.turns && now.turns[id] == was.turns[id]
         && RefsIn(now.turns[id]) * was.blobs <= now.blobs
  }

  ghost predicate AllSafe(was: Snapshot, states: seq<Snapshot>) {
    forall now | now in states :: Safe(was, now)
  }

  lemma SafeTwice(was: Snapshot, mid: Snapshot, now: Snapshot)
    requires Safe(was, mid) && Safe(mid, now)
    ensures Safe(was, now)
  {
  }

  lemma AllSafeFrom(was: Snapshot, mid: Snapshot, states: seq<Snapshot>)
    requires Safe(was, mid) && AllSafe(mid, states)
    ensures AllSafe(was, states)
  {
    forall now | now in states
      ensures Safe(was, now)
    {
      SafeTwice(was, mid, now);
    }
  }

  /** What a history gained since it was `from`, all of it safe. */
  ghost predicate Extends(was: Snapshot, from: seq<Snapshot>, to: seq<Snapshot>) {
    from <= to && AllSafe(was, to[|from|..])
  }

  lemma ExtendsBy(was: Snapshot, from: seq<Snapshot>, to: seq<Snapshot>, now: Snapshot)
    requires Extends(was, from, to) && Safe(was, now)
    ensures Extends(was, from, to + [now])
  {
    assert (to + [now])[|from|..] == to[|from|..] + [now];
  }

  lemma ExtendsTwice(was: Snapshot, mid: Snapshot, a: seq<Snapshot>, b: seq<Snapshot>, c: seq<Snapshot>)
    requires Safe(was, mid) && Extends(was, a, b) && Extends(mid, b, c)
    ensures Extends(was, a, c)
  {
    assert c[|a|..] == b[|a|..] + c[|b|..];
    AllSafeFrom(was, mid, c[|b|..]);
  }

  /** What a sweep that has got to i leaves. */
  function Left(blobs: set<string>, live: set<string>, refs: seq<string>, i: nat): set<string>
    requires i <= |refs|
  {
    blobs - (set r | r in refs[..i] && r !in live)
  }

  lemma StillThere(blobs: set<string>, live: set<string>, i: nat)
    requires i < |Sorted(blobs)|
    ensures Sorted(blobs)[i] in Left(blobs, live, Sorted(blobs), i)
  {
    SortedAscending(blobs);
    assert Sorted(blobs)[i] in Sorted(blobs);
  }

  lemma SweptAll(blobs: set<string>, live: set<string>)
    ensures Left(blobs, live, Sorted(blobs), |Sorted(blobs)|) == blobs * live
  {
    var refs := Sorted(blobs);
    assert refs[..|refs|] == refs;
  }

  lemma LeftMore(blobs: set<string>, live: set<string>, refs: seq<string>, i: nat)
    requires i < |refs|
    ensures Left(blobs, live, refs, i + 1)
         == if refs[i] in live then Left(blobs, live, refs, i) else Left(blobs, live, refs, i) - {refs[i]}
  {
    assert refs[..i + 1] == refs[..i] + [refs[i]];
  }

  method CollectRefs(events: seq<Event>) returns (refs: set<string>)
    ensures refs == RefsIn(events)
  {
    refs := {};
    for i := 0 to |events|
      invariant refs == RefsIn(events[..i])
    {
      assert events[..i + 1] == events[..i] + [events[i]];
      if events[i].Spilled() {
        refs := refs + {events[i].blob};
      }
    }
    assert events[..|events|] == events;
  }

  method ReadTurn(disk: seq<Event>) returns (r: Option<seq<Event>>)
    ensures r == if Contiguous(disk) then Some(disk) else None
  {
    var read := ReadFrom(disk);
    return if read.Ok? then Some(read.value) else None;
  }

  /** Checks that every blob a turn refers to is present. */
  method VerifyTurn(disk: seq<Event>, blobs: set<string>) returns (ok: bool)
    ensures ok <==> Contiguous(disk) && RefsIn(disk) <= blobs
  {
    var read := ReadTurn(disk);
    if read.None? {
      return false;
    }
    for i := 0 to |disk|
      invariant RefsIn(disk[..i]) <= blobs
    {
      assert disk[..i + 1] == disk[..i] + [disk[i]];
      if disk[i].Spilled() && disk[i].blob !in blobs {
        assert disk[i] in disk && disk[i].blob in RefsIn(disk);
        return false;
      }
    }
    assert disk[..|disk|] == disk;
    return true;
  }

  /** Pruning never changes what verifying a surviving turn says. */
  lemma SurvivorsStillVerify(was: Snapshot, now: Snapshot, id: string)
    requires Safe(was, now) && id in now.turns
    ensures RefsIn(now.turns[id]) <= now.blobs <==> RefsIn(was.turns[id]) <= was.blobs
  {
    var refs := RefsIn(was.turns[id]);
    assert refs <= was.blobs ==> refs * was.blobs == refs;
  }

  /** What a pruning is meant to leave. */
  ghost predicate PrunedTo(was: Snapshot, before: int, now: Snapshot) {
    && now.turns == Survivors(was.turns, before)
    && forall ref :: ref in now.blobs <==> ref in was.blobs && exists id :: RefersTo(now.turns, id, ref)
  }

  lemma ExpiredAre(turns: map<string, seq<Event>>, before: int)
    ensures var expired := ExpiredOf(turns, before, Sorted(turns.Keys));
            && (forall id :: id in expired <==> id in turns && |turns[id]| > 0 && turns[id][0].ts < before)
            && turns - (set id | id in expired) == Survivors(turns, before)
  {
    forall id
      ensures id in ExpiredOf(turns, before, Sorted(turns.Keys)) <==> id in turns && Expired(turns[id], before)
    {
      ExpiredOfMeans(turns, before, Sorted(turns.Keys), id);
    }
  }

  lemma LiveAre(turns: map<string, seq<Event>>, before: int)
    ensures var live, left := LiveOf(turns, before, Sorted(turns.Keys)), Survivors(turns, before);
            && (forall ref :: ref in live <==> exists id :: RefersTo(left, id, ref))
            && (forall id | id in left :: RefsIn(left[id]) <= live)
  {
    var names := Sorted(turns.Keys);
    var live, left := LiveOf(turns, before, names), Survivors(turns, before);
    forall ref
      ensures ref in live <==> exists id :: RefersTo(left, id, ref)
    {
      LiveOfMeans(turns, before, names, ref);
      if ref in live {
        var id :| id in names && !Expired(turns[id], before) && RefersTo(turns, id, ref);
        assert RefersTo(left, id, ref);
      }
      if id :| RefersTo(left, id, ref) {
        assert id in names && RefersTo(turns, id, ref);
      }
    }
    forall id, ref | id in left && ref in RefsIn(left[id])
      ensures ref in live
    {
      assert RefersTo(left, id, ref);
    }
  }

  // ---------------------------------------------------------------- a turn still being recorded

  /** The disk once a turn has written out the events it held back and recorded more.
      Their blobs are stored as they are recorded, before any event is written out. */
  function Finished(now: Snapshot, id: string, buffered: seq<Event>, later: seq<Event>): Snapshot
    requires id in now.turns
  {
    Snapshot(now.turns[id := now.turns[id] + buffered + later], now.blobs + RefsIn(later))
  }

  lemma RefsJoin(a: seq<Event>, b: seq<Event>)
    ensures RefsIn(a + b) == RefsIn(a) + RefsIn(b)
  {
    forall ref | ref in RefsIn(a) + RefsIn(b)
      ensures ref in RefsIn(a + b)
    {
      var e :| (e in a || e in b) && e.Spilled() && e.blob == ref;
      assert e in a + b;
    }
  }

  /** A pruning cannot see the events a turn being recorded has not written out yet. The
      turn comes out complete exactly when every blob that only those refer to is also
      referred to by a turn that stays, or stored again by what the turn records later. */
  lemma RecordingSurvivesExactly(was: Snapshot, before: int, now: Snapshot, id: string,
                                 buffered: seq<Event>, later: seq<Event>)
    requires PrunedTo(was, before, now) && id in now.turns
    requires RefsIn(was.turns[id]) <= was.blobs && RefsIn(buffered) <= was.blobs
    ensures var after := Finished(now, id, buffered, later);
            RefsIn(after.turns[id]) <= after.blobs
            <==> forall ref | ref in RefsIn(buffered) && ref !in RefsIn(later) ::
                   exists other :: RefersTo(now.turns, other, ref)
  {
    var own := now.turns[id];
    RefsJoin(own, buffered);
    RefsJoin(own + buffered, later);
    forall ref | ref in RefsIn(own)
      ensures ref in now.blobs
    {
      assert RefersTo(now.turns, id, ref);
    }
  }

  /** So one held back event is enough, when its payload was spilled and is nowhere else. */
  lemma HeldBackEventIsLost(was: Snapshot, before: int, now: Snapshot, id: string, e: Event)
    requires PrunedTo(was, before, now) && id in now.turns
    requires RefsIn(was.turns[id]) <= was.blobs && e.Spilled() && e.blob in was.blobs
    requires forall other :: !RefersTo(was.turns, other, e.blob)
    ensures var after := Finished(now, id, [e], []); !(RefsIn(after.turns[id]) <= after.blobs)
  {
    assert e in [e];
    assert RefsIn([e]) == {e.blob};
    RecordingSurvivesExactly(was, before, now, id, [e], []);
    forall other
      ensures !RefersTo(now.turns, other, e.blob)
    {
      assert !RefersTo(was.turns, other, e.blob);
    }
  }

  class Disk {
    var turns: map<string, seq<Event>>
    var blobs: set<string>
    var indexed: bool
    ghost var past: seq<Snapshot>

    constructor (turns: map<string, seq<Event>>, blobs: set<string>, indexed: bool)
      ensures this.turns == turns && this.blobs == blobs && this.indexed == indexed && past == []
    {
      this.turns, this.blobs, this.indexed, past := turns, blobs, indexed, [];
    }

    ghost function Now(): Snapshot
      reads this
    {
      Snapshot(turns, blobs)
    }

    method RemoveTurn(id: string)
      modifies this
      ensures turns == old(turns) - {id} && blobs == old(blobs) && indexed == old(indexed)
      ensures past == old(past) + [Snapshot(turns, blobs)]
    {
      turns := turns - {id};
      past := past + [Now()];
    }

    method RemoveBlob(ref: string)
      modifies this
      ensures blobs == old(blobs) - {ref} && turns == old(turns) && indexed == old(indexed)
      ensures past == old(past) + [Snapshot(turns, blobs)]
    {
      blobs := blobs - {ref};
      past := past + [Now()];
    }

    /** Reads every turn. One that cannot be read stops the pruning before it starts. */
    method Scan(before: int) returns (r: Option<(seq<string>, set<string>)>)
      ensures r.Some? <==> AllReadable(turns)
      ensures r.Some? ==> r.value.0 == ExpiredOf(turns, before, Sorted(turns.Keys))
      ensures r.Some? ==> r.value.1 == LiveOf(turns, before, Sorted(turns.Keys))
    {
      var names := List(turns.Keys);
      var expired, live := [], {};
      for i := 0 to |names|
        invariant expired == ExpiredOf(turns, before, names[..i])
        invariant live == LiveOf(turns, before, names[..i])
        invariant ReadableUpTo(turns, names, i)
      {
        assert names[i] in names;
        ScanMore(turns, before, names, i);
        var read := ReadTurn(turns[names[i]]);
        if read.None? {
          return None;
        }
        var events := read.value;
        if Expired(events, before) {
          expired := expired + [names[i]];
          continue;
        }
        var refs := CollectRefs(events);
        live := live + refs;
      }
      assert names[..|names|] == names;
      ReadableToTheEnd(turns, names);
      return Some((expired, live));
    }

    method RemoveExpired(expired: seq<string>, fails: nat -> bool) returns (ok: bool)
      requires forall id | id in expired :: id in turns
      modifies this
      ensures blobs == old(blobs) && indexed == old(indexed)
      ensures Extends(old(Now()), old(past), past) && Safe(old(Now()), Now())
      ensures ok ==> turns == old(turns) - (set id | id in expired)
      ensures (forall k :: !fails(k)) ==> ok
    {
      ghost var was := Now();
      for i := 0 to |expired|
        invariant blobs == old(blobs) && indexed == old(indexed)
        invariant Extends(was, old(past), past)
        invariant turns == old(turns) - (set id | id in expired[..i])
      {
        if fails(i) {
          return false;
        }
        ghost var before := past;
        RemoveTurn(expired[i]);
        assert expired[..i + 1] == expired[..i] + [expired[i]];
        ExtendsBy(was, old(past), before, Now());
      }
      assert expired[..|expired|] == expired;
      return true;
    }

    method Sweep(live: set<string>, fails: nat -> bool) returns (removed: nat, ok: bool)
      requires forall id | id in turns :: RefsIn(turns[id]) <= live
      modifies this
      ensures turns == old(turns) && indexed == old(indexed)
      ensures Extends(old(Now()), old(past), past) && Safe(old(Now()), Now())
      ensures removed == |old(blobs)| - |blobs|
      ensures ok ==> blobs == old(blobs) * live
      ensures (forall k :: !fails(k)) ==> ok
    {
      ghost var was := Now();
      var refs := List(blobs);
      removed := 0;
      for i := 0 to |refs|
        invariant turns == old(turns) && indexed == old(indexed)
        invariant Extends(was, old(past), past)
        invariant blobs == Left(old(blobs), live, refs, i)
        invariant |blobs| == |old(blobs)| - removed
      {
        LeftMore(old(blobs), live, refs, i);
        if refs[i] in live {
          continue;
        }
        if fails(i) {
          return removed, false;
        }
        ghost var before := past;
        StillThere(old(blobs), live, i);
        RemoveBlob(refs[i]);
        removed := removed + 1;
        LeftIsSafe(was, Now(), live, refs, i + 1);
        ExtendsBy(was, old(past), before, Now());
      }
      SweptAll(old(blobs), live);
      return removed, true;
    }

    /** Turns started before the cutoff go first, then the blobs nothing left
        refers to, then the index. */
    method PruneJournals(before: int, apply: bool, turnFails: nat -> bool, blobFails: nat -> bool)
      returns (report: Report, ok: bool)
      modifies this
      // No turn still present ever refers to a removed blob, at any point, whatever fails.
      ensures Extends(old(Now()), old(past), past) && Safe(old(Now()), Now())
      ensures !old(AllReadable(turns)) ==> !ok && report == Report([], 0)
      ensures old(AllReadable(turns)) ==> report.turns == ExpiredOf(old(turns), before, Sorted(old(turns).Keys))
      ensures !apply || !old(AllReadable(turns)) ==> Now() == old(Now()) && past == old(past)
      // A pruning that completes leaves exactly the blobs a surviving turn refers to.
      ensures apply && ok ==> PrunedTo(old(Now()), before, Now()) && !indexed
      // A turn stays exactly if it has no event yet or its first is not before the cutoff.
      ensures apply && ok ==>
                forall id :: id in turns <==> id in old(turns)
                                              && (|old(turns)[id]| == 0 || old(turns)[id][0].ts >= before)
      ensures old(AllReadable(turns)) ==>
                forall id :: id in report.turns <==> id in old(turns)
                                                     && |old(turns)[id]| > 0 && old(turns)[id][0].ts < before
      ensures report.blobs == |old(blobs)| - |blobs|
      ensures old(AllReadable(turns)) && (!apply || forall k :: !turnFails(k) && !blobFails(k)) ==> ok
      ensures !apply || !ok ==> indexed == old(indexed)
    {
      ghost var was, names := Now(), Sorted(turns.Keys);
      var scanned := Scan(before);
      if scanned.None? {
        return Report([], 0), false;
      }
      var (expired, live) := scanned.value;
      ExpiredAre(was.turns, before);
      if !apply {
        return Report(expired, 0), true;
      }
      ok := RemoveExpired(expired, turnFails);
      if !ok {
        return Report(expired, 0), false;
      }
      ghost var mid, midPast := Now(), past;
      LiveAre(was.turns, before);
      var removed;
      removed, ok := Sweep(live, blobFails);
      ExtendsTwice(was, mid, old(past), midPast, past);
      SafeTwice(was, mid, Now());
      report := Report(expired, removed);
      if ok {
        indexed := false;
      }
    }
  }

  lemma LeftIsSafe(was: Snapshot, now: Snapshot, live: set<string>, refs: seq<string>, i: nat)
    requires forall id | id in was.turns :: RefsIn(was.turns[id]) <= live
    requires now.turns == was.turns && i <= |refs| && now.blobs == Left(was.blobs, live, refs, i)
    ensures Safe(was, now)
  {
  }
}
