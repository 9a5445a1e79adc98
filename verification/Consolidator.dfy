/** A whole consolidation run: list, pair up, ask about each pair, merge.

    Models Run and consider of internal/consolidate/consolidate.go, and Fingerprint
    of internal/consolidate/candidates.go. What the model answers about a pair is
    arbitrary. */
module Consolidator {
  import opened Prelude
  import opened Order
  import opened Skills
  import opened Curator
  import opened Consolidate
  import C = Candidates
  import L = Ledger

  // ---------------------------------------------------------------- fingerprints

  function Fingerprint(a: string, b: string): string {
    var first, second := if Less(b, a) then b else a, if Less(b, a) then a else b;
    "consolidate:" + first + "|" + second
  }

  lemma {:induction false} WordsHaveNoBar(s: string, inWord: bool)
    requires Words(s, inWord)
    ensures '|' !in s
    decreases |s|
  {
    if s != "" {
      WordsHaveNoBar(s[1..], NameChar(s[0]));
      assert s == [s[0]] + s[1..];
    }
  }

  lemma SplitAtBar(a: string, x: string, b: string, y: string)
    requires '|' !in a && '|' !in b && a + "|" + x == b + "|" + y
    ensures a == b && x == y
  {
    var s, t := a + "|" + x, b + "|" + y;
    assert s[|a|] == '|' && t[|b|] == '|';
    assert forall i | 0 <= i < |a| :: s[i] == a[i] && s[i] in a;
    assert forall i | 0 <= i < |b| :: t[i] == b[i] && t[i] in b;
    assert |a| == |b|;
    assert a == s[..|a|] && b == t[..|b|];
    assert x == s[|a| + 1..] && y == t[|b| + 1..];
  }

  /** Two pairs of valid names have the same fingerprint exactly when they are the
      same two names in either order. */
  lemma SameQuestionExactly(a: string, b: string, c: string, d: string)
    requires ValidName(a) && ValidName(b) && ValidName(c) && ValidName(d)
    ensures Fingerprint(a, b) == Fingerprint(c, d) <==> (a == c && b == d) || (a == d && b == c)
  {
    LessTotal(a, b);
    LessTotal(c, d);
    NotBoth(a, b);
    NotBoth(c, d);
    WordsHaveNoBar(a, false);
    WordsHaveNoBar(b, false);
    WordsHaveNoBar(c, false);
    WordsHaveNoBar(d, false);
    if Fingerprint(a, b) == Fingerprint(c, d) {
      var p, q := if Less(b, a) then b else a, if Less(b, a) then a else b;
      var r, s := if Less(d, c) then d else c, if Less(d, c) then c else d;
      SameAfterPrefix(p, q, r, s);
      SplitAtBar(p, q, r, s);
    }
  }

  lemma SameAfterPrefix(p: string, q: string, r: string, s: string)
    requires "consolidate:" + p + "|" + q == "consolidate:" + r + "|" + s
    ensures p + "|" + q == r + "|" + s
  {
    var x, y := "consolidate:" + p + "|" + q, "consolidate:" + r + "|" + s;
    assert x[12..] == p + "|" + q && y[12..] == r + "|" + s;
  }

  lemma NotBoth(a: string, b: string)
    ensures !(Less(a, b) && Less(b, a))
  {
    if Less(a, b) && Less(b, a) {
      LessTransitive(a, b, a);
      LessIrreflexive(a);
    }
  }

  // ---------------------------------------------------------------- one run

  /** What a comparison left behind: which tool fired with what. */
  datatype Answer = Answer(merge: Option<Proposal>, keep: Option<string>)

  datatype Decision =
    | Skipped
    | Merged(name: string)
    | MergeFailed(why: MergeError)
    | KeptSeparate(reason: string)
    | Undecided

  datatype PairOutcome = PairOutcome(a: string, b: string, decision: Decision)

  /** The merge tool counts before the keep tool, and either before a failure. */
  ghost predicate Follows(answer: Answer, d: Decision) {
    match answer.merge
    case Some(p) => d == Merged(p.Name()) || d.MergeFailed?
    case None =>
      match answer.keep
      case Some(reason) => d == KeptSeparate(reason)
      case None => d == Undecided
  }

  /** The outcomes name the pairs in order, and follow the answers. */
  ghost predicate Accounts(pairs: seq<C.Pair>, answers: nat -> Answer, outcomes: seq<PairOutcome>,
                           considered: seq<Considered>) {
    && |considered| == |outcomes| <= |pairs|
    && forall i | 0 <= i < |outcomes| :: AccountsFor(pairs[i], answers(i), outcomes[i], considered[i])
  }

  predicate Names(a: string, b: string, pair: C.Pair) {
    a == pair.a.name && b == pair.b.name
  }

  ghost predicate AccountsFor(pair: C.Pair, answer: Answer, outcome: PairOutcome, c: Considered) {
    && Names(outcome.a, outcome.b, pair) && Names(c.a, c.b, pair)
    && if outcome.decision.Skipped? then c.proposal.None?
       else Follows(answer, outcome.decision) && c.proposal == answer.merge
  }

  lemma AccountsOneMore(pairs: seq<C.Pair>, answers: nat -> Answer, outcomes: seq<PairOutcome>,
                        considered: seq<Considered>, outcome: PairOutcome, c: Considered)
    requires Accounts(pairs, answers, outcomes, considered) && |outcomes| < |pairs|
    requires AccountsFor(pairs[|outcomes|], answers(|outcomes|), outcome, c)
    ensures Accounts(pairs, answers, outcomes + [outcome], considered + [c])
  {
  }

  /** What one store holds. */
  datatype Shelf = Shelf(records: Records, evals: map<string, Evals>)

  ghost function ShelfOf(store: Store): Shelf
    reads store
  {
    Shelf(store.records, store.evals)
  }

  /** What considering a pair does to the store: nothing without a proposal, and with
      one that is not turned down nothing to the scenarios of any skill but the proposed. */
  ghost predicate Considers(was: Shelf, c: Considered, now: Shelf) {
    && now.records == Considering(was.records, c)
    && match c.proposal
       case None => now.evals == was.evals
       case Some(p) =>
         && (c.carried <==> BothCarriable(was.evals, c.a, c.b, p.Name()))
         && (forall n | n != p.Name() :: EvalsOf(now.evals, n) == EvalsOf(was.evals, n))
         && EvalsOf(now.evals, p.Name())
            == if Objection(was.records, c.a, c.b, p, c.now).None? then LeftEvals(was.evals, c.a, c.b, p.Name())
               else EvalsOf(was.evals, p.Name())
  }

  /** A run from one state of the store through others, one for each pair. */
  ghost predicate Goes(start: Shelf, run: seq<Considered>, shelves: seq<Shelf>)
    decreases |run|
  {
    && |shelves| == |run|
    && (run != [] ==> Considers(start, run[0], shelves[0]) && Goes(shelves[0], run[1..], shelves[1..]))
  }

  function Final(start: Shelf, shelves: seq<Shelf>): Shelf {
    if shelves == [] then start else shelves[|shelves| - 1]
  }

  lemma {:induction false} GoesOneMore(start: Shelf, run: seq<Considered>, shelves: seq<Shelf>, c: Considered,
                                       now: Shelf)
    requires Goes(start, run, shelves) && Considers(Final(start, shelves), c, now)
    ensures Goes(start, run + [c], shelves + [now])
    decreases |run|
  {
    if run == [] {
      assert [c][1..] == [] && [now][1..] == [];
      assert run + [c] == [c] && shelves + [now] == [now];
    } else {
      assert (run + [c])[1..] == run[1..] + [c] && (shelves + [now])[1..] == shelves[1..] + [now];
      GoesOneMore(shelves[0], run[1..], shelves[1..], c, now);
    }
  }

  lemma {:induction false} GoesRecords(start: Shelf, run: seq<Considered>, shelves: seq<Shelf>)
    requires Goes(start, run, shelves)
    ensures Final(start, shelves).records == ConsideringAll(start.records, run)
    decreases |run|
  {
    if run != [] {
      GoesRecords(shelves[0], run[1..], shelves[1..]);
    }
  }

  function FingerprintOf(pair: C.Pair): string {
    Fingerprint(pair.a.name, pair.b.name)
  }

  function FingerprintsOf(pairs: seq<C.Pair>): (fps: seq<string>)
    ensures |fps| == |pairs|
  {
    seq(|pairs|, i requires 0 <= i < |pairs| => FingerprintOf(pairs[i]))
  }

  /** What is remembered when the n-th pair comes up: what was before, and the pairs
      before it, less what has been dropped for lack of room. */
  function RememberedAt(before: seq<string>, max: nat, pairs: seq<C.Pair>, n: nat): seq<string>
    requires n <= |pairs|
  {
    L.RecordedAll(before, max, FingerprintsOf(pairs)[..n])
  }

  lemma RememberedOneMore(before: seq<string>, max: nat, pairs: seq<C.Pair>, n: nat)
    requires n < |pairs|
    ensures RememberedAt(before, max, pairs, n + 1)
         == L.Recorded(RememberedAt(before, max, pairs, n), max, FingerprintOf(pairs[n]))
  {
    assert FingerprintsOf(pairs)[..n + 1][..n] == FingerprintsOf(pairs)[..n];
  }

  /** A pair is skipped exactly when it is remembered as its turn comes. */
  ghost predicate SkipsRemembered(pairs: seq<C.Pair>, before: seq<string>, max: nat, outcomes: seq<PairOutcome>)
    requires |outcomes| <= |pairs|
  {
    forall i | 0 <= i < |outcomes| ::
      outcomes[i].decision.Skipped? <==> FingerprintOf(pairs[i]) in RememberedAt(before, max, pairs, i)
  }

  lemma {:induction false} OnlyRecorded(before: seq<string>, max: nat, fps: seq<string>, f: string)
    requires f in L.RecordedAll(before, max, fps)
    ensures f in before || f in fps
    decreases |fps|
  {
    if fps != [] {
      var n := |fps| - 1;
      if f in L.RecordedAll(before, max, fps[..n]) {
        OnlyRecorded(before, max, fps[..n], f);
      }
    }
  }

  /** So a pair that was not remembered beforehand and is not listed twice is asked
      about; one that was is asked again if enough new ones came before it to push it out. */
  lemma NewPairIsAsked(pairs: seq<C.Pair>, before: seq<string>, max: nat, outcomes: seq<PairOutcome>, i: nat)
    requires i < |outcomes| <= |pairs| && SkipsRemembered(pairs, before, max, outcomes)
    requires FingerprintOf(pairs[i]) !in before
    requires forall k | 0 <= k < i :: FingerprintOf(pairs[k]) != FingerprintOf(pairs[i])
    ensures !outcomes[i].decision.Skipped?
  {
    var fps := FingerprintsOf(pairs);
    if FingerprintOf(pairs[i]) in RememberedAt(before, max, pairs, i) {
      OnlyRecorded(before, max, fps[..i], FingerprintOf(pairs[i]));
    }
  }

  /** A run that has got through some of the pairs. */
  ghost predicate GotTo(start: Shelf, before: seq<string>, max: nat, pairs: seq<C.Pair>, answers: nat -> Answer,
                        outcomes: seq<PairOutcome>, considered: seq<Considered>, shelves: seq<Shelf>)
  {
    && Accounts(pairs, answers, outcomes, considered)
    && SkipsRemembered(pairs, before, max, outcomes)
    && Goes(start, considered, shelves)
  }

  lemma OneMorePair(start: Shelf, before: seq<string>, max: nat, pairs: seq<C.Pair>, answers: nat -> Answer,
                    outcomes: seq<PairOutcome>, considered: seq<Considered>, shelves: seq<Shelf>,
                    outcome: PairOutcome, c: Considered, now: Shelf)
    requires GotTo(start, before, max, pairs, answers, outcomes, considered, shelves) && |outcomes| < |pairs|
    requires AccountsFor(pairs[|outcomes|], answers(|outcomes|), outcome, c)
    requires outcome.decision.Skipped?
             <==> FingerprintOf(pairs[|outcomes|]) in RememberedAt(before, max, pairs, |outcomes|)
    requires Considers(Final(start, shelves), c, now)
    ensures GotTo(start, before, max, pairs, answers, outcomes + [outcome], considered + [c], shelves + [now])
    ensures Final(start, shelves + [now]) == now
  {
    AccountsOneMore(pairs, answers, outcomes, considered, outcome, c);
    GoesOneMore(start, considered, shelves, c, now);
  }

  class Consolidator {
    const store: Store
    const ledger: L.Ledger?
    const words: C.Splitter
    const maxPairs: int

    constructor (store: Store, ledger: L.Ledger?, words: C.Splitter, maxPairs: int)
      ensures this.store == store && this.ledger == ledger && this.words == words && this.maxPairs == maxPairs
    {
      this.store, this.ledger, this.words, this.maxPairs := store, ledger, words, maxPairs;
    }

    ghost function Footprint(): set<object> {
      {store} + if ledger == null then {} else {ledger}
    }

    ghost predicate Ready()
      reads ledger
    {
      ledger != null ==> ledger.Valid()
    }

    function Remembered(): seq<string>
      reads ledger
    {
      if ledger == null then [] else ledger.Contents()
    }

    /** How many pairs can be remembered; without a ledger none can. */
    function Room(): nat
      reads ledger
    {
      if ledger == null then 0 else ledger.max
    }

    /** One pair: skipped when asked about recently, otherwise asked and acted upon. */
    method Consider(pair: C.Pair, answer: Answer, now: int) returns (d: Decision, ghost c: Considered)
      requires Ready() && pair.a.name != pair.b.name
      modifies Footprint()
      ensures Ready()
      ensures d.Skipped? <==> FingerprintOf(pair) in old(Remembered())
      ensures !d.Skipped? ==> Follows(answer, d)
      ensures Room() == old(Room())
      ensures Remembered() == L.Recorded(old(Remembered()), Room(), FingerprintOf(pair))
      ensures c.a == pair.a.name && c.b == pair.b.name
      ensures c.proposal == if d.Skipped? then None else answer.merge
      ensures Considers(old(ShelfOf(store)), c, ShelfOf(store))
      ensures d.Merged? ==> Effective(old(store.records), c) && d.name == c.proposal.value.Name()
    {
      var a, b := pair.a.name, pair.b.name;
      if ledger != null {
        var fp := Fingerprint(a, b);
        var seen := ledger.Seen(fp);
        if seen {
          return Skipped, Considered(a, b, None, false, now);
        }
        ledger.Record(fp);
      }
      assert FingerprintOf(pair) !in old(Remembered());
      c := Considered(a, b, answer.merge, BothCarriable(store.evals, a, b, NameOf(answer.merge)), now);
      match answer.merge {
        case Some(p) =>
          var failed := ApplyMerge(store, a, b, p, now);
          d := if failed.Some? then MergeFailed(failed.value) else Merged(p.Name());
        case None =>
          match answer.keep {
            case Some(reason) => d := KeptSeparate(reason);
            case None => d := Undecided;
          }
      }
    }

    method ConsiderAll(pairs: seq<C.Pair>, answers: nat -> Answer, now: int)
      returns (outcomes: seq<PairOutcome>, ghost considered: seq<Considered>, ghost shelves: seq<Shelf>)
      requires Ready() && forall p | p in pairs :: p.a.name != p.b.name
      modifies Footprint()
      ensures Ready()
      ensures Accounts(pairs, answers, outcomes, considered) && |outcomes| == |pairs|
      ensures SkipsRemembered(pairs, old(Remembered()), old(Room()), outcomes)
      ensures Goes(old(ShelfOf(store)), considered, shelves)
      ensures ShelfOf(store) == Final(old(ShelfOf(store)), shelves)
    {
      outcomes, considered, shelves := [], [], [];
      for i := 0 to |pairs|
        invariant Ready()
        invariant Room() == old(Room()) && Remembered() == RememberedAt(old(Remembered()), Room(), pairs, i)
        invariant |outcomes| == i && ShelfOf(store) == Final(old(ShelfOf(store)), shelves)
        invariant GotTo(old(ShelfOf(store)), old(Remembered()), Room(), pairs, answers, outcomes, considered, shelves)
      {
        assert pairs[i] in pairs;
        var d;
        ghost var c;
        d, c := Consider(pairs[i], answers(i), now);
        RememberedOneMore(old(Remembered()), Room(), pairs, i);
        var outcome := PairOutcome(pairs[i].a.name, pairs[i].b.name, d);
        OneMorePair(old(ShelfOf(store)), old(Remembered()), Room(), pairs, answers, outcomes, considered, shelves,
                    outcome, c, ShelfOf(store));
        outcomes := outcomes + [outcome];
        considered := considered + [c];
        shelves := shelves + [ShelfOf(store)];
      }
    }

    /** Considers every candidate pair of the listing taken at the start. */
    method Run(answers: nat -> Answer, now: int)
      returns (outcomes: seq<PairOutcome>, ghost pairs: seq<C.Pair>,
               ghost considered: seq<Considered>, ghost shelves: seq<Shelf>)
      requires Ready()
      modifies Footprint()
      ensures Ready()
      ensures C.Chosen(words, Listing(old(store.records)), maxPairs, pairs)
      ensures Accounts(pairs, answers, outcomes, considered) && |outcomes| == |pairs|
      ensures SkipsRemembered(pairs, old(Remembered()), old(Room()), outcomes)
      ensures Goes(old(ShelfOf(store)), considered, shelves)
      ensures ShelfOf(store) == Final(old(ShelfOf(store)), shelves)
      ensures AllCuratable(old(store.records), considered)
      ensures store.records == ConsideringAll(old(store.records), considered)
      ensures Consolidated(old(store.records), store.records)
      ensures forall n :: EndsAs(old(store.records), store.records,
                                 LastTouch(Merges(old(store.records), considered), n), n)
    {
      var listing := ListSkills(store);
      var chosen := C.FindCandidates(words, listing, maxPairs);
      pairs := chosen;
      ListingDistinct(store.records);
      C.ChosenAreWorth(words, listing, maxPairs, chosen);
      outcomes, considered, shelves := ConsiderAll(chosen, answers, now);
      RunLeaves(old(ShelfOf(store)), words, chosen, answers, outcomes, considered, shelves);
    }
  }

  /** What a whole run leaves of the records it started from. */
  lemma RunLeaves(start: Shelf, words: C.Splitter, pairs: seq<C.Pair>, answers: nat -> Answer,
                  outcomes: seq<PairOutcome>, considered: seq<Considered>, shelves: seq<Shelf>)
    requires forall p | p in pairs :: C.Worth(words, Listing(start.records), p)
    requires Accounts(pairs, answers, outcomes, considered) && |outcomes| == |pairs|
    requires Goes(start, considered, shelves)
    ensures AllCuratable(start.records, considered)
    ensures Final(start, shelves).records == ConsideringAll(start.records, considered)
    ensures Consolidated(start.records, Final(start, shelves).records)
    ensures forall n :: EndsAs(start.records, Final(start, shelves).records,
                               LastTouch(Merges(start.records, considered), n), n)
  {
    var m := start.records;
    PairsAreCuratable(m, words, pairs, answers, outcomes, considered);
    GoesRecords(start, considered, shelves);
    ConsolidationIsSafe(m, considered);
    forall n
      ensures EndsAs(m, ConsideringAll(m, considered), LastTouch(Merges(m, considered), n), n)
    {
      LastMergeDecides(m, considered, n);
    }
  }

  function NameOf(p: Option<Proposal>): string {
    if p.Some? then p.value.Name() else ""
  }

  lemma ListingDistinct(m: Records)
    ensures C.DistinctNames(Listing(m))
  {
    var names := Sorted(Usable(m));
    SortedAscending(Usable(m));
    assert forall i | 0 <= i < |names| :: Listing(m)[i].name == names[i];
  }

  lemma PairsAreCuratable(m: Records, words: C.Splitter, pairs: seq<C.Pair>, answers: nat -> Answer,
                          outcomes: seq<PairOutcome>, considered: seq<Considered>)
    requires forall p | p in pairs :: C.Worth(words, Listing(m), p)
    requires Accounts(pairs, answers, outcomes, considered) && |outcomes| == |pairs|
    ensures AllCuratable(m, considered)
  {
    forall c | c in considered
      ensures PairIn(m, c.a, c.b)
    {
      var i :| 0 <= i < |considered| && considered[i] == c;
      assert AccountsFor(pairs[i], answers(i), outcomes[i], considered[i]);
      assert pairs[i] in pairs;
      ListedFits(m, pairs[i].a);
      ListedFits(m, pairs[i].b);
    }
  }

  lemma ListedFits(m: Records, sk: Skill)
    requires sk in Listing(m)
    ensures Fits(m, sk)
  {
    ListingCurrent(m);
  }

  // ---------------------------------------------------------------- what overlapping pairs do to each other

  /** A merge: the name it was made under and the sources it retired. */
  datatype Merge = Merge(name: string, retired: set<string>) {
    predicate Touches(n: string) {
      n == name || n in retired
    }
  }

  function MergeOf(m: Records, c: Considered): Merge
    requires Effective(m, c)
  {
    var name := c.proposal.value.Name();
    Merge(name, RetiredBy(m, c.a, c.b, name))
  }

  /** The merges a run performs, in order. */
  function Merges(m: Records, pairs: seq<Considered>): seq<Merge>
    decreases |pairs|
  {
    if pairs == [] then []
    else
      var c := pairs[0];
      (if Effective(m, c) then [MergeOf(m, c)] else []) + Merges(Considering(m, c), pairs[1..])
  }

  function LastTouch(merges: seq<Merge>, n: string): Option<Merge>
    decreases |merges|
  {
    if merges == [] then None
    else
      var later := LastTouch(merges[1..], n);
      if later.Some? then later else if merges[0].Touches(n) then Some(merges[0]) else None
  }

  /** How a skill ends up under the last merge that involved it. */
  ghost predicate EndsAs(m: Records, final: Records, last: Option<Merge>, n: string) {
    match last
    case None => (n in final <==> n in m) && (n in m ==> final[n] == m[n])
    case Some(g) =>
      n in final && final[n].state == (if g.name == n then Quarantine else Archived)
      && (g.name == n ==> final[n].promotedBy == "")
  }

  /** In any store a run settles every skill by the last merge that touched it: in
      quarantine if that merge carried its name, archived if it was a source the merge
      retired, and as it was if there was none. */
  lemma {:induction false} LastMergeDecides(m: Records, pairs: seq<Considered>, n: string)
    requires AllCuratable(m, pairs)
    ensures EndsAs(m, ConsideringAll(m, pairs), LastTouch(Merges(m, pairs), n), n)
    decreases |pairs|
  {
    if pairs != [] {
      var c, rest := pairs[0], pairs[1..];
      assert c in pairs;
      var next := Considering(m, c);
      ConsideringIsSafe(m, c);
      assert AllCuratable(next, rest);
      LastMergeDecides(next, rest, n);
      if Effective(m, c) {
        MergeLeaves(m, c.a, c.b, c.proposal.value, c.now);
        assert Merges(m, pairs)[1..] == Merges(next, rest);
      } else {
        assert Merges(m, pairs) == Merges(next, rest);
      }
    }
  }

  /** What was merged away lives on: every merge of the run still has its merged
      skill waiting in quarantine. */
  ghost predicate AllLiveOn(m: Records, pairs: seq<Considered>) {
    forall g | g in Merges(m, pairs) ::
      g.name in ConsideringAll(m, pairs) && ConsideringAll(m, pairs)[g.name].state == Quarantine
  }
}
