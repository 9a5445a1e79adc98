/** Which memories a prompt brings back.

    Models score in internal/memory/memory.go and List and Recall in
    internal/memory/store.go. A memory's words and a query's words are sets of
    terms; scores, which divide by the number of query terms, are kept as integers
    over that common denominator. */
module Recall {
  import opened Prelude
  import opened Order

  const DefaultLimit := 8
  const MaxNudge := 5

  /** Files are hand-editable, so a use count may be anything. */
  datatype Memory = Memory(id: string, text: string, terms: set<string>, useCount: int, pinned: bool)

  type Memories = map<string, Memory>

  predicate ValidID(id: string) {
    |id| == 26 && forall ch | ch in id :: 'A' <= ch <= 'Z' || '0' <= ch <= '9'
  }

  /** The file name is what counts as the id. */
  function Entry(store: Memories, id: string): Memory
    requires id in store
  {
    store[id].(id := id)
  }

  function Hits(q: set<string>, m: Memory): nat {
    |q * m.terms|
  }

  function AtMost(useCount: int): int {
    if useCount > MaxNudge then MaxNudge else useCount
  }

  function Nudge(m: Memory): int {
    AtMost(m.useCount)
  }

  /** Ten times the overlap plus a tenth per use, over 1 / (10 * |q|). */
  function Score(q: set<string>, m: Memory): int {
    if Hits(q, m) == 0 then 0 else 100 * Hits(q, m) + Nudge(m) * |q|
  }

  method CountHits(q: set<string>, m: Memory) returns (hits: nat)
    ensures hits == Hits(q, m)
  {
    hits := 0;
    var rest := q;
    while rest != {}
      invariant rest <= q
      invariant hits + |rest * m.terms| == Hits(q, m)
      decreases |rest|
    {
      var term :| term in rest;
      ghost var after := rest - {term};
      if term in m.terms {
        assert rest * m.terms == after * m.terms + {term};
        hits := hits + 1;
      } else {
        assert rest * m.terms == after * m.terms;
      }
      rest := rest - {term};
    }
  }

  method ScoreOf(q: set<string>, m: Memory) returns (score: int)
    ensures score == Score(q, m)
  {
    if |q| == 0 || |m.terms| == 0 {
      return 0;
    }
    var hits := CountHits(q, m);
    if hits == 0 {
      return 0;
    }
    score := 100 * hits + (if m.useCount > MaxNudge then MaxNudge else m.useCount) * |q|;
  }

  // ---------------------------------------------------------------- the ranking

  /** Higher scores first, then newer ids. */
  predicate Outranks(q: set<string>, a: Memory, b: Memory) {
    Score(q, a) > Score(q, b) || (Score(q, a) == Score(q, b) && Less(b.id, a.id))
  }

  predicate Ordered(q: set<string>, s: seq<Memory>) {
    forall i, j | 0 <= i < j < |s| :: Outranks(q, s[i], s[j])
  }

  ghost predicate Ranking(q: set<string>, s: seq<Memory>, pool: set<Memory>) {
    Ordered(q, s) && forall m :: m in s <==> m in pool
  }

  lemma OutranksTransitive(q: set<string>, a: Memory, b: Memory, c: Memory)
    requires Outranks(q, a, b) && Outranks(q, b, c)
    ensures Outranks(q, a, c)
  {
    if Score(q, a) == Score(q, b) == Score(q, c) {
      LessTransitive(c.id, b.id, a.id);
    }
  }

  lemma OutranksTotal(q: set<string>, a: Memory, b: Memory)
    requires a.id != b.id
    ensures Outranks(q, a, b) || Outranks(q, b, a)
  {
    LessTotal(a.id, b.id);
  }

  lemma OutranksOneWay(q: set<string>, a: Memory, b: Memory)
    requires Outranks(q, a, b)
    ensures !Outranks(q, b, a)
  {
    if Less(a.id, b.id) && Less(b.id, a.id) {
      LessTransitive(a.id, b.id, a.id);
      LessIrreflexive(a.id);
    }
  }

  /** A set of memories has one ranking, whatever order they were met in. */
  lemma {:induction false} RankingUnique(q: set<string>, s: seq<Memory>, t: seq<Memory>, pool: set<Memory>)
    requires Ranking(q, s, pool) && Ranking(q, t, pool)
    ensures s == t
    decreases |s|
  {
    if s == [] {
      if t != [] {
        HasFirst(t);
      }
      return;
    }
    assert s[0] in t && s[0] in s;
    assert t[0] in s;
    if s[0] != t[0] {
      OutranksOneWay(q, s[0], t[0]);
    }
    RankingRest(q, s, pool);
    RankingRest(q, t, pool);
    RankingUnique(q, s[1..], t[1..], pool - {s[0]});
  }

  lemma HasFirst(s: seq<Memory>)
    requires s != []
    ensures exists m :: m in s
  {
    assert s[0] in s;
  }

  lemma RankingRest(q: set<string>, s: seq<Memory>, pool: set<Memory>)
    requires Ranking(q, s, pool) && s != []
    ensures Ranking(q, s[1..], pool - {s[0]})
  {
    forall i | 1 <= i < |s|
      ensures s[i] != s[0]
    {
      OutranksOneWay(q, s[0], s[i]);
    }
    assert s == [s[0]] + s[1..];
  }

  method Insert(q: set<string>, ranked: seq<Memory>, m: Memory) returns (more: seq<Memory>)
    requires Ordered(q, ranked) && forall x | x in ranked :: x.id != m.id
    ensures Ordered(q, more) && forall x :: x in more <==> x in ranked || x == m
  {
    var i := |ranked|;
    while i > 0 && Outranks(q, m, ranked[i - 1])
      invariant 0 <= i <= |ranked|
      invariant forall k | i <= k < |ranked| :: Outranks(q, m, ranked[k])
    {
      i := i - 1;
    }
    InsertedAt(q, ranked, m, i);
    more := ranked[..i] + [m] + ranked[i..];
  }

  lemma InsertedAt(q: set<string>, ranked: seq<Memory>, m: Memory, i: nat)
    requires Ordered(q, ranked) && (forall x | x in ranked :: x.id != m.id) && i <= |ranked|
    requires forall k | i <= k < |ranked| :: Outranks(q, m, ranked[k])
    requires i > 0 ==> !Outranks(q, m, ranked[i - 1])
    ensures Ordered(q, ranked[..i] + [m] + ranked[i..])
    ensures forall x :: x in ranked[..i] + [m] + ranked[i..] <==> x in ranked || x == m
  {
    forall k | 0 <= k < i
      ensures Outranks(q, ranked[k], m)
    {
      assert ranked[i - 1] in ranked;
      OutranksTotal(q, ranked[i - 1], m);
      if k < i - 1 {
        OutranksTransitive(q, ranked[k], ranked[i - 1], m);
      }
    }
    assert ranked == ranked[..i] + ranked[i..];
  }

  // ---------------------------------------------------------------- recalling

  function Listed(store: Memories): set<string> {
    set id | id in store && ValidID(id)
  }

  predicate Candidate(q: set<string>, store: Memories, id: string)
    requires id in store
  {
    !store[id].pinned && Score(q, store[id]) > 0
  }

  /** The pinned among the named memories, in the order they are named. */
  function PinnedOf(store: Memories, names: seq<string>): seq<Memory>
    requires forall n | n in names :: n in store
    decreases |names|
  {
    if names == [] then []
    else
      var last := names[|names| - 1];
      PinnedOf(store, names[..|names| - 1]) + if store[last].pinned then [Entry(store, last)] else []
  }

  function CandidatesOf(q: set<string>, store: Memories, names: seq<string>): set<Memory>
    requires forall n | n in names :: n in store
    decreases |names|
  {
    if names == [] then {}
    else
      var last := names[|names| - 1];
      CandidatesOf(q, store, names[..|names| - 1])
      + if Candidate(q, store, last) then {Entry(store, last)} else {}
  }

  lemma {:induction false} CandidatesAre(q: set<string>, store: Memories, names: seq<string>, m: Memory)
    requires forall n | n in names :: n in store
    ensures m in CandidatesOf(q, store, names)
            <==> m.id in names && Candidate(q, store, m.id) && m == Entry(store, m.id)
    decreases |names|
  {
    if names != [] {
      CandidatesAre(q, store, names[..|names| - 1], m);
      assert names == names[..|names| - 1] + [names[|names| - 1]];
    }
  }

  function Limit(limit: int): nat {
    if limit <= 0 then DefaultLimit else limit
  }

  function Cut(s: seq<Memory>, n: nat): seq<Memory> {
    if |s| <= n then s else s[..n]
  }

  /** The pinned memories by id, then the ranking of the matching ones, cut off. */
  ghost predicate Recalled(store: Memories, q: set<string>, limit: int, r: seq<Memory>) {
    var names := Sorted(Listed(store));
    exists s :: Ranking(q, s, CandidatesOf(q, store, names))
                && r == Cut(PinnedOf(store, names) + s, if limit <= 0 then 8 else limit)
  }

  method RankAll(store: Memories, q: set<string>, names: seq<string>)
    returns (pinned: seq<Memory>, ranked: seq<Memory>)
    requires forall n | n in names :: n in store
    requires forall i, j | 0 <= i < j < |names| :: names[i] != names[j]
    ensures pinned == PinnedOf(store, names)
    ensures Ranking(q, ranked, CandidatesOf(q, store, names))
  {
    pinned, ranked := [], [];
    for i := 0 to |names|
      invariant pinned == PinnedOf(store, names[..i])
      invariant Ranking(q, ranked, CandidatesOf(q, store, names[..i]))
    {
      assert names[..i + 1][..i] == names[..i] && names[..i + 1][i] == names[i];
      assert names[i] in names;
      var m := Entry(store, names[i]);
      if m.pinned {
        pinned := pinned + [m];
        continue;
      }
      var score := ScoreOf(q, m);
      if score > 0 {
        NotYet(q, store, names, i);
        ranked := Insert(q, ranked, m);
      }
    }
    assert names[..|names|] == names;
  }

  method TakeUpTo(pinned: seq<Memory>, ranked: seq<Memory>, n: nat) returns (r: seq<Memory>)
    ensures r == Cut(pinned + ranked, n)
  {
    r := pinned;
    var k := 0;
    while k < |ranked| && |r| < n
      invariant 0 <= k <= |ranked| && r == pinned + ranked[..k]
      invariant k == 0 || |r| <= n
    {
      r := r + [ranked[k]];
      k := k + 1;
    }
    assert pinned + ranked == r + ranked[k..];
    if |r| > n {
      r := r[..n];
    }
  }

  method RecallFor(store: Memories, q: set<string>, limit: int) returns (r: seq<Memory>)
    ensures Recalled(store, q, limit, r)
  {
    var names := List(Listed(store));
    NoRepeats(Listed(store));
    var pinned, ranked := RankAll(store, q, names);
    r := TakeUpTo(pinned, ranked, Limit(limit));
  }

  lemma NoRepeats(names: set<string>)
    ensures forall i, j | 0 <= i < j < |Sorted(names)| :: Sorted(names)[i] != Sorted(names)[j]
  {
    SortedAscending(names);
  }

  lemma NotYet(q: set<string>, store: Memories, names: seq<string>, i: nat)
    requires (forall n | n in names :: n in store) && i < |names|
    requires forall j, k | 0 <= j < k < |names| :: names[j] != names[k]
    ensures forall m | m in CandidatesOf(q, store, names[..i]) :: m.id != names[i]
  {
    forall m | m in CandidatesOf(q, store, names[..i])
      ensures m.id != names[i]
    {
      CandidatesAre(q, store, names[..i], m);
    }
  }

  // ---------------------------------------------------------------- theorems

  /** What is recalled is a function of the store, the query and the limit. */
  lemma RecallDetermined(store: Memories, q: set<string>, limit: int, r: seq<Memory>, r': seq<Memory>)
    requires Recalled(store, q, limit, r) && Recalled(store, q, limit, r')
    ensures r == r'
  {
    var names := Sorted(Listed(store));
    var pool := CandidatesOf(q, store, names);
    var s :| Ranking(q, s, pool) && r == Cut(PinnedOf(store, names) + s, if limit <= 0 then 8 else limit);
    var s' :| Ranking(q, s', pool) && r' == Cut(PinnedOf(store, names) + s', if limit <= 0 then 8 else limit);
    RankingUnique(q, s, s', pool);
  }

  /** Pinned memories come first, by id; then higher scores, and newer ids among equal ones. */
  lemma {:induction false} RecalledInOrder(store: Memories, q: set<string>, limit: int, r: seq<Memory>)
    requires Recalled(store, q, limit, r)
    ensures forall i, j | 0 <= i < j < |r| :: Precedes(q, r[i], r[j])
  {
    var names := Sorted(Listed(store));
    var s :| Ranking(q, s, CandidatesOf(q, store, names))
             && r == Cut(PinnedOf(store, names) + s, if limit <= 0 then 8 else limit);
    SortedAscending(Listed(store));
    forall i, j | 0 <= i < j < |r|
      ensures Precedes(q, r[i], r[j])
    {
      assert r[i] == (PinnedOf(store, names) + s)[i] && r[j] == (PinnedOf(store, names) + s)[j];
      PoolInOrder(store, q, names, s, i, j);
    }
  }

  predicate Precedes(q: set<string>, a: Memory, b: Memory) {
    if b.pinned then a.pinned && Less(a.id, b.id)
    else a.pinned || Score(q, a) > Score(q, b) || (Score(q, a) == Score(q, b) && Less(b.id, a.id))
  }

  lemma {:induction false} PoolInOrder(store: Memories, q: set<string>, names: seq<string>, s: seq<Memory>,
                                       i: nat, j: nat)
    requires (forall n | n in names :: n in store) && Ascending(names)
    requires Ranking(q, s, CandidatesOf(q, store, names)) && i < j < |PinnedOf(store, names) + s|
    ensures Precedes(q, (PinnedOf(store, names) + s)[i], (PinnedOf(store, names) + s)[j])
  {
    var pinned := PinnedOf(store, names);
    PinnedArePinned(store, names);
    if j < |pinned| {
      assert pinned[i] in pinned && pinned[j] in pinned;
      PinnedAscend(store, names, i, j);
    } else {
      assert s[j - |pinned|] in s;
      CandidatesAre(q, store, names, s[j - |pinned|]);
      if i < |pinned| {
        assert pinned[i] in pinned;
      }
    }
  }

  lemma {:induction false} PinnedAscend(store: Memories, names: seq<string>, i: nat, j: nat)
    requires (forall n | n in names :: n in store) && Ascending(names)
    requires i < j < |PinnedOf(store, names)|
    ensures Less(PinnedOf(store, names)[i].id, PinnedOf(store, names)[j].id)
    decreases |names|
  {
    var init, last := names[..|names| - 1], names[|names| - 1];
    assert names == init + [last];
    if j < |PinnedOf(store, init)| {
      PinnedAscend(store, init, i, j);
    } else {
      var m := PinnedOf(store, init)[i];
      PinnedAreNamed(store, init, m);
      var k :| 0 <= k < |init| && init[k] == m.id;
      assert names[k] == m.id;
    }
  }

  /** Only memories under such an id are recalled: 26 capital letters and digits. */
  lemma {:induction false} OnlyNamedRecalled(store: Memories, q: set<string>, limit: int, r: seq<Memory>)
    requires Recalled(store, q, limit, r)
    ensures forall m | m in r ::
              m.id in store && |m.id| == 26 && forall ch | ch in m.id :: 'A' <= ch <= 'Z' || '0' <= ch <= '9'
  {
    var names := Sorted(Listed(store));
    var s :| Ranking(q, s, CandidatesOf(q, store, names))
             && r == Cut(PinnedOf(store, names) + s, if limit <= 0 then 8 else limit);
    forall m | m in r
      ensures m.id in names
    {
      assert m in PinnedOf(store, names) + s;
      if m in s {
        CandidatesAre(q, store, names, m);
      } else {
        PinnedAreNamed(store, names, m);
      }
    }
  }

  lemma {:induction false} PinnedAreNamed(store: Memories, names: seq<string>, m: Memory)
    requires (forall n | n in names :: n in store) && m in PinnedOf(store, names)
    ensures m.id in names && m == Entry(store, m.id) && m.pinned
    decreases |names|
  {
    var init, last := names[..|names| - 1], names[|names| - 1];
    assert names == init + [last];
    if m in PinnedOf(store, init) {
      PinnedAreNamed(store, init, m);
    }
  }

  /** A matching memory that was not recalled is outranked by every matching one
      that was, and the prompt is full. */
  lemma NothingBetterLeftOut(store: Memories, q: set<string>, limit: int, r: seq<Memory>, id: string)
    requires Recalled(store, q, limit, r) && id in store
    requires |id| == 26 && forall ch | ch in id :: 'A' <= ch <= 'Z' || '0' <= ch <= '9'
    requires Candidate(q, store, id) && Entry(store, id) !in r
    ensures |r| == if limit <= 0 then 8 else limit
    ensures forall m | m in r && !m.pinned :: Outranks(q, m, Entry(store, id))
  {
    var names := Sorted(Listed(store));
    var pinned := PinnedOf(store, names);
    var s :| Ranking(q, s, CandidatesOf(q, store, names)) && r == Cut(pinned + s, if limit <= 0 then 8 else limit);
    CandidatesAre(q, store, names, Entry(store, id));
    PinnedArePinned(store, names);
    CutOff(q, pinned, s, Limit(limit), Entry(store, id));
  }

  lemma InCut(s: seq<Memory>, n: nat, i: nat)
    requires i < |s|
    ensures i < n ==> s[i] in Cut(s, n)
  {
    if i < n && n < |s| {
      assert s[..n][i] == s[i];
    }
  }

  lemma CutOff(q: set<string>, pinned: seq<Memory>, s: seq<Memory>, n: nat, left: Memory)
    requires Ordered(q, s) && left in s && left !in Cut(pinned + s, n)
    requires forall m | m in pinned :: m.pinned
    ensures |Cut(pinned + s, n)| == n
    ensures forall m | m in Cut(pinned + s, n) && !m.pinned :: Outranks(q, m, left)
  {
    var all := pinned + s;
    assert left in all;
    var k :| 0 <= k < |s| && s[k] == left;
    assert all[|pinned| + k] == left;
    InCut(all, n, |pinned| + k);
    forall m | m in all[..n] && !m.pinned
      ensures Outranks(q, m, left)
    {
      var i :| 0 <= i < n && all[i] == m;
      assert i < |pinned| ==> m in pinned;
      assert m == s[i - |pinned|];
    }
  }

  lemma {:induction false} PinnedArePinned(store: Memories, names: seq<string>)
    requires forall n | n in names :: n in store
    ensures forall m | m in PinnedOf(store, names) :: m.pinned
    decreases |names|
  {
    if names != [] {
      PinnedArePinned(store, names[..|names| - 1]);
    }
  }

  /** Among memories used at least `low` times, more matches always come first. */
  ghost predicate HitsDecide(q: set<string>, low: int) {
    forall a: Memory, b: Memory | a.useCount >= low && b.useCount >= low && Hits(q, a) > Hits(q, b) ::
      Outranks(q, a, b)
  }

  /** No difference in use makes up for one match. One term leaves nothing to compare
      with but memories that do not match. */
  predicate UseCannotMakeUp(n: nat, low: int) {
    n == 0 || (n == 1 && low > -100) || (n > 1 && (MaxNudge - AtMost(low)) * n < 100)
  }

  lemma HitsOutweighUse(hits: nat, fewer: nat, use: int, other: int, low: int, n: nat)
    requires hits > fewer && hits <= n && AtMost(low) <= use && other <= MaxNudge && UseCannotMakeUp(n, low)
    ensures 100 * hits + use * n > if fewer == 0 then 0 else 100 * fewer + other * n
  {
    TimesKeeps(AtMost(low), use, n);
    TimesKeeps(other, MaxNudge, n);
    assert (MaxNudge - AtMost(low)) * n == MaxNudge * n - AtMost(low) * n;
  }

  lemma TimesKeeps(x: int, y: int, n: nat)
    requires x <= y
    ensures x * n <= y * n
  {
    assert y * n == x * n + (y - x) * n;
  }

  lemma FewerTerms(q: set<string>, m: Memory)
    ensures Hits(q, m) <= |q|
  {
    assert q == (q * m.terms) + (q - m.terms);
  }

  /** A memory that matches more of the query's terms always outranks one that matches
      fewer, whatever their use counts from `low` upwards, exactly when the query is
      short enough for its nudges. */
  lemma MoreHitsWinExactly(q: set<string>, low: int)
    ensures HitsDecide(q, low) <==> UseCannotMakeUp(|q|, low)
  {
    if UseCannotMakeUp(|q|, low) {
      forall a: Memory, b: Memory | a.useCount >= low && b.useCount >= low && Hits(q, a) > Hits(q, b)
        ensures Outranks(q, a, b)
      {
        FewerTerms(q, a);
        HitsOutweighUse(Hits(q, a), Hits(q, b), Nudge(a), Nudge(b), low, |q|);
      }
    } else if |q| == 1 {
      NoMatchCanWin(q, low);
    } else {
      UseCanWin(q, low);
    }
  }

  /** For counts as the program writes them, from zero upwards: fewer than 20 terms. */
  lemma MoreHitsWinBelowTwenty(q: set<string>)
    ensures HitsDecide(q, 0) <==> |q| < 20
  {
    MoreHitsWinExactly(q, 0);
  }

  /** A match can be pushed below a memory that does not match at all. */
  lemma NoMatchCanWin(q: set<string>, low: int)
    requires |q| == 1 && low <= -100
    ensures !HitsDecide(q, low)
  {
    var w :| w in q;
    assert |q - {w}| == 0;
    var none, one := Memory("B", "", {}, 0, false), Memory("A", "", {w}, low, false);
    assert q * none.terms == {} && q * one.terms == {w};
    assert Hits(q, one) > Hits(q, none) && !Outranks(q, one, none);
  }

  /** A much-used memory with one match comes before a little-used one with two. */
  lemma UseCanWin(q: set<string>, low: int)
    requires |q| > 1 && (MaxNudge - AtMost(low)) * |q| >= 100
    ensures !HitsDecide(q, low)
  {
    var w :| w in q;
    assert |q - {w}| == |q| - 1;
    var v :| v in q - {w};
    var often := if low > MaxNudge then low else MaxNudge;
    var one, two := Memory("B", "", {w}, often, false), Memory("A", "", {w, v}, low, false);
    assert q * one.terms == {w} && q * two.terms == {w, v};
    assert Score(q, one) == 100 + MaxNudge * |q| && Score(q, two) == 200 + AtMost(low) * |q|;
    assert (MaxNudge - AtMost(low)) * |q| == MaxNudge * |q| - AtMost(low) * |q|;
    assert Less("A", "B");
    assert Hits(q, two) > Hits(q, one) && !Outranks(q, two, one);
  }
}
