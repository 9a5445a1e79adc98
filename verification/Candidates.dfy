/** Which pairs of skills are worth asking a model about.

    Models internal/consolidate/candidates.go. Splitting a description into its
    significant words is a parameter, and overlaps are real numbers. */
module Candidates {
  import opened Prelude
  import opened Order
  import opened Skills

  const DefaultMaxPairs := 5
  const MinOverlap := 0.2

  datatype Pair = Pair(a: Skill, b: Skill, overlap: real)

  /** The words of a description that count. */
  type Splitter = string -> set<string>

  /** Shared words over all words of both. */
  function Overlap(words: Splitter, a: Skill, b: Skill): (r: real)
    ensures 0.0 <= r <= 1.0
  {
    var x, y := words(a.description), words(b.description);
    if |x| == 0 || |y| == 0 then 0.0
    else
      SharedWithin(x, y);
      Ratio(|x * y|, |x| + |y| - |x * y|)
  }

  lemma SharedWithin(x: set<string>, y: set<string>)
    ensures |x * y| <= |x| && |x * y| <= |y|
  {
    assert x == (x * y) + (x - y) && y == (x * y) + (y - x);
  }

  function Ratio(n: nat, d: nat): (r: real)
    requires 0 < d && n <= d
    ensures 0.0 <= r <= 1.0
  {
    n as real / d as real
  }

  /** The Jaccard index of the two descriptions' words. */
  lemma OverlapIsJaccard(words: Splitter, a: Skill, b: Skill)
    ensures var x, y := words(a.description), words(b.description);
            && (x + y != {} ==> |x + y| > 0 && Overlap(words, a, b) * |x + y| as real == |x * y| as real)
            && (x + y == {} ==> Overlap(words, a, b) == 0.0)
  {
    var x, y := words(a.description), words(b.description);
    assert |x + y| == |x| + |y| - |x * y|;
    if x == {} {
      assert x + y == y && x * y == {};
    } else if y == {} {
      assert x + y == x && x * y == {};
    } else {
      SharedWithin(x, y);
      Divided(|x * y|, |x + y|);
    }
  }

  lemma Divided(n: nat, d: nat)
    requires 0 < d && n <= d
    ensures Ratio(n, d) * d as real == n as real
  {
  }

  lemma OverlapSymmetric(words: Splitter, a: Skill, b: Skill)
    ensures Overlap(words, a, b) == Overlap(words, b, a)
  {
    var x, y := words(a.description), words(b.description);
    assert x * y == y * x;
  }

  // ---------------------------------------------------------------- the order

  /** More overlap first, then by the two names run together. */
  predicate Before(p: Pair, q: Pair) {
    p.overlap > q.overlap || (p.overlap == q.overlap && Less(p.a.name + p.b.name, q.a.name + q.b.name))
  }

  predicate SortedPairs(pairs: seq<Pair>) {
    forall i, j | 0 <= i < j < |pairs| :: !Before(pairs[j], pairs[i])
  }

  lemma BeforeOneWay(p: Pair, q: Pair)
    requires Before(p, q)
    ensures !Before(q, p)
  {
    var s, t := p.a.name + p.b.name, q.a.name + q.b.name;
    if Less(s, t) && Less(t, s) {
      LessTransitive(s, t, s);
      LessIrreflexive(s);
    }
  }

  /** Not coming before is transitive. */
  lemma NotBeforeTransitive(p: Pair, q: Pair, r: Pair)
    requires !Before(q, p) && !Before(r, q)
    ensures !Before(r, p)
  {
    var s, t, u := p.a.name + p.b.name, q.a.name + q.b.name, r.a.name + r.b.name;
    if p.overlap == q.overlap == r.overlap && Less(u, s) {
      LessTotal(s, t);
      if s != t {
        LessTransitive(u, s, t);
      }
    }
  }

  method Insert(sorted: seq<Pair>, p: Pair) returns (more: seq<Pair>)
    requires SortedPairs(sorted)
    ensures SortedPairs(more) && multiset(more) == multiset(sorted) + multiset{p}
  {
    var i := |sorted|;
    while i > 0 && Before(p, sorted[i - 1])
      invariant 0 <= i <= |sorted|
      invariant forall k | i <= k < |sorted| :: Before(p, sorted[k])
    {
      i := i - 1;
    }
    InsertedAt(sorted, p, i);
    more := sorted[..i] + [p] + sorted[i..];
    assert sorted == sorted[..i] + sorted[i..];
  }

  lemma InsertedAt(sorted: seq<Pair>, p: Pair, i: nat)
    requires SortedPairs(sorted) && i <= |sorted|
    requires forall k | i <= k < |sorted| :: Before(p, sorted[k])
    requires i > 0 ==> !Before(p, sorted[i - 1])
    ensures SortedPairs(sorted[..i] + [p] + sorted[i..])
  {
    forall k | 0 <= k < i
      ensures !Before(p, sorted[k])
    {
      if k < i - 1 {
        NotBeforeTransitive(sorted[k], sorted[i - 1], p);
      }
    }
    forall k | i <= k < |sorted|
      ensures !Before(sorted[k], p)
    {
      BeforeOneWay(p, sorted[k]);
    }
  }

  // ---------------------------------------------------------------- the candidates

  predicate Comparable(sk: Skill) {
    sk.state == Active && sk.Curatable()
  }

  function ActiveOf(skills: seq<Skill>): (active: seq<Skill>)
    ensures forall sk | sk in active :: sk in skills && Comparable(sk)
    decreases |skills|
  {
    if skills == [] then []
    else
      var last := skills[|skills| - 1];
      assert forall sk | sk in skills[..|skills| - 1] :: sk in skills;
      ActiveOf(skills[..|skills| - 1]) + if Comparable(last) then [last] else []
  }

  /** The pairs that the i-th skill makes with skills i+1 up to n, least first. */
  function PairsFrom(words: Splitter, active: seq<Skill>, i: nat, n: nat): seq<Pair>
    requires i < n <= |active|
    decreases n
  {
    if n == i + 1 then []
    else
      var overlap := Overlap(words, active[i], active[n - 1]);
      PairsFrom(words, active, i, n - 1)
      + if overlap >= MinOverlap then [Pair(active[i], active[n - 1], overlap)] else []
  }

  function AllPairs(words: Splitter, active: seq<Skill>, n: nat): seq<Pair>
    requires n <= |active|
    decreases n
  {
    if n == 0 then [] else AllPairs(words, active, n - 1) + PairsFrom(words, active, n - 1, |active|)
  }

  function Cap(maxPairs: int): nat {
    if maxPairs <= 0 then DefaultMaxPairs else maxPairs
  }

  function Cut(pairs: seq<Pair>, n: nat): seq<Pair> {
    if |pairs| > n then pairs[..n] else pairs
  }

  /** The first of some ordering of all the candidates. Sorting promises no more
      about pairs that compare equal. */
  ghost predicate Chosen(words: Splitter, skills: seq<Skill>, maxPairs: int, pairs: seq<Pair>) {
    var active := ActiveOf(skills);
    exists all: seq<Pair> :: IsSorting(all, AllPairs(words, active, |active|)) && pairs == Cut(all, Cap(maxPairs))
  }

  ghost predicate IsSorting(sorted: seq<Pair>, pairs: seq<Pair>) {
    SortedPairs(sorted) && multiset(sorted) == multiset(pairs)
  }

  method SortPairs(pairs: seq<Pair>) returns (sorted: seq<Pair>)
    ensures IsSorting(sorted, pairs)
  {
    sorted := [];
    for i := 0 to |pairs|
      invariant IsSorting(sorted, pairs[..i])
    {
      assert pairs[..i + 1] == pairs[..i] + [pairs[i]];
      sorted := Insert(sorted, pairs[i]);
    }
    assert pairs[..|pairs|] == pairs;
  }

  method ListActive(skills: seq<Skill>) returns (active: seq<Skill>)
    ensures active == ActiveOf(skills)
  {
    active := [];
    for i := 0 to |skills|
      invariant active == ActiveOf(skills[..i])
    {
      assert skills[..i + 1][..i] == skills[..i];
      if Comparable(skills[i]) {
        active := active + [skills[i]];
      }
    }
    assert skills[..|skills|] == skills;
  }

  lemma PairsFromMore(words: Splitter, active: seq<Skill>, i: nat, j: nat, before: seq<Pair>)
    requires i < j < |active|
    ensures var pair := Pair(active[i], active[j], Overlap(words, active[i], active[j]));
            before + PairsFrom(words, active, i, j + 1)
            == if pair.overlap >= MinOverlap then before + PairsFrom(words, active, i, j) + [pair]
               else before + PairsFrom(words, active, i, j)
  {
    var sofar := PairsFrom(words, active, i, j);
    assert sofar + [] == sofar;
    Associates(before, sofar, [Pair(active[i], active[j], Overlap(words, active[i], active[j]))]);
  }

  /** The inner loop: everything the i-th skill pairs with. */
  method PairUp(words: Splitter, active: seq<Skill>, i: nat, before: seq<Pair>) returns (found: seq<Pair>)
    requires i < |active|
    ensures found == before + PairsFrom(words, active, i, |active|)
  {
    found := before;
    for j := i + 1 to |active|
      invariant found == before + PairsFrom(words, active, i, j)
    {
      var overlap := Overlap(words, active[i], active[j]);
      PairsFromMore(words, active, i, j, before);
      if overlap >= MinOverlap {
        found := found + [Pair(active[i], active[j], overlap)];
      }
    }
  }

  method FindPairs(words: Splitter, active: seq<Skill>) returns (found: seq<Pair>)
    ensures found == AllPairs(words, active, |active|)
  {
    found := [];
    for i := 0 to |active|
      invariant found == AllPairs(words, active, i)
    {
      found := PairUp(words, active, i, found);
    }
  }

  method FindCandidates(words: Splitter, skills: seq<Skill>, maxPairs: int) returns (pairs: seq<Pair>)
    ensures Chosen(words, skills, maxPairs, pairs)
  {
    var active := ListActive(skills);
    var found := FindPairs(words, active);
    var all := SortPairs(found);
    pairs := if |all| > Cap(maxPairs) then all[..Cap(maxPairs)] else all;
  }

  // ---------------------------------------------------------------- theorems

  ghost predicate DistinctNames(skills: seq<Skill>) {
    forall i, j | 0 <= i < j < |skills| :: skills[i].name != skills[j].name
  }

  /** Two skills worth comparing, in listing order. */
  ghost predicate Worth(words: Splitter, skills: seq<Skill>, p: Pair) {
    && p.a in skills && p.b in skills && p.a.name != p.b.name
    && p.a.state == Active && p.a.createdBy == ByAgent && !p.a.pinned
    && p.b.state == Active && p.b.createdBy == ByAgent && !p.b.pinned
    && p.overlap == Overlap(words, p.a, p.b) >= 0.2
  }

  lemma {:induction false} ActiveDistinct(skills: seq<Skill>)
    requires DistinctNames(skills)
    ensures DistinctNames(ActiveOf(skills))
    decreases |skills|
  {
    if skills != [] {
      var n := |skills| - 1;
      ActiveDistinct(skills[..n]);
      assert forall sk | sk in skills[..n] :: sk.name != skills[n].name;
    }
  }

  lemma {:induction false} PairsFromWorth(words: Splitter, active: seq<Skill>, i: nat, n: nat)
    requires i < n <= |active| && DistinctNames(active) && forall sk | sk in active :: Comparable(sk)
    ensures forall p | p in PairsFrom(words, active, i, n) :: Worth(words, active, p)
    decreases n
  {
    if n > i + 1 {
      PairsFromWorth(words, active, i, n - 1);
      assert active[i] in active && active[n - 1] in active;
    }
  }

  lemma {:induction false} AllPairsWorth(words: Splitter, active: seq<Skill>, n: nat)
    requires n <= |active| && DistinctNames(active) && forall sk | sk in active :: Comparable(sk)
    ensures forall p | p in AllPairs(words, active, n) :: Worth(words, active, p)
    decreases n
  {
    if n > 0 {
      AllPairsWorth(words, active, n - 1);
      PairsFromWorth(words, active, n - 1, |active|);
    }
  }

  lemma {:induction false} PairsFromComplete(words: Splitter, active: seq<Skill>, i: nat, j: nat, n: nat)
    requires i < j < n <= |active| && Overlap(words, active[i], active[j]) >= MinOverlap
    ensures Pair(active[i], active[j], Overlap(words, active[i], active[j])) in PairsFrom(words, active, i, n)
    decreases n
  {
    if j < n - 1 {
      PairsFromComplete(words, active, i, j, n - 1);
    }
  }

  /** No two active skills that overlap enough are overlooked. */
  lemma {:induction false} EveryOverlapListed(words: Splitter, active: seq<Skill>, i: nat, j: nat, n: nat)
    requires i < j < |active| && i < n <= |active| && Overlap(words, active[i], active[j]) >= 0.2
    ensures Pair(active[i], active[j], Overlap(words, active[i], active[j])) in AllPairs(words, active, n)
    decreases n
  {
    if i == n - 1 {
      PairsFromComplete(words, active, i, j, |active|);
    } else {
      EveryOverlapListed(words, active, i, j, n - 1);
    }
  }

  /** Every chosen pair is two different skills in service that the agent wrote and
      nobody pinned. */
  lemma ChosenAreWorth(words: Splitter, skills: seq<Skill>, maxPairs: int, pairs: seq<Pair>)
    requires DistinctNames(skills) && Chosen(words, skills, maxPairs, pairs)
    ensures |pairs| <= if maxPairs > 0 then maxPairs else 5
    ensures forall p | p in pairs :: Worth(words, skills, p)
  {
    var active := ActiveOf(skills);
    var found := AllPairs(words, active, |active|);
    var all: seq<Pair> :| IsSorting(all, found) && pairs == Cut(all, Cap(maxPairs));
    ActiveDistinct(skills);
    AllPairsWorth(words, active, |active|);
    forall p | p in pairs
      ensures Worth(words, skills, p)
    {
      assert p in all;
      SameMembers(all, found, p);
      assert Worth(words, active, p);
    }
  }

  lemma SameMembers(x: seq<Pair>, y: seq<Pair>, p: Pair)
    requires multiset(x) == multiset(y)
    ensures p in x <==> p in y
  {
    assert p in x <==> p in multiset(x);
    assert p in y <==> p in multiset(y);
  }

  /** A candidate is left out only when as many were chosen as may be, five unless the
      caller says, and each of those overlaps more, or as much and comes no later by the two
      names run together. */
  lemma {:induction false} NoneBetterLeftOut(words: Splitter, skills: seq<Skill>, maxPairs: int, pairs: seq<Pair>)
    requires Chosen(words, skills, maxPairs, pairs)
    ensures LeavesNoBetter(AllPairs(words, ActiveOf(skills), |ActiveOf(skills)|), pairs,
                           if maxPairs > 0 then maxPairs else 5)
  {
    var listed := AllPairs(words, ActiveOf(skills), |ActiveOf(skills)|);
    var all: seq<Pair> :| IsSorting(all, listed) && pairs == Cut(all, Cap(maxPairs));
    CutKeepsFirst(all, listed, Cap(maxPairs));
  }

  ghost predicate LeavesNoBetter(listed: seq<Pair>, pairs: seq<Pair>, n: nat) {
    var left := multiset(listed) - multiset(pairs);
    && (forall p, q | p in left && q in pairs :: NoLater(q, p))
    && (left != multiset{} ==> |pairs| == n)
  }

  predicate NoLater(p: Pair, q: Pair) {
    || p.overlap > q.overlap
    || (p.overlap == q.overlap && !Less(q.a.name + q.b.name, p.a.name + p.b.name))
  }

  /** And those chosen are handed out in that order. */
  lemma {:induction false} MostAlikeFirst(words: Splitter, skills: seq<Skill>, maxPairs: int, pairs: seq<Pair>)
    requires Chosen(words, skills, maxPairs, pairs)
    ensures forall i, j | 0 <= i < j < |pairs| :: NoLater(pairs[i], pairs[j])
  {
    var active := ActiveOf(skills);
    var all: seq<Pair> :| IsSorting(all, AllPairs(words, active, |active|)) && pairs == Cut(all, Cap(maxPairs));
    forall i, j | 0 <= i < j < |pairs|
      ensures NoLater(pairs[i], pairs[j])
    {
      assert pairs[i] == all[i] && pairs[j] == all[j];
    }
  }

  lemma {:induction false} CutKeepsFirst(all: seq<Pair>, listed: seq<Pair>, n: nat)
    requires IsSorting(all, listed)
    ensures LeavesNoBetter(listed, Cut(all, n), n)
  {
    var kept := Cut(all, n);
    var rest := all[|kept|..];
    assert all == kept + rest;
    assert multiset(all) - multiset(kept) == multiset(rest);
    forall p, q | p in multiset(rest) && q in kept
      ensures NoLater(q, p)
    {
      assert p in rest;
      var i :| 0 <= i < |rest| && rest[i] == p;
      var j :| 0 <= j < |kept| && kept[j] == q;
      assert all[|kept| + i] == p && all[j] == q;
    }
  }

  // ---------------------------------------------------------------- whether the choice is determined

  /** Neither comes before the other. */
  predicate Tie(p: Pair, q: Pair) {
    !Before(p, q) && !Before(q, p)
  }

  /** How many of these come before p. */
  function Earlier(pairs: seq<Pair>, p: Pair): nat
    decreases |pairs|
  {
    if pairs == [] then 0 else (if Before(pairs[0], p) then 1 else 0) + Earlier(pairs[1..], p)
  }

  /** Two different candidates tie for one of the first n places. */
  ghost predicate TiedEarly(pairs: seq<Pair>, n: nat) {
    exists p, q | p in pairs && q in pairs :: p != q && Tie(p, q) && Earlier(pairs, p) < n
  }

  lemma {:induction false} EarlierJoins(x: seq<Pair>, y: seq<Pair>, p: Pair)
    ensures Earlier(x + y, p) == Earlier(x, p) + Earlier(y, p)
    decreases |x|
  {
    if x == [] {
      assert x + y == y;
    } else {
      assert (x + y)[1..] == x[1..] + y;
      EarlierJoins(x[1..], y, p);
    }
  }

  /** It does not matter in which order they stand. */
  lemma {:induction false} EarlierAnyOrder(x: seq<Pair>, y: seq<Pair>, p: Pair)
    requires multiset(x) == multiset(y)
    ensures Earlier(x, p) == Earlier(y, p)
    decreases |x|
  {
    assert |x| == |multiset(x)| == |multiset(y)| == |y|;
    if x != [] {
      SameMembers(x, y, x[0]);
      var i :| 0 <= i < |y| && y[i] == x[0];
      var rest := y[..i] + y[i + 1..];
      WithoutHead(x);
      WithoutOne(y, i, p);
      EarlierAnyOrder(x[1..], rest, p);
    }
  }

  lemma {:induction false} WithoutHead(x: seq<Pair>)
    requires x != []
    ensures multiset(x[1..]) == multiset(x) - multiset{x[0]}
  {
    assert x == [x[0]] + x[1..];
  }

  lemma {:induction false} WithoutOne(y: seq<Pair>, i: nat, p: Pair)
    requires i < |y|
    ensures multiset(y[..i] + y[i + 1..]) == multiset(y) - multiset{y[i]}
    ensures Earlier(y, p) == (if Before(y[i], p) then 1 else 0) + Earlier(y[..i] + y[i + 1..], p)
  {
    var before, after := y[..i], y[i + 1..];
    assert y == before + ([y[i]] + after);
    EarlierJoins(before, after, p);
    EarlierJoins(before, [y[i]] + after, p);
    assert ([y[i]] + after)[1..] == after;
  }

  lemma {:induction false} TiedEarlyAnyOrder(x: seq<Pair>, y: seq<Pair>, n: nat)
    requires multiset(x) == multiset(y) && TiedEarly(x, n)
    ensures TiedEarly(y, n)
  {
    var p, q :| p in x && q in x && p != q && Tie(p, q) && Earlier(x, p) < n;
    SameMembers(x, y, p);
    SameMembers(x, y, q);
    EarlierAnyOrder(x, y, p);
  }

  /** In a sorting they are the first so many. */
  lemma {:induction false} EarlierAreFirst(x: seq<Pair>, p: Pair, i: nat)
    requires SortedPairs(x) && i < |x|
    ensures Before(x[i], p) <==> i < Earlier(x, p)
    decreases |x|
  {
    if Before(x[0], p) {
      if i > 0 {
        EarlierAreFirst(x[1..], p, i - 1);
      }
    } else {
      NoneEarlier(x, p);
    }
  }

  lemma {:induction false} NoneEarlier(x: seq<Pair>, p: Pair)
    requires SortedPairs(x) && x != [] && !Before(x[0], p)
    ensures Earlier(x, p) == 0 && forall i | 0 <= i < |x| :: !Before(x[i], p)
    decreases |x|
  {
    if |x| > 1 {
      NotBeforeTransitive(p, x[0], x[1]);
      NoneEarlier(x[1..], p);
      forall i | 0 <= i < |x|
        ensures !Before(x[i], p)
      {
        assert i > 0 ==> x[i] == x[1..][i - 1];
      }
    }
  }

  lemma {:induction false} WithoutFirst(x: seq<Pair>)
    requires x != [] && SortedPairs(x)
    ensures SortedPairs(x[1..]) && multiset(x[1..]) == multiset(x) - multiset{x[0]}
  {
    assert x == [x[0]] + x[1..];
  }

  lemma {:induction false} EarlierTail(x: seq<Pair>, n: nat)
    requires x != [] && n > 0 && TiedEarly(x[1..], n - 1)
    ensures TiedEarly(x, n)
  {
    var p, q :| p in x[1..] && q in x[1..] && p != q && Tie(p, q) && Earlier(x[1..], p) < n - 1;
    assert p in x && q in x;
  }

  /** Without such ties the first n places do not depend on the sorting algorithm. */
  lemma {:induction false} FirstPlacesUnique(x: seq<Pair>, y: seq<Pair>, n: nat)
    requires SortedPairs(x) && SortedPairs(y) && multiset(x) == multiset(y) && !TiedEarly(x, n)
    ensures Cut(x, n) == Cut(y, n)
    decreases n
  {
    assert |x| == |multiset(x)| == |multiset(y)| == |y|;
    if x != [] && n > 0 {
      SameMembers(x, y, x[0]);
      SameMembers(x, y, y[0]);
      FirstIsLeast(x, y[0]);
      FirstIsLeast(y, x[0]);
      LessIrreflexive(x[0].a.name + x[0].b.name);
      NoneEarlier(x, x[0]);
      assert Tie(x[0], y[0]) && Earlier(x, x[0]) < n;
      WithoutFirst(x);
      WithoutFirst(y);
      if TiedEarly(x[1..], n - 1) {
        EarlierTail(x, n);
      }
      FirstPlacesUnique(x[1..], y[1..], n - 1);
      CutOneMore(x, n);
      CutOneMore(y, n);
    }
  }

  lemma {:induction false} CutOneMore(x: seq<Pair>, n: nat)
    requires x != [] && n > 0
    ensures Cut(x, n) == [x[0]] + Cut(x[1..], n - 1)
  {
  }

  lemma {:induction false} FirstIsLeast(x: seq<Pair>, p: Pair)
    requires SortedPairs(x) && p in x
    ensures !Before(p, x[0])
  {
    var i :| 0 <= i < |x| && x[i] == p;
    if i == 0 {
      LessIrreflexive(p.a.name + p.b.name);
    }
  }

  lemma {:induction false} TiedAlike(p: Pair, q: Pair, z: Pair)
    requires !Before(p, q) && !Before(q, p)
    ensures (Before(p, z) <==> Before(q, z)) && (Before(z, p) <==> Before(z, q))
  {
    LessTotal(p.a.name + p.b.name, q.a.name + q.b.name);
  }

  /** Exchanging two elements that compare equal leaves a sequence sorted. */
  lemma {:induction false} SwapStaysSorted(x: seq<Pair>, i: nat, j: nat)
    requires SortedPairs(x) && i < j < |x| && !Before(x[i], x[j])
    ensures IsSorting(x[i := x[j]][j := x[i]], x)
  {
    var y := x[i := x[j]][j := x[i]];
    forall k, l | 0 <= k < l < |y|
      ensures !Before(y[l], y[k])
    {
      assert !Before(x[l], x[k]);
      TiedAlike(x[i], x[j], x[k]);
      TiedAlike(x[i], x[j], x[l]);
      LessIrreflexive(x[i].a.name + x[i].b.name);
      TiedAlike(x[i], x[j], x[i]);
    }
  }

  /** With one, another sorting has another first n places. */
  lemma {:induction false} TieGivesAnother(x: seq<Pair>, n: nat) returns (y: seq<Pair>)
    requires SortedPairs(x) && TiedEarly(x, n)
    ensures IsSorting(y, x) && Cut(y, n) != Cut(x, n)
  {
    var p, q :| p in x && q in x && p != q && Tie(p, q) && Earlier(x, p) < n;
    var l := TiedWith(x, p, q);
    var k := Earlier(x, p);
    SwapStaysSorted(x, k, l);
    y := x[k := x[l]][l := x[k]];
    CutShows(x, y, n, k);
  }

  lemma {:induction false} CutShows(x: seq<Pair>, y: seq<Pair>, n: nat, k: nat)
    requires |x| == |y| && k < |x| && k < n && x[k] != y[k]
    ensures Cut(x, n) != Cut(y, n)
  {
    assert Cut(y, n)[k] == y[k] && Cut(x, n)[k] == x[k];
  }

  /** The first place of a tie can be given to another pair. */
  lemma {:induction false} TiedWith(x: seq<Pair>, p: Pair, q: Pair) returns (l: nat)
    requires SortedPairs(x) && p in x && q in x && p != q && Tie(p, q)
    ensures Earlier(x, p) < l < |x| && x[l] != x[Earlier(x, p)] && !Before(x[Earlier(x, p)], x[l])
  {
    var k := Earlier(x, p);
    var i :| 0 <= i < |x| && x[i] == p;
    var j :| 0 <= j < |x| && x[j] == q;
    LessIrreflexive(p.a.name + p.b.name);
    EarlierAreFirst(x, p, i);
    EarlierAreFirst(x, p, j);
    EarlierAreFirst(x, p, k);
    l := if x[k] == p then j else i;
    TiedAlike(p, q, x[k]);
  }

  /** Which pairs are chosen, and in which order, depends on nothing but the skills
      exactly when no two different candidates tie for one of the chosen places. */
  lemma {:induction false} ChoiceDeterminedExactly(words: Splitter, skills: seq<Skill>, maxPairs: int, pairs: seq<Pair>)
    requires Chosen(words, skills, maxPairs, pairs)
    ensures (forall others | Chosen(words, skills, maxPairs, others) :: others == pairs)
       <==> var active := ActiveOf(skills); !TiedEarly(AllPairs(words, active, |active|), Cap(maxPairs))
  {
    var active, n := ActiveOf(skills), Cap(maxPairs);
    var found := AllPairs(words, active, |active|);
    var all: seq<Pair> :| IsSorting(all, found) && pairs == Cut(all, n);
    if TiedEarly(found, n) {
      TiedEarlyAnyOrder(found, all, n);
      var other := TieGivesAnother(all, n);
      assert IsSorting(other, found);
      assert Chosen(words, skills, maxPairs, Cut(other, n));
    } else {
      if TiedEarly(all, n) {
        TiedEarlyAnyOrder(all, found, n);
      }
      forall others | Chosen(words, skills, maxPairs, others)
        ensures others == pairs
      {
        var x: seq<Pair> :| IsSorting(x, found) && others == Cut(x, n);
        FirstPlacesUnique(all, x, n);
      }
    }
  }

  /** Four agent-written skills in service that share their description. */
  function Alike(description: string): seq<Skill> {
    var sk := Fresh("", description, "body", ByAgent, 0).(state := Active, promotedBy := "report");
    [sk.(name := "a"), sk.(name := "ab"), sk.(name := "bc"), sk.(name := "c")]
  }

  lemma {:induction false} AlikeOverlap(words: Splitter, x: Skill, y: Skill)
    requires x.description == y.description && words(x.description) != {}
    ensures Overlap(words, x, y) == 1.0
  {
    var w := words(x.description);
    assert w * w == w;
  }

  lemma {:induction false} ActiveAll(skills: seq<Skill>)
    requires forall sk | sk in skills :: Comparable(sk)
    ensures ActiveOf(skills) == skills
    decreases |skills|
  {
    if skills != [] {
      var init, last := skills[..|skills| - 1], skills[|skills| - 1];
      assert skills == init + [last] && last in skills;
      forall sk | sk in init
        ensures Comparable(sk)
      {
        assert sk in skills;
      }
      ActiveAll(init);
    }
  }

  /** Every two of them overlap fully, so the tie-break by names run together decides,
      and "a" with "bc" ties with "ab" with "c" for the third place. */
  lemma {:induction false} AlikePairs(words: Splitter, s: seq<Skill>)
    requires |s| == 4 && forall i, j | 0 <= i < j < 4 :: Overlap(words, s[i], s[j]) == 1.0
    ensures AllPairs(words, s, 4)
         == [Pair(s[0], s[1], 1.0), Pair(s[0], s[2], 1.0), Pair(s[0], s[3], 1.0),
             Pair(s[1], s[2], 1.0), Pair(s[1], s[3], 1.0), Pair(s[2], s[3], 1.0)]
  {
    assert PairsFrom(words, s, 0, 4) == [Pair(s[0], s[1], 1.0), Pair(s[0], s[2], 1.0), Pair(s[0], s[3], 1.0)];
    assert PairsFrom(words, s, 1, 4) == [Pair(s[1], s[2], 1.0), Pair(s[1], s[3], 1.0)];
    assert PairsFrom(words, s, 2, 4) == [Pair(s[2], s[3], 1.0)];
    assert PairsFrom(words, s, 3, 4) == [];
  }

  lemma {:induction false} AlikeActive(words: Splitter, description: string)
    requires words(Trim(description)) != {}
    ensures var s := Alike(description);
            ActiveOf(s) == s && forall i, j | 0 <= i < j < 4 :: Overlap(words, s[i], s[j]) == 1.0
  {
    var s := Alike(description);
    forall i, j | 0 <= i < j < 4
      ensures Overlap(words, s[i], s[j]) == 1.0
    {
      AlikeOverlap(words, s[i], s[j]);
    }
    ActiveAll(s);
  }

  lemma {:induction false} EarlierOfSix(x: seq<Pair>, p: Pair)
    requires |x| == 6 && !Before(x[1], p) && !Before(x[2], p) && !Before(x[4], p) && !Before(x[5], p)
    ensures Earlier(x, p) <= 2
  {
    assert x[3..] == [x[3]] + x[4..] && x == x[..1] + (x[1..3] + ([x[3]] + x[4..]));
    EarlierJoins(x[..1], x[1..3] + ([x[3]] + x[4..]), p);
    EarlierJoins(x[1..3], [x[3]] + x[4..], p);
    EarlierJoins([x[3]], x[4..], p);
    assert x[1..3] == [x[1], x[2]] && x[4..] == [x[4], x[5]];
    assert [x[1], x[2]][1..] == [x[2]] && [x[4], x[5]][1..] == [x[5]];
    assert [x[2]][1..] == [] && [x[5]][1..] == [] && [x[3]][1..] == [] && x[..1][1..] == [];
  }

  /** Two of six fully overlapping pairs tie for the third place. */
  lemma {:induction false} SixTie(p: seq<Pair>)
    requires |p| == 6 && forall i | 0 <= i < 6 :: p[i].overlap == 1.0
    requires p[1].a.name + p[1].b.name == "abc" && p[2].a.name + p[2].b.name == "ac"
    requires p[4].a.name + p[4].b.name == "abc" && p[5].a.name + p[5].b.name == "bcc"
    requires p[1] != p[4]
    ensures TiedEarly(p, 3)
  {
    assert !Less("ac", "abc") && !Less("abc", "abc") && !Less("bcc", "abc");
    EarlierOfSix(p, p[1]);
    assert p[1] in p && p[4] in p && Tie(p[1], p[4]);
  }

  /** So with room for three pairs, whichever are chosen, others would be as right. */
  lemma {:induction false} ChoiceCanDiffer(words: Splitter, description: string, pairs: seq<Pair>)
    returns (others: seq<Pair>)
    requires words(Trim(description)) != {} && Chosen(words, Alike(description), 3, pairs)
    ensures Chosen(words, Alike(description), 3, others) && others != pairs
  {
    var s := Alike(description);
    AlikeActive(words, description);
    AlikeTied(words, s);
    ChoiceDeterminedExactly(words, s, 3, pairs);
    others :| Chosen(words, s, 3, others) && others != pairs;
  }

  lemma {:induction false} AlikeTied(words: Splitter, s: seq<Skill>)
    requires |s| == 4 && forall i, j | 0 <= i < j < 4 :: Overlap(words, s[i], s[j]) == 1.0
    requires s[0].name == "a" && s[1].name == "ab" && s[2].name == "bc" && s[3].name == "c"
    ensures TiedEarly(AllPairs(words, s, |s|), 3)
  {
    AlikePairs(words, s);
    var p := AllPairs(words, s, 4);
    assert p[1] == Pair(s[0], s[2], 1.0) && p[2] == Pair(s[0], s[3], 1.0);
    assert p[4] == Pair(s[1], s[3], 1.0) && p[5] == Pair(s[2], s[3], 1.0);
    assert "a" + "bc" == "abc" && "a" + "c" == "ac" && "ab" + "c" == "abc" && "bc" + "c" == "bcc";
    assert "a" != "ab";
    SixTie(p);
  }
}
