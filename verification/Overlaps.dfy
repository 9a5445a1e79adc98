/** When the pairs of one consolidation run get in each other's way.

    Models what follows from Run and consider of internal/consolidate/consolidate.go
    working through pairs that were all found before the first of them was merged. */
module Overlaps {
  import opened Prelude
  import opened Skills
  import opened Curator
  import opened Consolidate
  import opened Consolidator
  import C = Candidates

  predicate Has(p: C.Pair, x: string) {
    x == p.a.name || x == p.b.name
  }

  function Other(a: string, b: string, x: string): string {
    if x == a then b else a
  }

  /** No skill is in two pairs. */
  ghost predicate Disjoint(pairs: seq<C.Pair>) {
    forall i, j, x | 0 <= i < j < |pairs| && Has(pairs[i], x) :: !Has(pairs[j], x)
  }

  ghost predicate Over(pairs: seq<C.Pair>, run: seq<Considered>) {
    |run| == |pairs| && forall i | 0 <= i < |run| :: Names(run[i].a, run[i].b, pairs[i])
  }

  /** Pairs of usable names of skills the consolidator may touch. */
  ghost predicate PairsIn(m: Records, pairs: seq<C.Pair>) {
    forall i | 0 <= i < |pairs| ::
      PairIn(m, pairs[i].a.name, pairs[i].b.name) && ValidName(pairs[i].a.name) && ValidName(pairs[i].b.name)
  }

  lemma OverIsCuratable(m: Records, pairs: seq<C.Pair>, run: seq<Considered>)
    requires PairsIn(m, pairs) && Over(pairs, run)
    ensures AllCuratable(m, run)
  {
    forall c | c in run
      ensures PairIn(m, c.a, c.b)
    {
      var i :| 0 <= i < |run| && run[i] == c;
      assert Names(run[i].a, run[i].b, pairs[i]);
    }
  }

  // ---------------------------------------------------------------- what can be carried

  /** The other skill's scenarios can be carried over to x, and everything x then has
      can be carried on. */
  predicate CanCarry(evals: map<string, Evals>, a: string, b: string, x: string) {
    && Carriable(EvalsOf(evals, Other(a, b, x)), Other(a, b, x) + "-")
    && Carriable(MergedEvals(evals, a, b, x), x + "-")
  }

  /** Every scenario has its recording. */
  ghost predicate AllRecorded(evals: map<string, Evals>) {
    forall n :: Recorded(EvalsOf(evals, n))
  }

  predicate Recorded(files: Evals) {
    forall s | s in files :: files[s].recording.Some?
  }

  /** No scenario was taken away. */
  ghost predicate Grown(was: map<string, Evals>, now: map<string, Evals>) {
    forall n :: EvalsOf(was, n).Keys <= EvalsOf(now, n).Keys
  }

  lemma CarriedRecorded(files: Evals, prefix: string)
    requires Recorded(files)
    ensures Recorded(Carried(files, prefix))
  {
    forall k | k in Carried(files, prefix)
      ensures Carried(files, prefix)[k].recording.Some?
    {
      var s :| s in files && k == prefix + s;
    }
  }

  lemma CopiedRecorded(evals: map<string, Evals>, source: string, name: string)
    requires AllRecorded(evals)
    ensures Recorded(CopiedInto(evals, source, name))
  {
    assert Recorded(EvalsOf(evals, source));
    CarriedRecorded(Copied(EvalsOf(evals, source), source + "-"), source + "-");
  }

  lemma UnionRecorded(x: Evals, y: Evals)
    requires Recorded(x) && Recorded(y)
    ensures Recorded(x + y) && x.Keys <= (x + y).Keys
  {
  }

  lemma LeftRecorded(evals: map<string, Evals>, a: string, b: string, name: string)
    requires AllRecorded(evals)
    ensures Recorded(LeftEvals(evals, a, b, name)) && EvalsOf(evals, name).Keys <= LeftEvals(evals, a, b, name).Keys
  {
    CopiedRecorded(evals, a, name);
    CopiedRecorded(evals, b, name);
    assert Recorded(EvalsOf(evals, name));
    var own, x := EvalsOf(evals, name), CopiedInto(evals, a, name);
    var y: Evals := if SourceCarriable(evals, a, name) then CopiedInto(evals, b, name) else map[];
    UnionRecorded(own, x);
    UnionRecorded(own + x, y);
  }

  /** Considering a pair only adds scenarios, and only recorded ones. */
  lemma ConsideringGrows(w: Shelf, c: Considered, now: Shelf)
    requires Considers(w, c, now) && AllRecorded(w.evals)
    ensures AllRecorded(now.evals) && Grown(w.evals, now.evals)
  {
    if c.proposal.Some? {
      var name := c.proposal.value.Name();
      LeftRecorded(w.evals, c.a, c.b, name);
      forall n
        ensures Recorded(EvalsOf(now.evals, n)) && EvalsOf(w.evals, n).Keys <= EvalsOf(now.evals, n).Keys
      {
        assert Recorded(EvalsOf(w.evals, n));
        assert n != name ==> EvalsOf(now.evals, n) == EvalsOf(w.evals, n);
      }
    }
  }

  lemma FewerAreCarriable(few: Evals, more: Evals, prefix: string)
    requires Recorded(few) && few.Keys <= more.Keys && Carriable(more, prefix)
    ensures Carriable(few, prefix)
  {
    forall s | s in few
      ensures Copyable(few[s], prefix + s)
    {
      assert s in more && Copyable(more[s], prefix + s);
    }
  }

  lemma MergedKeys(evals: map<string, Evals>, a: string, b: string, x: string)
    requires a != b && (x == a || x == b)
    ensures var u := Other(a, b, x);
            MergedEvals(evals, a, b, x) == EvalsOf(evals, x) + Carried(EvalsOf(evals, u), u + "-")
  {
    var own, more := EvalsOf(evals, x), Carried(EvalsOf(evals, Other(a, b, x)), Other(a, b, x) + "-");
    assert own + map[] == own && own + more + map[] == own + more;
  }

  lemma MergedGrows(was: map<string, Evals>, now: map<string, Evals>, a: string, b: string, x: string)
    requires a != b && (x == a || x == b) && Grown(was, now) && AllRecorded(was)
    ensures MergedEvals(was, a, b, x).Keys <= MergedEvals(now, a, b, x).Keys
    ensures Recorded(MergedEvals(was, a, b, x))
  {
    var u := Other(a, b, x);
    MergedKeys(was, a, b, x);
    MergedKeys(now, a, b, x);
    assert Recorded(EvalsOf(was, x)) && Recorded(EvalsOf(was, u));
    CarriedRecorded(EvalsOf(was, u), u + "-");
    assert EvalsOf(was, u).Keys <= EvalsOf(now, u).Keys && EvalsOf(was, x).Keys <= EvalsOf(now, x).Keys;
    assert Prefixed(EvalsOf(was, u).Keys, u + "-") <= Prefixed(EvalsOf(now, u).Keys, u + "-");
  }

  /** What can be carried with more scenarios around could be carried with fewer. */
  lemma CanCarryEarlier(was: map<string, Evals>, now: map<string, Evals>, a: string, b: string, x: string)
    requires a != b && (x == a || x == b) && Grown(was, now) && AllRecorded(was) && CanCarry(now, a, b, x)
    ensures CanCarry(was, a, b, x)
  {
    var u := Other(a, b, x);
    assert Recorded(EvalsOf(was, u)) && EvalsOf(was, u).Keys <= EvalsOf(now, u).Keys;
    FewerAreCarriable(EvalsOf(was, u), EvalsOf(now, u), u + "-");
    MergedGrows(was, now, a, b, x);
    FewerAreCarriable(MergedEvals(was, a, b, x), MergedEvals(now, a, b, x), x + "-");
  }

  // ---------------------------------------------------------------- merges that nothing can bury

  /** Some scenario of n keeps n from being merged under another name. */
  predicate Stays(evals: map<string, Evals>, n: string) {
    !Carriable(EvalsOf(evals, n), n + "-")
  }

  lemma StaysLater(w: Shelf, c: Considered, now: Shelf, n: string)
    requires Considers(w, c, now) && AllRecorded(w.evals) && Stays(w.evals, n)
    ensures Stays(now.evals, n)
  {
    ConsideringGrows(w, c, now);
    assert Recorded(EvalsOf(w.evals, n)) && EvalsOf(w.evals, n).Keys <= EvalsOf(now.evals, n).Keys;
    if Carriable(EvalsOf(now.evals, n), n + "-") {
      FewerAreCarriable(EvalsOf(w.evals, n), EvalsOf(now.evals, n), n + "-");
    }
  }

  /** This skill is not a source in the rest of a run, or it has a scenario in the way. */
  ghost predicate Kept(evals: map<string, Evals>, run: seq<Considered>, n: string) {
    || (forall c | c in run :: c.a != n && c.b != n)
    || (AllRecorded(evals) && Stays(evals, n))
  }

  lemma KeptIsNotRetired(w: Shelf, c: Considered, now: Shelf, n: string)
    requires Considers(w, c, now) && (c.a == n || c.b == n ==> Stays(w.evals, n)) && Effective(w.records, c)
    ensures n !in MergeOf(w.records, c).retired
  {
  }

  lemma KeptLater(w: Shelf, run: seq<Considered>, now: Shelf, n: string)
    requires run != [] && Considers(w, run[0], now) && Kept(w.evals, run, n)
    ensures Kept(now.evals, run[1..], n)
    ensures run[0].a == n || run[0].b == n ==> Stays(w.evals, n)
  {
    assert run[0] in run;
    if AllRecorded(w.evals) && Stays(w.evals, n) {
      ConsideringGrows(w, run[0], now);
      StaysLater(w, run[0], now, n);
    }
  }

  lemma LastTouchOfRun(m: Records, run: seq<Considered>, n: string)
    requires run != []
    ensures var later := LastTouch(Merges(Considering(m, run[0]), run[1..]), n);
            LastTouch(Merges(m, run), n)
            == if later.Some? then later
               else if Effective(m, run[0]) && MergeOf(m, run[0]).Touches(n) then Some(MergeOf(m, run[0]))
               else None
  {
    var rest := Merges(Considering(m, run[0]), run[1..]);
    if Effective(m, run[0]) {
      assert Merges(m, run) == [MergeOf(m, run[0])] + rest;
      assert Merges(m, run)[1..] == rest;
    } else {
      assert Merges(m, run) == rest;
    }
  }

  /** Such a skill is touched, if at all, by merges under its own name. */
  lemma {:induction false} KeptToTheEnd(w: Shelf, run: seq<Considered>, shelves: seq<Shelf>, n: string)
    requires Goes(w, run, shelves) && Kept(w.evals, run, n)
    ensures var last := LastTouch(Merges(w.records, run), n); last.None? || last.value.name == n
    decreases |run|
  {
    if run != [] {
      KeptLater(w, run, shelves[0], n);
      KeptToTheEnd(shelves[0], run[1..], shelves[1..], n);
      LastTouchOfRun(w.records, run, n);
      if Effective(w.records, run[0]) {
        KeptIsNotRetired(w, run[0], shelves[0], n);
      }
    }
  }

  predicate Sharing(c: Considered, d: Considered, x: string) {
    (x == c.a || x == c.b) && (x == d.a || x == d.b)
  }

  ghost predicate NoWay(evals: map<string, Evals>, c: Considered, x: string) {
    AllRecorded(evals) && !CanCarry(evals, c.a, c.b, x)
  }

  /** Wherever two pairs of the run share a skill, the first could not keep its name
      and be merged on. */
  ghost predicate NoWayOn(evals: map<string, Evals>, run: seq<Considered>) {
    forall i, j, x | 0 <= i < j < |run| && Sharing(run[i], run[j], x) ::
      NoWay(evals, run[i], x)
  }

  lemma NoWayLater(w: Shelf, c: Considered, now: Shelf, d: Considered, x: string)
    requires Considers(w, c, now) && d.a != d.b && (x == d.a || x == d.b) && NoWay(w.evals, d, x)
    ensures NoWay(now.evals, d, x)
  {
    ConsideringGrows(w, c, now);
    if CanCarry(now.evals, d.a, d.b, x) {
      CanCarryEarlier(w.evals, now.evals, d.a, d.b, x);
    }
  }

  lemma NoWayOnLater(w: Shelf, run: seq<Considered>, now: Shelf)
    requires run != [] && Considers(w, run[0], now) && NoWayOn(w.evals, run)
    requires forall c | c in run :: c.a != c.b
    ensures NoWayOn(now.evals, run[1..])
  {
    var rest := run[1..];
    forall i, j, x | 0 <= i < j < |rest| && Sharing(rest[i], rest[j], x)
      ensures NoWay(now.evals, rest[i], x)
    {
      assert rest[i] == run[i + 1] && rest[j] == run[j + 1] && run[i + 1] in run;
      assert Sharing(run[i + 1], run[j + 1], x) && NoWay(w.evals, run[i + 1], x);
      NoWayLater(w, run[0], now, run[i + 1], x);
    }
  }

  /** What the first merge of such a run produces is kept. */
  lemma FirstIsKept(w: Shelf, run: seq<Considered>, now: Shelf)
    requires run != [] && Considers(w, run[0], now) && NoWayOn(w.evals, run) && AllCuratable(w.records, run)
    requires Effective(w.records, run[0])
    ensures Kept(now.evals, run[1..], run[0].proposal.value.Name())
  {
    var c, rest := run[0], run[1..];
    var x := c.proposal.value.Name();
    if d :| d in rest && (d.a == x || d.b == x) {
      var j :| 0 <= j < |rest| && rest[j] == d;
      assert run[j + 1] == d && d in run && c in run;
      assert x in w.records && Loaded(w.records, x).Ok?;
      assert Sharing(run[0], run[j + 1], x);
      assert NoWay(w.evals, run[0], x);
      ConsideringGrows(w, c, now);
      CompleteCopy(w.evals, c.a, c.b, x);
      assert EvalsOf(now.evals, x) == MergedEvals(w.evals, c.a, c.b, x);
    }
  }

  lemma {:induction false} NoWayOnLivesOn(w: Shelf, run: seq<Considered>, shelves: seq<Shelf>)
    requires Goes(w, run, shelves) && AllCuratable(w.records, run) && NoWayOn(w.evals, run)
    ensures AllLiveOn(w.records, run)
    decreases |run|
  {
    if run != [] {
      var c, rest, next := run[0], run[1..], shelves[0];
      assert c in run;
      ConsideringIsSafe(w.records, c);
      assert AllCuratable(next.records, rest);
      NoWayOnLater(w, run, next);
      NoWayOnLivesOn(next, rest, shelves[1..]);
      if Effective(w.records, c) {
        var name := c.proposal.value.Name();
        MergeLeaves(w.records, c.a, c.b, c.proposal.value, c.now);
        FirstIsKept(w, run, next);
        KeptToTheEnd(next, rest, shelves[1..], name);
        LastMergeDecides(next.records, rest, name);
        assert Merges(w.records, run) == [MergeOf(w.records, c)] + Merges(next.records, rest);
      } else {
        assert Merges(w.records, run) == Merges(next.records, rest);
      }
    }
  }

  // ---------------------------------------------------------------- pairs that share a skill

  /** Keeping one of the two names. */
  function Keep(x: string): Proposal {
    Proposal(x, "merged", "merged")
  }

  lemma KeepIsFine(w: Shelf, c: Considered, now: Shelf, x: string)
    requires ValidName(x) && (x == c.a || x == c.b) && c.proposal == Some(Keep(x))
    requires Considers(w, c, now) && BothCarriable(w.evals, c.a, c.b, x)
    ensures Keep(x).Name() == x && Effective(w.records, c)
  {
    ValidNameTrimmed(x);
    assert Trim("merged") == "merged";
  }

  /** A skill merged that way can itself be retired. */
  lemma KeptCanRetire(w: Shelf, c: Considered, now: Shelf, x: string)
    requires ValidName(x) && (x == c.a || x == c.b) && c.a != c.b && c.proposal == Some(Keep(x))
    requires Considers(w, c, now) && Keep(x).Name() == x && Effective(w.records, c)
    ensures CanRetire(now.records, x)
  {
    var saved := Saved(w.records, Fresh(x, "merged", "merged", ByAgent, c.now), c.now);
    SavedCanRetire(w.records, x, c.now);
    RetireSpares(saved, c.a, x, c.now);
    RetireSpares(RetireSource(saved, c.a, x, c.now), c.b, x, c.now);
  }

  lemma SavedCanRetire(m: Records, x: string, now: int)
    requires ValidName(x)
    ensures var saved := Saved(m, Fresh(x, "merged", "merged", ByAgent, now), now);
            saved.error.None? && CanRetire(saved.records, x)
  {
    assert Trim("merged") == "merged";
  }

  lemma RetireSpares(done: Done, source: string, x: string, now: int)
    requires CanRetire(done.records, x)
    ensures CanRetire(RetireSource(done, source, x, now).records, x)
  {
    if done.error.None? {
      RetireDoes(done, source, x, now);
      CanRetireSame(done.records, RetireSource(done, source, x, now).records, x);
    }
  }

  lemma ValidNameTrimmed(x: string)
    requires ValidName(x)
    ensures Trim(x) == x
  {
    EndsInWord(x, false);
  }

  lemma {:induction false} EndsInWord(s: string, inWord: bool)
    requires Words(s, inWord)
    ensures s == "" || NameChar(s[|s| - 1])
    ensures s != "" ==> NameChar(s[0]) || s[0] == '-'
    decreases |s|
  {
    if |s| > 1 {
      EndsInWord(s[1..], NameChar(s[0]));
      assert s[1..][|s| - 2] == s[|s| - 1];
    } else if |s| == 1 {
      assert s[1..] == "";
    }
  }

  /** Where a run leads, one pair after the other, while nothing is proposed. */
  lemma {:induction false} Idle(w: Shelf, run: seq<Considered>, shelves: seq<Shelf>, n: nat)
    requires Goes(w, run, shelves) && n <= |run| && forall i | 0 <= i < n :: run[i].proposal.None?
    ensures Goes(w, run[n..], shelves[n..])
    ensures Merges(w.records, run) == Merges(w.records, run[n..])
    ensures ConsideringAll(w.records, run) == ConsideringAll(w.records, run[n..])
    decreases n
  {
    if n > 0 {
      assert run[0].proposal.None? && shelves[0] == w;
      assert forall i | 0 <= i < n - 1 :: run[1..][i] == run[i + 1];
      Idle(w, run[1..], shelves[1..], n - 1);
      assert run[1..][n - 1..] == run[n..] && shelves[1..][n - 1..] == shelves[n..];
    }
  }

  /** Two sources, one of them kept: only the other can be retired. */
  lemma RetiredOther(m: Records, a: string, b: string, x: string)
    requires a != b && (x == a || x == b)
    ensures RetiredBy(m, a, b, x) == if CanRetire(m, Other(a, b, x)) then {Other(a, b, x)} else {}
  {
  }

  /** A run whose first pair is asked to keep v and whose others are left alone. */
  lemma OneMerge(w: Shelf, run: seq<Considered>, shelves: seq<Shelf>, v: string)
    requires Goes(w, run, shelves) && run != [] && run[0].a != run[0].b
    requires ValidName(v) && (v == run[0].a || v == run[0].b)
    requires run[0].proposal == Some(Keep(v)) && forall i | 1 <= i < |run| :: run[i].proposal.None?
    requires BothCarriable(w.evals, run[0].a, run[0].b, v) && CanRetire(w.records, Other(run[0].a, run[0].b, v))
    ensures Merges(w.records, run) == [Merge(v, {Other(run[0].a, run[0].b, v)})]
  {
    var rest := run[1..];
    KeepIsFine(w, run[0], shelves[0], v);
    RetiredOther(w.records, run[0].a, run[0].b, v);
    assert forall i | 0 <= i < |rest| :: rest[i] == run[i + 1];
    Idle(shelves[0], rest, shelves[1..], |rest|);
    assert rest[|rest|..] == [];
  }

  /** After a merge that kept x, everything x has can be carried on to v. */
  lemma StillCarriable(w: Shelf, c: Considered, now: Shelf, a: string, b: string, x: string)
    requires Considers(w, c, now) && c.proposal == Some(Keep(x)) && Keep(x).Name() == x && Effective(w.records, c)
    requires a != b && (x == a || x == b) && Carriable(MergedEvals(w.evals, c.a, c.b, x), x + "-")
    ensures BothCarriable(now.evals, a, b, Other(a, b, x))
  {
    CompleteCopy(w.evals, c.a, c.b, x);
    assert EvalsOf(now.evals, x) == MergedEvals(w.evals, c.a, c.b, x);
  }

  /** Nothing is proposed but for the j-th pair. */
  ghost predicate OnlyAt(run: seq<Considered>, j: nat) {
    forall k | 0 <= k < |run| && k != j :: run[k].proposal.None?
  }

  /** A run in which nothing is proposed before the j-th pair, which is asked to keep
      its other skill than x, nor after it. */
  lemma MergeAt(w: Shelf, run: seq<Considered>, shelves: seq<Shelf>, j: nat, x: string)
    requires Goes(w, run, shelves) && j < |run| && run[j].a != run[j].b && (x == run[j].a || x == run[j].b)
    requires ValidName(run[j].a) && ValidName(run[j].b)
    requires run[j].proposal == Some(Keep(Other(run[j].a, run[j].b, x)))
    requires OnlyAt(run, j)
    requires CanRetire(w.records, x) && BothCarriable(w.evals, run[j].a, run[j].b, Other(run[j].a, run[j].b, x))
    ensures Merges(w.records, run) == [Merge(Other(run[j].a, run[j].b, x), {x})]
  {
    var later, v := run[j..], Other(run[j].a, run[j].b, x);
    Idle(w, run, shelves, j);
    assert forall i | 0 <= i < |later| :: later[i] == run[j + i];
    assert Other(run[j].a, run[j].b, v) == x;
    OneMerge(w, later, shelves[j..], v);
  }

  /** A merge that keeps x leaves x fit to be used up in another pair. */
  lemma FirstOfTwo(w: Shelf, c: Considered, now: Shelf, a: string, b: string, x: string)
    requires Considers(w, c, now) && c.proposal == Some(Keep(x)) && c.a != c.b && (x == c.a || x == c.b)
    requires ValidName(x) && a != b && (x == a || x == b)
    requires BothCarriable(w.evals, c.a, c.b, x) && Carriable(MergedEvals(w.evals, c.a, c.b, x), x + "-")
    ensures Effective(w.records, c) && MergeOf(w.records, c) == Merge(x, RetiredBy(w.records, c.a, c.b, x))
    ensures CanRetire(now.records, x) && BothCarriable(now.evals, a, b, Other(a, b, x))
    ensures now.records == Considering(w.records, c)
  {
    KeepIsFine(w, c, now, x);
    KeptCanRetire(w, c, now, x);
    StillCarriable(w, c, now, a, b, x);
  }

  /** Of two pairs that have x, the first is asked to keep it and the second to keep its
      other skill. */
  predicate UsesUp(evals: map<string, Evals>, c: Considered, d: Considered, x: string) {
    && c.a != c.b && d.a != d.b && Sharing(c, d, x) && ValidName(d.a) && ValidName(d.b)
    && c.proposal == Some(Keep(x)) && d.proposal == Some(Keep(Other(d.a, d.b, x)))
    && CanCarry(evals, c.a, c.b, x)
  }

  /** The first pair is asked to keep x, and of the rest only the j-th is asked anything,
      which has x, to keep the other: the first merge is used up in the second. */
  lemma TwoMerges(w: Shelf, c: Considered, now: Shelf, rest: seq<Considered>, shelves: seq<Shelf>, j: nat, x: string)
    requires Considers(w, c, now) && Goes(now, rest, shelves)
    requires j < |rest| && OnlyAt(rest, j) && UsesUp(w.evals, c, rest[j], x)
    ensures Effective(w.records, c) && MergeOf(w.records, c) == Merge(x, RetiredBy(w.records, c.a, c.b, x))
    ensures Merges(Considering(w.records, c), rest) == [Merge(Other(rest[j].a, rest[j].b, x), {x})]
  {
    FirstCarriable(w.evals, c.a, c.b, x);
    FirstOfTwo(w, c, now, rest[j].a, rest[j].b, x);
    MergeAt(now, rest, shelves, j, x);
  }

  /** What the comparisons of two pairs that share x may well propose: to keep x, and
      to keep the other skill of the second. */
  function Burying(pairs: seq<C.Pair>, i: nat, j: nat, x: string, k: nat): Option<Proposal>
    requires i < j < |pairs|
  {
    if k == i then Some(Keep(x))
    else if k == j then Some(Keep(Other(pairs[j].a.name, pairs[j].b.name, x)))
    else None
  }

  lemma FirstCarriable(evals: map<string, Evals>, a: string, b: string, x: string)
    requires a != b && (x == a || x == b) && CanCarry(evals, a, b, x)
    ensures BothCarriable(evals, a, b, x) && Carriable(MergedEvals(evals, a, b, x), x + "-")
  {
  }

  /** With these proposals the run uses the first merge up in the second. */
  lemma BuryingMerges(m: Records, evals: map<string, Evals>, pairs: seq<C.Pair>, i: nat, j: nat, x: string,
                      run: seq<Considered>, shelves: seq<Shelf>)
    requires PairsIn(m, pairs) && Over(pairs, run) && Goes(Shelf(m, evals), run, shelves)
    requires i < j < |pairs| && CanBury(evals, pairs[i], pairs[j], x)
    requires forall k | 0 <= k < |run| :: run[k].proposal == Burying(pairs, i, j, x, k)
    ensures Merges(m, run)
         == [Merge(x, RetiredBy(m, pairs[i].a.name, pairs[i].b.name, x)),
             Merge(Other(pairs[j].a.name, pairs[j].b.name, x), {x})]
  {
    assert Names(run[i].a, run[i].b, pairs[i]) && Names(run[j].a, run[j].b, pairs[j]);
    assert PairIn(m, pairs[i].a.name, pairs[i].b.name) && PairIn(m, pairs[j].a.name, pairs[j].b.name);
    assert run[i].proposal == Burying(pairs, i, j, x, i) && run[j].proposal == Burying(pairs, i, j, x, j);
    assert forall k | 0 <= k < |run| && k != i && k != j :: run[k].proposal == Burying(pairs, i, j, x, k) == None;
    TwoMergesAt(Shelf(m, evals), run, shelves, i, j, x);
  }

  lemma {:induction false} TwoMergesAt(w: Shelf, run: seq<Considered>, shelves: seq<Shelf>, i: nat, j: nat, x: string)
    requires Goes(w, run, shelves) && i < j < |run| && UsesUp(w.evals, run[i], run[j], x)
    requires forall k | 0 <= k < |run| && k != i && k != j :: run[k].proposal.None?
    ensures Merges(w.records, run)
         == [Merge(x, RetiredBy(w.records, run[i].a, run[i].b, x)), Merge(Other(run[j].a, run[j].b, x), {x})]
    decreases i
  {
    TailOf(run);
    if i == 0 {
      TwoMergesNow(w, run, shelves, j, x);
    } else {
      assert run[1..][i - 1] == run[i] && run[1..][j - 1] == run[j];
      IdleStep(w, run, shelves);
      TwoMergesAt(w, run[1..], shelves[1..], i - 1, j - 1, x);
    }
  }

  lemma {:induction false} TwoMergesNow(w: Shelf, run: seq<Considered>, shelves: seq<Shelf>, j: nat, x: string)
    requires 0 < j < |run| && |run| == |shelves| && UsesUp(w.evals, run[0], run[j], x)
    requires Considers(w, run[0], shelves[0]) && Goes(shelves[0], run[1..], shelves[1..])
    requires forall k | 1 <= k < |run| && k != j :: run[k].proposal.None?
    ensures Merges(w.records, run)
         == [Merge(x, RetiredBy(w.records, run[0].a, run[0].b, x)), Merge(Other(run[j].a, run[j].b, x), {x})]
  {
    QuietTail(run, j);
    TwoMerges(w, run[0], shelves[0], run[1..], shelves[1..], j - 1, x);
    HeadMerged(w.records, run, Merge(x, RetiredBy(w.records, run[0].a, run[0].b, x)),
               Merge(Other(run[j].a, run[j].b, x), {x}));
  }

  lemma {:induction false} QuietTail(run: seq<Considered>, j: nat)
    requires 0 < j < |run| && forall k | 1 <= k < |run| && k != j :: run[k].proposal.None?
    ensures run[1..][j - 1] == run[j] && OnlyAt(run[1..], j - 1)
  {
    TailOf(run);
  }

  lemma {:induction false} TailOf(run: seq<Considered>)
    requires run != []
    ensures forall k | 0 <= k < |run[1..]| :: run[1..][k] == run[k + 1]
  {
  }

  lemma {:induction false} HeadMerged(m: Records, run: seq<Considered>, g: Merge, h: Merge)
    requires run != [] && Effective(m, run[0]) && MergeOf(m, run[0]) == g
    requires Merges(Considering(m, run[0]), run[1..]) == [h]
    ensures Merges(m, run) == [g, h]
  {
    assert Merges(m, run) == [g] + [h];
  }

  lemma {:induction false} IdleStep(w: Shelf, run: seq<Considered>, shelves: seq<Shelf>)
    requires Goes(w, run, shelves) && run != [] && run[0].proposal.None?
    ensures Goes(w, run[1..], shelves[1..]) && Merges(w.records, run) == Merges(w.records, run[1..])
  {
    assert shelves[0] == w;
  }

  lemma BuryingBuries(m: Records, evals: map<string, Evals>, pairs: seq<C.Pair>, i: nat, j: nat, x: string,
                      run: seq<Considered>, shelves: seq<Shelf>)
    requires PairsIn(m, pairs) && Over(pairs, run) && Goes(Shelf(m, evals), run, shelves)
    requires i < j < |pairs| && CanBury(evals, pairs[i], pairs[j], x)
    requires forall k | 0 <= k < |run| :: run[k].proposal == Burying(pairs, i, j, x, k)
    ensures !AllLiveOn(m, run)
    ensures var final, u := ConsideringAll(m, run), Other(pairs[i].a.name, pairs[i].b.name, x);
            && x in final && final[x].state == Archived
            && (u != Other(pairs[j].a.name, pairs[j].b.name, x) && CanRetire(m, u) ==>
                  u in final && final[u].state == Archived)
  {
    var u, v := Other(pairs[i].a.name, pairs[i].b.name, x), Other(pairs[j].a.name, pairs[j].b.name, x);
    OverIsCuratable(m, pairs, run);
    BuryingMerges(m, evals, pairs, i, j, x, run, shelves);
    RetiredOther(m, pairs[i].a.name, pairs[i].b.name, x);
    var g, h := Merge(x, RetiredBy(m, pairs[i].a.name, pairs[i].b.name, x)), Merge(v, {x});
    LastOfTwo(g, h, x);
    LastOfTwo(g, h, u);
    LastMergeDecides(m, run, x);
    LastMergeDecides(m, run, u);
    assert [g, h][0] in Merges(m, run);
  }

  lemma LastOfTwo(g: Merge, h: Merge, n: string)
    ensures LastTouch([g, h], n) == if h.Touches(n) then Some(h) else if g.Touches(n) then Some(g) else None
  {
    assert [g, h][1..] == [h] && [h][1..] == [];
    assert LastTouch([h], n) == if h.Touches(n) then Some(h) else None;
  }

  // ---------------------------------------------------------------- some run has these proposals

  function Asked(p: C.Pair, proposal: Option<Proposal>, evals: map<string, Evals>): Considered {
    Considered(p.a.name, p.b.name, proposal,
               proposal.Some? && BothCarriable(evals, p.a.name, p.b.name, proposal.value.Name()), 0)
  }

  ghost function Next(w: Shelf, c: Considered): Shelf {
    match c.proposal
    case None => Shelf(Considering(w.records, c), w.evals)
    case Some(p) =>
      var name := p.Name();
      var files := if Objection(w.records, c.a, c.b, p, c.now).None? then LeftEvals(w.evals, c.a, c.b, name)
                   else EvalsOf(w.evals, name);
      Shelf(Considering(w.records, c), w.evals[name := files])
  }

  lemma NextIsNext(w: Shelf, c: Considered)
    requires c.proposal.Some? ==> (c.carried <==> BothCarriable(w.evals, c.a, c.b, c.proposal.value.Name()))
    ensures Considers(w, c, Next(w, c))
  {
  }

  lemma {:induction false} SomeRun(w: Shelf, pairs: seq<C.Pair>, proposals: seq<Option<Proposal>>)
    returns (run: seq<Considered>, shelves: seq<Shelf>)
    requires |proposals| == |pairs|
    ensures Goes(w, run, shelves) && Over(pairs, run)
    ensures forall k | 0 <= k < |run| :: run[k].proposal == proposals[k]
    decreases |pairs|
  {
    if pairs == [] {
      run, shelves := [], [];
    } else {
      var c := Asked(pairs[0], proposals[0], w.evals);
      var next := Next(w, c);
      var rest, more := SomeRun(next, pairs[1..], proposals[1..]);
      run, shelves := [c] + rest, [next] + more;
      assert run[1..] == rest && shelves[1..] == more;
      NextIsNext(w, c);
      forall k | 0 <= k < |run|
        ensures Names(run[k].a, run[k].b, pairs[k]) && run[k].proposal == proposals[k]
      {
        if k > 0 {
          assert run[k] == rest[k - 1] && pairs[k] == pairs[1..][k - 1] && proposals[k] == proposals[1..][k - 1];
          assert Names(rest[k - 1].a, rest[k - 1].b, pairs[1..][k - 1]);
        }
      }
    }
  }

  // ---------------------------------------------------------------- theorems

  /** However the comparisons of these pairs turn out, every merged skill is waiting
      in quarantine at the end. */
  ghost predicate AlwaysLiveOn(w: Shelf, pairs: seq<C.Pair>) {
    forall run, shelves | Goes(w, run, shelves) && Over(pairs, run) :: AllLiveOn(w.records, run)
  }

  /** These two pairs share a skill that the first can keep and the second use up. */
  predicate CanBury(evals: map<string, Evals>, p: C.Pair, q: C.Pair, x: string) {
    Has(p, x) && Has(q, x) && CanCarry(evals, p.a.name, p.b.name, x)
  }

  lemma NoneBuriesMeans(evals: map<string, Evals>, pairs: seq<C.Pair>, run: seq<Considered>)
    requires Over(pairs, run) && (AllRecorded(evals) || Disjoint(pairs))
    requires forall i, j, x | 0 <= i < j < |pairs| :: !CanBury(evals, pairs[i], pairs[j], x)
    ensures NoWayOn(evals, run)
  {
    forall i, j, x | 0 <= i < j < |run| && Sharing(run[i], run[j], x)
      ensures NoWay(evals, run[i], x)
    {
      assert Names(run[i].a, run[i].b, pairs[i]) && Names(run[j].a, run[j].b, pairs[j]);
      assert Has(pairs[i], x) && Has(pairs[j], x);
      assert !CanBury(evals, pairs[i], pairs[j], x);
    }
  }

  lemma NoneBuries(w: Shelf, pairs: seq<C.Pair>)
    requires PairsIn(w.records, pairs) && (AllRecorded(w.evals) || Disjoint(pairs))
    requires forall i, j, x | 0 <= i < j < |pairs| :: !CanBury(w.evals, pairs[i], pairs[j], x)
    ensures AlwaysLiveOn(w, pairs)
  {
    forall run, shelves | Goes(w, run, shelves) && Over(pairs, run)
      ensures AllLiveOn(w.records, run)
    {
      OverIsCuratable(w.records, pairs, run);
      NoneBuriesMeans(w.evals, pairs, run);
      NoWayOnLivesOn(w, run, shelves);
    }
  }

  /** As long as no scenario has lost its recording, a run leaves every merged skill in
      quarantine whatever the comparisons answer exactly when no two of its pairs share
      a skill that the first can keep, with the other's scenarios, and the second then
      carry on under another name. */
  lemma LiveOnWhateverAnswersExactly(m: Records, evals: map<string, Evals>, pairs: seq<C.Pair>)
    requires PairsIn(m, pairs) && AllRecorded(evals)
    ensures AlwaysLiveOn(Shelf(m, evals), pairs)
       <==> forall i, j, x | 0 <= i < j < |pairs| :: !CanBury(evals, pairs[i], pairs[j], x)
  {
    if i, j, x :| 0 <= i < j < |pairs| && CanBury(evals, pairs[i], pairs[j], x) {
      SharingCanBury(m, evals, pairs, i, j, x);
    } else {
      NoneBuries(Shelf(m, evals), pairs);
    }
  }

  lemma SharingCanBury(m: Records, evals: map<string, Evals>, pairs: seq<C.Pair>, i: nat, j: nat, x: string)
    requires PairsIn(m, pairs) && i < j < |pairs| && CanBury(evals, pairs[i], pairs[j], x)
    ensures !AlwaysLiveOn(Shelf(m, evals), pairs)
  {
    var proposals := seq(|pairs|, k requires 0 <= k => Burying(pairs, i, j, x, k));
    var run, shelves := SomeRun(Shelf(m, evals), pairs, proposals);
    BuryingBuries(m, evals, pairs, i, j, x, run, shelves);
  }

  /** And whatever the scenarios: a run whose pairs share no skill buries nothing. */
  lemma DisjointAlwaysLiveOn(w: Shelf, pairs: seq<C.Pair>)
    requires PairsIn(w.records, pairs) && Disjoint(pairs)
    ensures AlwaysLiveOn(w, pairs)
  {
    forall i, j, x | 0 <= i < j < |pairs|
      ensures !CanBury(w.evals, pairs[i], pairs[j], x)
    {
      assert Has(pairs[i], x) ==> !Has(pairs[j], x);
    }
    NoneBuries(w, pairs);
  }

  /** Candidates do overlap: two pairs one listing was found to hold, sharing an active
      skill, can be answered so that that skill, carrying the first merge, ends up in the
      archive, together with the other source of that merge if that can be retired. */
  lemma OverlapCanBuryAMerge(words: C.Splitter, maxPairs: int, m: Records, evals: map<string, Evals>,
                             pairs: seq<C.Pair>, i: nat, j: nat, x: string)
    returns (run: seq<Considered>, shelves: seq<Shelf>)
    requires C.Chosen(words, Listing(m), maxPairs, pairs)
    requires i < j < |pairs| && CanBury(evals, pairs[i], pairs[j], x)
    ensures x in m && m[x].state == Active
    ensures Goes(Shelf(m, evals), run, shelves) && Over(pairs, run) && !AllLiveOn(m, run)
    ensures var final, u := ConsideringAll(m, run), Other(pairs[i].a.name, pairs[i].b.name, x);
            && x in final && final[x].state == Archived
            && (u != Other(pairs[j].a.name, pairs[j].b.name, x) && CanRetire(m, u) ==>
                  u in final && final[u].state == Archived)
  {
    ChosenAreActive(words, maxPairs, m, pairs, i, x);
    var proposals := seq(|pairs|, k requires 0 <= k => Burying(pairs, i, j, x, k));
    run, shelves := SomeRun(Shelf(m, evals), pairs, proposals);
    BuryingBuries(m, evals, pairs, i, j, x, run, shelves);
  }

  lemma ChosenAreActive(words: C.Splitter, maxPairs: int, m: Records, pairs: seq<C.Pair>, i: nat, x: string)
    requires C.Chosen(words, Listing(m), maxPairs, pairs) && i < |pairs| && Has(pairs[i], x)
    ensures PairsIn(m, pairs) && x in m && m[x].state == Active
  {
    ListingDistinct(m);
    C.ChosenAreWorth(words, Listing(m), maxPairs, pairs);
    forall k | 0 <= k < |pairs|
      ensures PairIn(m, pairs[k].a.name, pairs[k].b.name)
      ensures ValidName(pairs[k].a.name) && ValidName(pairs[k].b.name)
    {
      assert C.Worth(words, Listing(m), pairs[k]);
      ListedFits(m, pairs[k].a);
      ListedFits(m, pairs[k].b);
    }
    assert C.Worth(words, Listing(m), pairs[i]);
    ListedFits(m, if x == pairs[i].a.name then pairs[i].a else pairs[i].b);
  }
}
