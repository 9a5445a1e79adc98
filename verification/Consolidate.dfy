/** Merging two overlapping skills into one.

    Models applyMerge and carryScenarios of internal/consolidate/consolidate.go,
    and AttachScenario of internal/skill/eval.go. */
module Consolidate {
  import opened Prelude
  import opened Order
  import opened Skills
  import opened Curator

  datatype MergeError =
    | UnusableName(name: string)
    | NameTaken(name: string)
    | BadMerge(why: Invalid)
    | CannotCarry(scenario: string)
    | StoreError(e: SkillError)

  // ---------------------------------------------------------------- carrying scenarios

  function Renamed(file: ScenarioFile, name: string): ScenarioFile {
    file.(scenario := file.scenario.(name := name))
  }

  function Prefixed(names: set<string>, prefix: string): set<string> {
    set s | s in names :: prefix + s
  }

  lemma PrefixStrips(prefix: string, s: string)
    ensures (prefix + s)[|prefix|..] == s
  {
  }

  /** A skill's scenarios under their carried names. */
  function Carried(files: Evals, prefix: string): (r: Evals)
    ensures r.Keys == Prefixed(files.Keys, prefix)
    ensures forall s | s in files :: prefix + s in r && r[prefix + s] == Renamed(files[s], prefix + s)
  {
    var r := map k | k in Prefixed(files.Keys, prefix) ::
      (assert exists s :: s in files && k == prefix + s;
       assert forall s | s in files && k == prefix + s :: k[|prefix|..] == s;
       Renamed(files[k[|prefix|..]], k));
    assert forall s | s in files :: (prefix + s)[|prefix|..] == s;
    r
  }

  /** The scenario still has its recording, and its carried name is a valid one. */
  predicate Copyable(file: ScenarioFile, name: string) {
    file.recording.Some? && ValidName(name)
  }

  predicate Carriable(files: Evals, prefix: string) {
    forall s | s in files :: Copyable(files[s], prefix + s)
  }

  /** Nothing up to this scenario, in the order of names, keeps it from being copied. */
  predicate Reached(files: Evals, prefix: string, s: string) {
    forall t | t in files && !Less(s, t) :: Copyable(files[t], prefix + t)
  }

  /** The scenarios that come before the first that cannot be copied. */
  function Copied(files: Evals, prefix: string): Evals {
    map s | s in files && Reached(files, prefix, s) :: files[s]
  }

  lemma AllCopied(files: Evals, prefix: string)
    requires Carriable(files, prefix)
    ensures Copied(files, prefix) == files
  {
  }

  function Only(files: Evals, names: seq<string>): Evals {
    map s | s in files && s in names :: files[s]
  }

  method AttachScenario(store: Store, to: string, name: string, file: ScenarioFile) returns (ok: bool)
    modifies store`evals
    ensures ok <==> Copyable(file, name)
    ensures EvalsOf(store.evals, to)
         == if ok then EvalsOf(old(store.evals), to)[name := Renamed(file, name)] else EvalsOf(old(store.evals), to)
    ensures forall n | n != to :: EvalsOf(store.evals, n) == EvalsOf(old(store.evals), n)
  {
    if file.recording.None? || !ValidName(name) {
      return false;
    }
    store.evals := store.evals[to := EvalsOf(store.evals, to)[name := Renamed(file, name)]];
    return true;
  }

  /** The files after the first n scenarios, by name, were copied. */
  ghost function CopyFirst(base: Evals, files: Evals, prefix: string, n: nat): Evals
    requires n <= |Sorted(files.Keys)|
  {
    if n == 0 then base
    else
      var s := Sorted(files.Keys)[n - 1];
      assert s in Sorted(files.Keys);
      CopyFirst(base, files, prefix, n - 1)[prefix + s := Renamed(files[s], prefix + s)]
  }

  /** Copies the scenarios in the order of their names, up to the first that cannot be. */
  method CarryScenarios(store: Store, from: string, to: string, prefix: string) returns (e: Option<MergeError>)
    requires from != to
    modifies store`evals
    ensures e.None? <==> Carriable(EvalsOf(old(store.evals), from), prefix)
    ensures forall n | n != to :: EvalsOf(store.evals, n) == EvalsOf(old(store.evals), n)
    ensures EvalsOf(store.evals, to)
         == EvalsOf(old(store.evals), to) + Carried(Copied(EvalsOf(old(store.evals), from), prefix), prefix)
  {
    ghost var n;
    e, n := CopyInOrder(store, from, to, prefix);
    StoppedAt(EvalsOf(old(store.evals), to), EvalsOf(old(store.evals), from), prefix, n);
  }

  /** The loop, up to the n-th scenario. */
  method CopyInOrder(store: Store, from: string, to: string, prefix: string)
    returns (e: Option<MergeError>, ghost n: nat)
    requires from != to
    modifies store`evals
    ensures var files := EvalsOf(old(store.evals), from);
            && GoodUpTo(files, prefix, n)
            && (n < |Sorted(files.Keys)| ==> !GoodAt(files, prefix, n))
            && (e.None? <==> n == |Sorted(files.Keys)|)
            && EvalsOf(store.evals, to) == CopyFirst(EvalsOf(old(store.evals), to), files, prefix, n)
    ensures forall n | n != to :: EvalsOf(store.evals, n) == EvalsOf(old(store.evals), n)
  {
    var files := EvalsOf(store.evals, from);
    var names := List(files.Keys);
    ghost var base := EvalsOf(store.evals, to);
    for i := 0 to |names|
      invariant GoodUpTo(files, prefix, i)
      invariant forall n | n != to :: EvalsOf(store.evals, n) == EvalsOf(old(store.evals), n)
      invariant EvalsOf(store.evals, to) == CopyFirst(base, files, prefix, i)
    {
      assert names[i] in names;
      var s, carried := names[i], prefix + names[i];
      CopyOneMore(base, files, prefix, i);
      var attached := AttachScenario(store, to, carried, files[s]);
      if !attached {
        return Some(CannotCarry(carried)), i;
      }
    }
    return None, |names|;
  }

  /** The first n scenarios, by name, can be copied. */
  ghost predicate GoodUpTo(files: Evals, prefix: string, n: nat) {
    && n <= |Sorted(files.Keys)|
    && forall k | 0 <= k < n :: GoodAt(files, prefix, k)
  }

  ghost predicate GoodAt(files: Evals, prefix: string, k: nat)
    requires k < |Sorted(files.Keys)|
  {
    var s := Sorted(files.Keys)[k];
    s in files && Copyable(files[s], prefix + s)
  }

  lemma CopyOneMore(base: Evals, files: Evals, prefix: string, i: nat)
    requires GoodUpTo(files, prefix, i) && i < |Sorted(files.Keys)|
    ensures var s := Sorted(files.Keys)[i];
            && s in files && (GoodAt(files, prefix, i) <==> Copyable(files[s], prefix + s))
            && CopyFirst(base, files, prefix, i + 1)
               == CopyFirst(base, files, prefix, i)[prefix + s := Renamed(files[s], prefix + s)]
    ensures GoodAt(files, prefix, i) ==> GoodUpTo(files, prefix, i + 1)
  {
    assert Sorted(files.Keys)[i] in Sorted(files.Keys);
  }

  lemma UpdatedLast(base: Evals, more: Evals, k: string, file: ScenarioFile)
    ensures base + more[k := file] == (base + more)[k := file]
  {
  }

  lemma CarriedOneMore(files: Evals, prefix: string, s: string, file: ScenarioFile)
    ensures Carried(files[s := file], prefix) == Carried(files, prefix)[prefix + s := Renamed(file, prefix + s)]
  {
    var was, now := Carried(files, prefix), Carried(files[s := file], prefix);
    assert files[s := file].Keys == files.Keys + {s};
    forall k | k in now && k != prefix + s
      ensures k in was && now[k] == was[k]
    {
      var t :| t in files[s := file] && k == prefix + t;
    }
    forall k | k in was
      ensures k in now
    {
      var t :| t in files && k == prefix + t;
    }
    assert s in files[s := file] && files[s := file][s] == file;
  }

  lemma OnlyOneMore(files: Evals, names: seq<string>, n: nat)
    requires n < |names| && names[n] in files
    ensures Only(files, names[..n + 1]) == Only(files, names[..n])[names[n] := files[names[n]]]
  {
    assert names[..n + 1] == names[..n] + [names[n]];
  }

  lemma {:induction false} CopyFirstIs(base: Evals, files: Evals, prefix: string, n: nat)
    requires n <= |Sorted(files.Keys)|
    ensures CopyFirst(base, files, prefix, n) == base + Carried(Only(files, Sorted(files.Keys)[..n]), prefix)
    decreases n
  {
    var names := Sorted(files.Keys);
    if n == 0 {
      NothingCarried(base, files, prefix);
    } else {
      var s := names[n - 1];
      assert s in names;
      var was := Only(files, names[..n - 1]);
      CopyFirstIs(base, files, prefix, n - 1);
      OnlyOneMore(files, names, n - 1);
      CarriedOneMore(was, prefix, s, files[s]);
      UpdatedLast(base, Carried(was, prefix), prefix + s, Renamed(files[s], prefix + s));
    }
  }

  lemma NothingCarried(base: Evals, files: Evals, prefix: string)
    ensures base + Carried(Only(files, Sorted(files.Keys)[..0]), prefix) == base
  {
    assert Sorted(files.Keys)[..0] == [];
    assert Only(files, []) == map[] && Carried(map[], prefix) == map[];
  }

  lemma ReachedBelow(files: Evals, prefix: string, n: nat, k: nat)
    requires GoodUpTo(files, prefix, n) && k < n
    ensures Reached(files, prefix, Sorted(files.Keys)[k])
  {
    var names := Sorted(files.Keys);
    SortedAscending(files.Keys);
    forall t | t in files && !Less(names[k], t)
      ensures Copyable(files[t], prefix + t)
    {
      assert t in names;
      var l :| 0 <= l < |names| && names[l] == t;
      assert l <= k && GoodAt(files, prefix, l);
    }
  }

  lemma NotReachedAbove(files: Evals, prefix: string, n: nat, k: nat)
    requires n <= k < |Sorted(files.Keys)| && !GoodAt(files, prefix, n)
    ensures !Reached(files, prefix, Sorted(files.Keys)[k])
  {
    var names := Sorted(files.Keys);
    SortedAscending(files.Keys);
    assert names[n] in names;
    if Less(names[k], names[n]) {
      if n < k {
        LessTransitive(names[n], names[k], names[n]);
      }
      LessIrreflexive(names[n]);
    }
  }

  /** The scenarios before the first bad one are those that were reached. */
  lemma OnlyReached(files: Evals, prefix: string, n: nat)
    requires GoodUpTo(files, prefix, n) && (n < |Sorted(files.Keys)| ==> !GoodAt(files, prefix, n))
    ensures Only(files, Sorted(files.Keys)[..n]) == Copied(files, prefix)
  {
    var names := Sorted(files.Keys);
    SortedAscending(files.Keys);
    forall s | s in files
      ensures s in names[..n] <==> Reached(files, prefix, s)
    {
      assert s in names;
      var k :| 0 <= k < |names| && names[k] == s;
      if k < n {
        ReachedBelow(files, prefix, n, k);
        assert names[..n][k] == s;
      } else {
        NotReachedAbove(files, prefix, n, k);
        assert s !in names[..n];
      }
    }
  }

  lemma StoppedAt(base: Evals, files: Evals, prefix: string, n: nat)
    requires GoodUpTo(files, prefix, n) && (n < |Sorted(files.Keys)| ==> !GoodAt(files, prefix, n))
    ensures CopyFirst(base, files, prefix, n) == base + Carried(Copied(files, prefix), prefix)
    ensures n == |Sorted(files.Keys)| <==> Carriable(files, prefix)
  {
    CopyFirstIs(base, files, prefix, n);
    OnlyReached(files, prefix, n);
    AllGoodExactly(files, prefix, n);
  }

  lemma AllGoodExactly(files: Evals, prefix: string, n: nat)
    requires GoodUpTo(files, prefix, n) && (n < |Sorted(files.Keys)| ==> !GoodAt(files, prefix, n))
    ensures n == |Sorted(files.Keys)| <==> Carriable(files, prefix)
  {
    var names := Sorted(files.Keys);
    if n == |names| {
      forall s | s in files
        ensures Copyable(files[s], prefix + s)
      {
        assert s in names;
        var k :| 0 <= k < |names| && names[k] == s;
        assert GoodAt(files, prefix, k);
      }
    } else {
      assert names[n] in names;
    }
  }

  lemma PrefixedSize(names: set<string>, prefix: string)
    ensures |Prefixed(names, prefix)| == |names|
    decreases |names|
  {
    if names != {} {
      var s :| s in names;
      PrefixedSize(names - {s}, prefix);
      PrefixStrips(prefix, s);
      assert forall t | t in names && t != s :: (prefix + t)[|prefix|..] == t;
      assert Prefixed(names, prefix) == Prefixed(names - {s}, prefix) + {prefix + s};
      assert prefix + s !in Prefixed(names - {s}, prefix);
    }
  }

  // ---------------------------------------------------------------- merging

  datatype Proposal = Proposal(name: string, description: string, body: string) {
    function Name(): string {
      Trim(name)
    }
  }

  function MergeReason(name: string): string {
    "consolidated into " + name
  }

  /** Why a merge is turned down before anything is copied. */
  function Objection(m: Records, a: string, b: string, p: Proposal, now: int): Option<MergeError> {
    if !ValidName(p.Name()) then Some(UnusableName(p.Name()))
    else if Loaded(m, p.Name()).Ok? && p.Name() != a && p.Name() != b then Some(NameTaken(p.Name()))
    else
      match New(p.Name(), p.description, p.body, ByAgent, now)
      case Err(why) => Some(BadMerge(why))
      case Ok(_) => None
  }

  /** Retires a source unless the merge kept its name. */
  function RetireSource(done: Done, source: string, name: string, now: int): Done {
    if done.error.Some? || source == name then done
    else ArchivedOff(done.records, source, MergeReason(name), now)
  }

  /** The records once the scenarios are in place: save the merged skill, then
      retire the sources. */
  function MergedRecords(m: Records, a: string, b: string, p: Proposal, now: int): Done {
    var saved := Saved(m, Fresh(p.Name(), p.description, p.body, ByAgent, now), now);
    RetireSource(RetireSource(saved, a, p.Name(), now), b, p.Name(), now)
  }

  predicate SourceCarriable(evals: map<string, Evals>, source: string, name: string) {
    source != name ==> Carriable(EvalsOf(evals, source), source + "-")
  }

  /** Whether both sources' scenarios can be carried. */
  predicate BothCarriable(evals: map<string, Evals>, a: string, b: string, name: string) {
    SourceCarriable(evals, a, name) && SourceCarriable(evals, b, name)
  }

  function CarriedInto(evals: map<string, Evals>, source: string, name: string): Evals {
    if source == name then map[] else Carried(EvalsOf(evals, source), source + "-")
  }

  /** The merged skill's scenarios: those already under its name, then what was
      carried over from each source. */
  function MergedEvals(evals: map<string, Evals>, a: string, b: string, name: string): Evals {
    EvalsOf(evals, name) + CarriedInto(evals, a, name) + CarriedInto(evals, b, name)
  }

  function CopiedInto(evals: map<string, Evals>, source: string, name: string): Evals {
    if source == name then map[] else Carried(Copied(EvalsOf(evals, source), source + "-"), source + "-")
  }

  /** What is under the merged skill's name once the copying is over, whether it went
      through or stopped at a scenario that cannot be copied. */
  function LeftEvals(evals: map<string, Evals>, a: string, b: string, name: string): Evals {
    EvalsOf(evals, name) + CopiedInto(evals, a, name)
    + if SourceCarriable(evals, a, name) then CopiedInto(evals, b, name) else map[]
  }

  lemma CompleteCopy(evals: map<string, Evals>, a: string, b: string, name: string)
    requires BothCarriable(evals, a, b, name)
    ensures LeftEvals(evals, a, b, name) == MergedEvals(evals, a, b, name)
  {
    if a != name {
      AllCopied(EvalsOf(evals, a), a + "-");
    }
    if b != name {
      AllCopied(EvalsOf(evals, b), b + "-");
    }
  }

  method ApplyMerge(store: Store, a: string, b: string, p: Proposal, now: int) returns (e: Option<MergeError>)
    requires a != b
    modifies store
    ensures var objection := Objection(old(store.records), a, b, p, now);
            var ready := objection.None? && BothCarriable(old(store.evals), a, b, p.Name());
            && (objection.Some? ==> e == objection && store.evals == old(store.evals))
            && (objection.None? ==>
                  EvalsOf(store.evals, p.Name()) == LeftEvals(old(store.evals), a, b, p.Name()))
            && (!ready ==> e.Some? && store.records == old(store.records))
            && (ready ==>
                  var done := MergedRecords(old(store.records), a, b, p, now);
                  && store.records == done.records
                  && e == (if done.error.Some? then Some(StoreError(done.error.value)) else None)
                  && EvalsOf(store.evals, p.Name()) == MergedEvals(old(store.evals), a, b, p.Name()))
    ensures forall n | n != p.Name() :: EvalsOf(store.evals, n) == EvalsOf(old(store.evals), n)
  {
    var name := p.Name();
    if !ValidName(name) {
      return Some(UnusableName(name));
    }
    var existing := store.Load(name);
    if existing.Ok? && name != a && name != b {
      return Some(NameTaken(name));
    }
    var merged := New(name, p.description, p.body, ByAgent, now);
    if merged.Err? {
      return Some(BadMerge(merged.error));
    }
    e := CarryBoth(store, a, b, name);
    if e.Some? {
      return;
    }
    CompleteCopy(old(store.evals), a, b, name);
    var failed := Settle(store, merged.value, a, b, now);
    e := if failed.Some? then Some(StoreError(failed.value)) else None;
  }

  lemma NothingMore(x: Evals)
    ensures x + map[] == x
  {
  }

  method CarryBoth(store: Store, a: string, b: string, name: string) returns (e: Option<MergeError>)
    requires a != b
    modifies store`evals
    ensures e.None? <==> BothCarriable(old(store.evals), a, b, name)
    ensures EvalsOf(store.evals, name) == LeftEvals(old(store.evals), a, b, name)
    ensures forall n | n != name :: EvalsOf(store.evals, n) == EvalsOf(old(store.evals), n)
  {
    e := None;
    NothingMore(EvalsOf(store.evals, name));
    NothingMore(EvalsOf(store.evals, name) + CopiedInto(store.evals, a, name));
    ghost var own, x := EvalsOf(store.evals, name), CopiedInto(store.evals, a, name);
    if a != name {
      e := CarryScenarios(store, a, name, a + "-");
      if e.Some? {
        return;
      }
    }
    assert EvalsOf(store.evals, name) == own + x;
    if b != name {
      e := CarryScenarios(store, b, name, b + "-");
    }
  }

  /** The records part of a merge, up to the first error. */
  method Settle(store: Store, merged: Skill, a: string, b: string, now: int) returns (e: Option<SkillError>)
    modifies store`records
    ensures var saved := Saved(old(store.records), merged, now);
            Done(store.records, e)
            == RetireSource(RetireSource(saved, a, merged.name, now), b, merged.name, now)
  {
    e := store.Save(merged, now);
    if e.None? && a != merged.name {
      e := store.Archive(a, MergeReason(merged.name), now);
    }
    if e.None? && b != merged.name {
      e := store.Archive(b, MergeReason(merged.name), now);
    }
  }

  // ---------------------------------------------------------------- which scenarios survive

  /** How many scenarios go into a merge: those already under the name, and those
      of each source that goes under another name. */
  function ScenariosBefore(evals: map<string, Evals>, a: string, b: string, name: string): nat {
    |EvalsOf(evals, name)|
    + (if a == name then 0 else |EvalsOf(evals, a)|)
    + (if b == name then 0 else |EvalsOf(evals, b)|)
  }

  /** None of them is lost: there are as many files as there were scenarios, each
      with its own content. */
  ghost predicate AllSurvive(evals: map<string, Evals>, a: string, b: string, name: string) {
    var own, all := EvalsOf(evals, name), MergedEvals(evals, a, b, name);
    && |all| == ScenariosBefore(evals, a, b, name)
    && (forall s | s in own :: s in all && all[s] == own[s])
    && (a != name ==> HasCarried(all, EvalsOf(evals, a), a + "-"))
    && (b != name ==> HasCarried(all, EvalsOf(evals, b), b + "-"))
  }

  /** Under its carried name, with its recording and all it asks and expects. */
  predicate HasCarried(all: Evals, files: Evals, prefix: string) {
    forall s | s in files :: prefix + s in all && SameUnder(files[s], prefix + s, all[prefix + s])
  }

  predicate SameUnder(was: ScenarioFile, name: string, now: ScenarioFile) {
    && now.recording == was.recording && now.scenario.name == name
    && now.scenario.description == was.scenario.description && now.scenario.prompt == was.scenario.prompt
    && now.scenario.expected == was.scenario.expected
  }

  /** No scenario of these gets the name of a file already there. */
  predicate Clear(own: Evals, files: Evals, prefix: string) {
    forall s | s in files :: prefix + s !in own
  }

  /** No carried name of the one skill's scenarios is a carried name of the other's. */
  predicate NoClash(a: string, from: Evals, b: string, also: Evals) {
    forall s, t | s in from && t in also :: a + "-" + s != b + "-" + t
  }

  lemma CarriedSize(files: Evals, prefix: string)
    ensures |Carried(files, prefix)| == |files|
  {
    PrefixedSize(files.Keys, prefix);
    assert |Carried(files, prefix)| == |Carried(files, prefix).Keys| && |files| == |files.Keys|;
  }

  lemma UnionSize(x: Evals, y: Evals)
    ensures |x + y| <= |x| + |y|
    ensures |x + y| == |x| + |y| <==> x.Keys !! y.Keys
  {
    assert (x + y).Keys == x.Keys + y.Keys;
    assert |x.Keys + y.Keys| == |x.Keys| + |y.Keys| - |x.Keys * y.Keys|;
    assert |x| == |x.Keys| && |y| == |y.Keys| && |x + y| == |(x + y).Keys|;
  }

  lemma UnionOfThreeSize(x: Evals, y: Evals, z: Evals)
    ensures |x + y + z| == |x| + |y| + |z| <==> x.Keys !! y.Keys && x.Keys !! z.Keys && y.Keys !! z.Keys
  {
    UnionSize(x, y);
    UnionSize(x + y, z);
    assert (x + y).Keys == x.Keys + y.Keys;
  }

  lemma ClearMeans(own: Evals, files: Evals, prefix: string)
    ensures own.Keys !! Carried(files, prefix).Keys <==> Clear(own, files, prefix)
  {
    var carried := Carried(files, prefix);
    assert forall s | s in files :: prefix + s in carried.Keys;
    assert forall k | k in carried.Keys :: exists s :: s in files && k == prefix + s;
  }

  lemma NoClashMeans(a: string, from: Evals, b: string, also: Evals)
    ensures Carried(from, a + "-").Keys !! Carried(also, b + "-").Keys <==> NoClash(a, from, b, also)
  {
    var x, y := Carried(from, a + "-").Keys, Carried(also, b + "-").Keys;
    if x * y != {} {
      var k :| k in x * y;
      var s :| s in from && k == a + "-" + s;
      var t :| t in also && k == b + "-" + t;
    }
    if !NoClash(a, from, b, also) {
      var s, t :| s in from && t in also && a + "-" + s == b + "-" + t;
      assert a + "-" + s in x && b + "-" + t in y;
      assert a + "-" + s in x * y;
    }
  }

  /** Disjoint files do not overwrite each other. */
  lemma DisjointStay(own: Evals, x: Evals, y: Evals, from: Evals, prefix: string)
    requires own.Keys !! x.Keys && own.Keys !! y.Keys && x.Keys !! y.Keys && x == Carried(from, prefix)
    ensures forall s | s in own :: s in own + x + y && (own + x + y)[s] == own[s]
    ensures HasCarried(own + x + y, from, prefix)
  {
    forall s | s in from
      ensures prefix + s in own + x + y && SameUnder(from[s], prefix + s, (own + x + y)[prefix + s])
    {
      assert prefix + s in x.Keys && prefix + s !in y.Keys;
    }
  }

  lemma LastStays(all: Evals, also: Evals, prefix: string)
    ensures HasCarried(all + Carried(also, prefix), also, prefix)
  {
  }

  /** A merge under a new name keeps every scenario exactly when no two carried
      names coincide and none is the name of a file already there. */
  lemma FreshNameKeepsAllExactly(evals: map<string, Evals>, a: string, b: string, name: string)
    requires a != b && name != a && name != b
    ensures var own, from, also := EvalsOf(evals, name), EvalsOf(evals, a), EvalsOf(evals, b);
            AllSurvive(evals, a, b, name)
            <==> Clear(own, from, a + "-") && Clear(own, also, b + "-") && NoClash(a, from, b, also)
  {
    var own, from, also := EvalsOf(evals, name), EvalsOf(evals, a), EvalsOf(evals, b);
    var x, y := Carried(from, a + "-"), Carried(also, b + "-");
    FreshSizes(evals, a, b, name);
    ClearMeans(own, from, a + "-");
    ClearMeans(own, also, b + "-");
    NoClashMeans(a, from, b, also);
    if own.Keys !! x.Keys && own.Keys !! y.Keys && x.Keys !! y.Keys {
      DisjointStay(own, x, y, from, a + "-");
      LastStays(own + x, also, b + "-");
    }
  }

  lemma FreshSizes(evals: map<string, Evals>, a: string, b: string, name: string)
    requires a != b && name != a && name != b
    ensures var own, x, y :=
              EvalsOf(evals, name), Carried(EvalsOf(evals, a), a + "-"), Carried(EvalsOf(evals, b), b + "-");
            && MergedEvals(evals, a, b, name) == own + x + y
            && (|own + x + y| == ScenariosBefore(evals, a, b, name)
                <==> own.Keys !! x.Keys && own.Keys !! y.Keys && x.Keys !! y.Keys)
  {
    FreshMerged(evals, a, b, name);
    SizesOf(EvalsOf(evals, name), EvalsOf(evals, a), a + "-", EvalsOf(evals, b), b + "-");
  }

  lemma FreshMerged(evals: map<string, Evals>, a: string, b: string, name: string)
    requires name != a && name != b
    ensures var own, from, also := EvalsOf(evals, name), EvalsOf(evals, a), EvalsOf(evals, b);
            && MergedEvals(evals, a, b, name) == own + Carried(from, a + "-") + Carried(also, b + "-")
            && ScenariosBefore(evals, a, b, name) == |own| + |from| + |also|
  {
  }

  lemma SizesOf(own: Evals, from: Evals, p: string, also: Evals, q: string)
    ensures var x, y := Carried(from, p), Carried(also, q);
            |own + x + y| == |own| + |from| + |also|
            <==> own.Keys !! x.Keys && own.Keys !! y.Keys && x.Keys !! y.Keys
  {
    CarriedSize(from, p);
    CarriedSize(also, q);
    UnionOfThreeSize(own, Carried(from, p), Carried(also, q));
  }

  /** A merge that keeps one source's name keeps every scenario exactly when none
      carried over from the other gets the name of one the kept skill had. */
  lemma KeptNameKeepsAllExactly(evals: map<string, Evals>, a: string, b: string)
    requires a != b
    ensures AllSurvive(evals, a, b, a) <==> Clear(EvalsOf(evals, a), EvalsOf(evals, b), b + "-")
    ensures AllSurvive(evals, b, a, a) <==> Clear(EvalsOf(evals, a), EvalsOf(evals, b), b + "-")
  {
    var own, also := EvalsOf(evals, a), EvalsOf(evals, b);
    var y := Carried(also, b + "-");
    KeptMerged(evals, a, b);
    CarriedSize(also, b + "-");
    UnionSize(own, y);
    ClearMeans(own, also, b + "-");
    LastStays(own, also, b + "-");
  }

  lemma KeptMerged(evals: map<string, Evals>, a: string, b: string)
    requires a != b
    ensures var both := EvalsOf(evals, a) + Carried(EvalsOf(evals, b), b + "-");
            MergedEvals(evals, a, b, a) == both && MergedEvals(evals, b, a, a) == both
  {
    var own, y := EvalsOf(evals, a), Carried(EvalsOf(evals, b), b + "-");
    assert own + map[] == own && own + y + map[] == own + y;
  }

  /** Two skills that happen to name a scenario the same never clash over it. */
  lemma SameNameNeverClashes(a: string, b: string, s: string)
    ensures a + "-" + s == b + "-" + s ==> a == b
  {
    var x, y := a + "-" + s, b + "-" + s;
    assert x[..|x| - |s| - 1] == a;
    assert y[..|y| - |s| - 1] == b;
  }

  /** But hyphenated names can: skill "a" with a scenario "b-c" and skill "a-b" with
      one called "c" both carry it as "a-b-c", and one of the two is lost. */
  lemma HyphensCanClash(evals: map<string, Evals>, a: string, s: string, b: string, t: string, name: string)
    requires a == "a" && s == "b-c" && b == "a-b" && t == "c" && name != a && name != b
    requires s in EvalsOf(evals, a) && t in EvalsOf(evals, b)
    ensures !AllSurvive(evals, a, b, name)
  {
    assert a + "-" + s == "a-b-c" == b + "-" + t;
    SameCarriedNameLoses(evals, a, s, b, t, name);
  }

  lemma SameCarriedNameLoses(evals: map<string, Evals>, a: string, s: string, b: string, t: string, name: string)
    requires a != b && name != a && name != b
    requires s in EvalsOf(evals, a) && t in EvalsOf(evals, b) && a + "-" + s == b + "-" + t
    ensures !AllSurvive(evals, a, b, name)
  {
    FreshNameKeepsAllExactly(evals, a, b, name);
  }

  /** And so can a kept name: when "a" has a scenario "b-c" and "b" one called "c",
      merging them into "a" overwrites what "a" had of its own. */
  lemma KeptNameCanClash(evals: map<string, Evals>, a: string, s: string, b: string, t: string)
    requires a == "a" && s == "b-c" && b == "b" && t == "c"
    requires s in EvalsOf(evals, a) && t in EvalsOf(evals, b)
    ensures !AllSurvive(evals, a, b, a)
  {
    assert b + "-" + t == "b-c";
    CarriedOntoOwnLoses(evals, a, s, b, t);
  }

  lemma CarriedOntoOwnLoses(evals: map<string, Evals>, a: string, s: string, b: string, t: string)
    requires a != b && s in EvalsOf(evals, a) && t in EvalsOf(evals, b) && b + "-" + t == s
    ensures !AllSurvive(evals, a, b, a)
  {
    KeptNameKeepsAllExactly(evals, a, b);
  }

  // ---------------------------------------------------------------- a copying that failed

  /** A merge that stops in the middle of its copying fails and leaves every record,
      but under a kept name it leaves the scenarios copied so far among the skill's own,
      and the skill's next evaluation runs them with the others. */
  lemma FailedCopyIsEvaluated(m: Records, evals: map<string, Evals>, a: string, b: string, s: string,
                              run: Runner, min: int, id: string)
    requires a != b && Loaded(m, a).Ok?
    requires s in Copied(EvalsOf(evals, b), b + "-") && !Carriable(EvalsOf(evals, b), b + "-")
    ensures !BothCarriable(evals, a, b, a)
    ensures LeftEvals(evals, b, a, a) == LeftEvals(evals, a, b, a)
    ensures var left := evals[a := LeftEvals(evals, a, b, a)];
            var file := Renamed(EvalsOf(evals, b)[s], b + "-" + s);
            && Evaluated(m, left, run, min, id, a).Ok?
            && Judged(run, m[a].(name := a), file) in Evaluated(m, left, run, min, id, a).value.results
  {
    LeftEitherWay(evals, a, b);
    CopiedIsLeft(evals, a, b, s);
    var files := LeftEvals(evals, a, b, a);
    EachIsJudged(run, m[a].(name := a), files, b + "-" + s);
  }

  /** It is the same whether the kept name is that of the first or the second source. */
  lemma LeftEitherWay(evals: map<string, Evals>, a: string, b: string)
    requires a != b
    ensures LeftEvals(evals, b, a, a) == LeftEvals(evals, a, b, a)
  {
    NothingMore(EvalsOf(evals, a));
    NothingMore(EvalsOf(evals, a) + CopiedInto(evals, b, a));
  }

  lemma CopiedIsLeft(evals: map<string, Evals>, a: string, b: string, s: string)
    requires a != b && s in Copied(EvalsOf(evals, b), b + "-")
    ensures var left := LeftEvals(evals, a, b, a);
            b + "-" + s in left && left[b + "-" + s] == Renamed(EvalsOf(evals, b)[s], b + "-" + s)
  {
    var copied := Copied(EvalsOf(evals, b), b + "-");
    assert Carried(copied, b + "-")[b + "-" + s] == Renamed(copied[s], b + "-" + s);
  }

  lemma EachIsJudged(run: Runner, sk: Skill, files: Evals, s: string)
    requires s in files
    ensures Judged(run, sk, files[s]) in Results(run, sk, files)
  {
    var names := Sorted(files.Keys);
    assert s in names;
    var i :| 0 <= i < |names| && names[i] == s;
    assert Results(run, sk, files)[i] == Judged(run, sk, files[s]);
  }

  // ---------------------------------------------------------------- what a merge leaves

  /** A source can be taken to the archive, or is there already. */
  predicate CanRetire(m: Records, n: string) {
    && ValidName(n) && n in m && !m[n].pinned
    && (m[n].state == Archived || Validate(m[n].(name := n, state := Archived)).None?)
  }

  /** The sources a merge retires: it stops at the first that cannot be. */
  function RetiredBy(m: Records, a: string, b: string, name: string): set<string> {
    (if a != name && CanRetire(m, a) then {a} else {})
    + (if b != name && CanRetire(m, b) && (a == name || CanRetire(m, a)) then {b} else {})
  }

  /** What retiring a source did. */
  ghost predicate AfterRetiring(m: Records, after: Done, source: string, name: string) {
    && (after.error.Some? <==> source != name && !CanRetire(m, source))
    && after.records.Keys == m.Keys
    && (forall n | n in m && n != source :: after.records[n] == m[n])
    && (source in m && (source == name || !CanRetire(m, source)) ==> after.records[source] == m[source])
    && (source != name && CanRetire(m, source) ==>
          && after.records[source].state == Archived && !after.records[source].pinned
          && after.records[source].createdBy == m[source].createdBy
          && (if m[source].state == Archived then after.records[source] == m[source]
              else after.records[source].reason == Trim("consolidated into " + name)))
  }

  lemma RetireDoes(done: Done, source: string, name: string, now: int)
    requires done.error.None?
    ensures AfterRetiring(done.records, RetireSource(done, source, name, now), source, name)
  {
  }

  /** The records a merge leaves, in any store and whether or not it goes through:
      the merged skill in quarantine without evidence, written by the agent and not
      pinned; the retired sources archived; and every other skill as it was. */
  ghost predicate Left(m: Records, m': Records, name: string, retired: set<string>) {
    && m'.Keys == m.Keys + {name} && IsMerged(m'[name])
    && (forall n | n in retired ::
          && n in m && n != name && m'[n].state == Archived && m'[n].createdBy == m[n].createdBy && !m'[n].pinned
          && (if m[n].state == Archived then m'[n] == m[n] else m'[n].reason == Trim("consolidated into " + name)))
    && forall n | n in m && n != name && n !in retired :: m'[n] == m[n]
  }

  predicate IsMerged(sk: Skill) {
    sk.state == Quarantine && sk.promotedBy == "" && sk.createdBy == ByAgent && !sk.pinned
  }

  lemma SaveDoes(m: Records, a: string, b: string, p: Proposal, now: int)
    requires Objection(m, a, b, p, now).None?
    ensures var saved := Saved(m, Fresh(p.Name(), p.description, p.body, ByAgent, now), now);
            && saved.error.None?
            && Left(m, saved.records, p.Name(), {})
            && saved.records[p.Name()]
               == Skill(p.Name(), Trim(p.description), Quarantine, ByAgent, Some(now), Some(now), 0, None, false, "", "",
                        Trim(p.body))
  {
  }

  lemma CanRetireSame(m: Records, m': Records, n: string)
    requires (n in m <==> n in m') && (n in m ==> m'[n] == m[n])
    ensures CanRetire(m, n) <==> CanRetire(m', n)
  {
  }

  lemma BothRetired(m: Records, saved: Records, half: Done, done: Done, a: string, b: string, name: string)
    requires a != b && Left(m, saved, name, {}) && AfterRetiring(saved, half, a, name)
    requires if half.error.None? then AfterRetiring(half.records, done, b, name) else done == half
    ensures Left(m, done.records, name, RetiredBy(m, a, b, name)) && done.records[name] == saved[name]
    ensures done.error.Some? <==> (a != name && !CanRetire(m, a)) || (b != name && !CanRetire(m, b))
  {
    if a != name {
      CanRetireSame(m, saved, a);
    }
    if b != name {
      CanRetireSame(m, saved, b);
      CanRetireSame(saved, half.records, b);
    }
  }

  lemma MergeLeaves(m: Records, a: string, b: string, p: Proposal, now: int)
    requires a != b && Objection(m, a, b, p, now).None?
    ensures var done, name := MergedRecords(m, a, b, p, now), Trim(p.name);
            && Left(m, done.records, name, RetiredBy(m, a, b, name))
            && done.records[name]
               == Skill(name, Trim(p.description), Quarantine, ByAgent, Some(now), Some(now), 0, None, false, "", "",
                        Trim(p.body))
            && (done.error.Some? <==> (a != name && !CanRetire(m, a)) || (b != name && !CanRetire(m, b)))
  {
    var name := p.Name();
    var saved := Saved(m, Fresh(name, p.description, p.body, ByAgent, now), now);
    SaveDoes(m, a, b, p, now);
    RetireDoes(saved, a, name, now);
    var half := RetireSource(saved, a, name, now);
    if half.error.None? {
      RetireDoes(half, b, name, now);
    }
    BothRetired(m, saved.records, half, MergedRecords(m, a, b, p, now), a, b, name);
  }

  /** Past its objections and its copying a merge fails exactly when a source under
      another name cannot be retired: its record is gone, has been pinned, or would not
      pass validation. The merged skill is by then in place, quarantined. */
  lemma MergeFailsExactly(m: Records, a: string, b: string, p: Proposal, now: int)
    requires a != b && Objection(m, a, b, p, now).None?
    ensures var done, name := MergedRecords(m, a, b, p, now), p.Name();
            && (done.error.Some? <==> (a != name && !CanRetire(m, a)) || (b != name && !CanRetire(m, b)))
            && name in done.records && done.records[name].state == Quarantine
  {
    MergeLeaves(m, a, b, p, now);
  }

  /** A merge that goes through leaves both sources archived, but for the one whose
      name it kept, and changes no third skill. */
  lemma MergeSettles(m: Records, a: string, b: string, p: Proposal, now: int)
    requires a != b && Objection(m, a, b, p, now).None? && MergedRecords(m, a, b, p, now).error.None?
    ensures Left(m, MergedRecords(m, a, b, p, now).records, p.Name(), {a, b} - {p.Name()})
  {
    MergeLeaves(m, a, b, p, now);
    assert RetiredBy(m, a, b, p.Name()) == {a, b} - {p.Name()};
  }

  // ---------------------------------------------------------------- skills that should be left alone

  /** One considered pair: the model's proposal, if any, and whether the scenarios
      could be carried at that point. */
  datatype Considered = Considered(a: string, b: string, proposal: Option<Proposal>, carried: bool, now: int)

  /** This pair is merged when it comes up in a store holding m. */
  predicate Effective(m: Records, c: Considered) {
    c.proposal.Some? && c.carried && Objection(m, c.a, c.b, c.proposal.value, c.now).None?
  }

  function Considering(m: Records, c: Considered): Records {
    if Effective(m, c) then MergedRecords(m, c.a, c.b, c.proposal.value, c.now).records else m
  }

  /** Whenever its turn comes, a comparison changes a record that is pinned exactly
      when it is merged under that very name. A record some other author wrote changes
      then, and when it is an unpinned source the merge gets to archive. */
  lemma ProtectedChangesExactly(m: Records, c: Considered, n: string)
    requires c.a != c.b && n in m && !m[n].Curatable()
    ensures n in Considering(m, c)
    ensures Considering(m, c)[n] != m[n]
            <==> Effective(m, c)
                 && (n == c.proposal.value.Name()
                     || (n in RetiredBy(m, c.a, c.b, c.proposal.value.Name()) && m[n].state != Archived))
    ensures m[n].pinned ==>
              (Considering(m, c)[n] != m[n] <==> Effective(m, c) && n == c.proposal.value.Name())
  {
    if Effective(m, c) {
      MergeLeaves(m, c.a, c.b, c.proposal.value, c.now);
    }
  }

  /** So whatever became of a listed skill while the model was thinking, a merge that
      keeps its name replaces it without an error: pin, author, text, state and
      evidence are gone. */
  lemma KeptNameReplaces(m: Records, a: string, b: string, p: Proposal, now: int)
    requires a != b && a in m && p.Name() == a && CanRetire(m, b) && Objection(m, a, b, p, now).None?
    ensures var done := MergedRecords(m, a, b, p, now);
            && done.error.None? && a in done.records && !done.records[a].pinned
            && done.records[a].createdBy == ByAgent && done.records[a].state == Quarantine
            && done.records[a].promotedBy == "" && done.records[a].body == Trim(p.body)
  {
    MergeLeaves(m, a, b, p, now);
  }

  /** Any skill whatsoever can be replaced that way, a pinned one and one the user
      wrote included. */
  lemma AnySkillCanBeReplaced(sk: Skill) returns (m: Records, p: Proposal)
    ensures "a" in m && m["a"] == sk
    ensures Objection(m, "a", "b", p, 0).None?
    ensures var done := MergedRecords(m, "a", "b", p, 0);
            done.error.None? && "a" in done.records && done.records["a"].body == "merged" && !done.records["a"].pinned
  {
    var other := Fresh("b", "other", "other", ByAgent, 0).(state := Active, promotedBy := "report");
    m, p := map["a" := sk, "b" := other], Proposal("a", "merged", "merged");
    assert Trim("a") == "a" && Trim("merged") == "merged" && Trim("other") == "other";
    assert ValidName("a") && ValidName("b");
    KeptNameReplaces(m, "a", "b", p, 0);
  }

  // ---------------------------------------------------------------- a whole run

  function ConsideringAll(m: Records, pairs: seq<Considered>): Records
    decreases |pairs|
  {
    if pairs == [] then m else ConsideringAll(Considering(m, pairs[0]), pairs[1..])
  }

  /** What a consolidation may do to a store. */
  ghost predicate Consolidated(m: Records, m': Records) {
    && m.Keys <= m'.Keys
    && (forall n | n in m && (m[n].pinned || m[n].createdBy != ByAgent) :: m'[n] == m[n])
    && (forall n | n in m && m[n].Curatable() :: m'[n].Curatable())
    && forall n | n in m' && m'[n].state == Active :: n in m && m'[n] == m[n]
  }

  /** Two different skills of the store that the consolidator may touch. */
  predicate PairIn(m: Records, a: string, b: string) {
    a != b && a in m && b in m && m[a].Curatable() && m[b].Curatable()
  }

  ghost predicate AllCuratable(m: Records, pairs: seq<Considered>) {
    forall c | c in pairs :: PairIn(m, c.a, c.b)
  }

  lemma LeftIsConsolidated(m: Records, m': Records, a: string, b: string, name: string)
    requires PairIn(m, a, b) && Left(m, m', name, RetiredBy(m, a, b, name))
    requires name in m ==> name == a || name == b
    ensures Consolidated(m, m')
  {
    assert forall n | n in RetiredBy(m, a, b, name) :: n == a || n == b;
  }

  lemma ConsideringIsSafe(m: Records, c: Considered)
    requires PairIn(m, c.a, c.b)
    ensures Consolidated(m, Considering(m, c))
  {
    if Effective(m, c) {
      var name := c.proposal.value.Name();
      MergeLeaves(m, c.a, c.b, c.proposal.value, c.now);
      assert name in m ==> Loaded(m, name).Ok?;
      LeftIsConsolidated(m, Considering(m, c), c.a, c.b, name);
    }
  }

  /** However many pairs of curatable skills one run considers, however they overlap,
      and whatever else the store holds, it never touches a pinned or user-written
      skill, puts nothing into service and loses no name. */
  lemma {:induction false} ConsolidationIsSafe(m: Records, pairs: seq<Considered>)
    requires AllCuratable(m, pairs)
    ensures Consolidated(m, ConsideringAll(m, pairs))
    decreases |pairs|
  {
    if pairs != [] {
      var c := pairs[0];
      assert c in pairs;
      ConsideringIsSafe(m, c);
      ConsolidationIsSafe(Considering(m, c), pairs[1..]);
    }
  }
}
