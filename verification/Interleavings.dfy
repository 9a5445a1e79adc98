/** The longer operations, taken apart into the single steps of the lifecycle, so
    that what holds over every interleaving of steps holds of them too. */
module Interleavings {
  import opened Prelude
  import opened Skills
  import opened Lifecycle
  import opened Curator
  import opened Consolidate
  import Consolidator

  predicate Retiring(op: Op) {
    op.Archive? || op.Demote?
  }

  ghost predicate IsRun(w: World, ops: seq<Op>, records: Records) {
    Runs(w, ops) && After(w, ops) == w.(records := records)
  }

  lemma NoSteps(w: World)
    ensures IsRun(w, [], w.records)
  {
  }

  lemma OneStep(w: World, op: Op)
    requires !op.Promote? && !op.Evaluate? && !op.ChangeScenarios?
    ensures IsRun(w, [op], Step(w, op).records)
  {
    assert [op][1..] == [];
    assert Runs(Step(w, op), []);
    assert After(Step(w, op), []) == Step(w, op);
  }

  lemma MoreSteps(w: World, a: seq<Op>, mid: Records, b: seq<Op>, records: Records)
    requires IsRun(w, a, mid) && IsRun(w.(records := mid), b, records)
    ensures IsRun(w, a + b, records)
  {
    RunsCompose(w, a, b);
  }

  /** What the curator does about one skill is at most one retiring step. */
  lemma CuratedOneIsSteps(w: World, s: Setup, sk: Skill) returns (ops: seq<Op>)
    ensures IsRun(w, ops, CuratedOne(w.records, w.evals, s, sk).records)
    ensures forall op | op in ops :: Retiring(op)
  {
    NoSteps(w);
    ops := [];
    if sk.Curatable() && !s.dryRun {
      ops := AppliedIsSteps(w, s, sk.name, Decide(w.records, w.evals, s, sk));
    }
  }

  /** Applying a verdict is at most one retiring step, too. */
  lemma AppliedIsSteps(w: World, s: Setup, name: string, v: Verdict) returns (ops: seq<Op>)
    ensures IsRun(w, ops, Applied(w.records, s, name, v).records)
    ensures forall op | op in ops :: Retiring(op)
  {
    NoSteps(w);
    ops := [];
    if v == WasArchived {
      ops := [Op.Archive(name, s.reasons(name, v), s.now)];
      OneStep(w, ops[0]);
    } else if v == WasDemoted {
      ops := [Op.Demote(name, s.reasons(name, v), s.now)];
      OneStep(w, ops[0]);
    }
  }

  lemma {:induction false} PassIsSteps(w: World, s: Setup, listing: seq<Skill>) returns (ops: seq<Op>)
    ensures IsRun(w, ops, PassOver(Each(w.evals, s), w.records, listing).records)
    ensures forall op | op in ops :: Retiring(op)
    decreases |listing|
  {
    if listing == [] {
      NoSteps(w);
      ops := [];
    } else {
      var one := CuratedOne(w.records, w.evals, s, listing[0]);
      var first := CuratedOneIsSteps(w, s, listing[0]);
      ops := first;
      if one.error.None? {
        var mid := w.(records := one.records);
        var rest := PassIsSteps(mid, s, listing[1..]);
        MoreSteps(w, first, one.records, rest, PassOver(Each(w.evals, s), one.records, listing[1..]).records);
        ops := first + rest;
      }
    }
  }

  /** Every skill in service now was in service before. */
  predicate NothingEnters(m: Records, m': Records) {
    forall n | n in m' && m'[n].state == Active :: n in m && m[n].state == Active
  }

  /** A whole curator run is a run of retiring steps, so it keeps the store safe and
      can only take skills out of service. */
  lemma CurationIsSafe(w: World, s: Setup)
    requires Safe(w)
    ensures var after := w.(records := Curated(w.records, w.evals, s).records);
            Safe(after) && w.records.Keys <= after.records.Keys && NothingEnters(w.records, after.records)
  {
    var ops := PassIsSteps(w, s, Listing(w.records));
    EveryRunSafe(w, ops);
    NothingPromoted(w, ops);
  }

  lemma NothingPromoted(w: World, ops: seq<Op>)
    requires Runs(w, ops) && forall op | op in ops :: !op.Promote?
    ensures NothingEnters(w.records, After(w, ops).records)
  {
    assert forall i | 0 <= i < |ops| :: !ops[i].Promote?;
    forall n | n in After(w, ops).records && After(w, ops).records[n].state == Active
      ensures n in w.records && w.records[n].state == Active
    {
      if n !in w.records || w.records[n].state != Active {
        ServiceMeansPromotion(w, ops, n);
      }
    }
  }

  // ---------------------------------------------------------------- a pass that others interrupt

  /** A listed skill, what others do before its turn comes, and what they do between
      the verdict on it and the verdict's being applied. */
  datatype Turn = Turn(sk: Skill, before: seq<Op>, between: seq<Op>)

  datatype Amid = Amid(world: World, error: Option<SkillError>)

  ghost function Met(w: World, t: Turn): World {
    After(w, t.before)
  }

  ghost function VerdictAmid(w: World, s: Setup, t: Turn): Verdict {
    Decide(Met(w, t).records, Met(w, t).evals, s, t.sk)
  }

  /** The world a verdict is applied to. */
  ghost function Found(w: World, t: Turn): World {
    if t.sk.Curatable() then After(Met(w, t), t.between) else Met(w, t)
  }

  ghost function OneAmid(w: World, s: Setup, t: Turn): Amid {
    var found := Found(w, t);
    if !t.sk.Curatable() || s.dryRun then Amid(found, None)
    else
      var done := Applied(found.records, s, t.sk.name, VerdictAmid(w, s, t));
      Amid(found.(records := done.records), done.error)
  }

  ghost function PassAmid(w: World, s: Setup, turns: seq<Turn>): World
    decreases |turns|
  {
    if turns == [] then w
    else
      var one := OneAmid(w, s, turns[0]);
      if one.error.Some? then one.world else PassAmid(one.world, s, turns[1..])
  }

  /** Everything the others do can be done when they do it. */
  ghost predicate Possible(w: World, s: Setup, turns: seq<Turn>)
    decreases |turns|
  {
    turns == []
    || (Runs(w, turns[0].before) && Runs(Met(w, turns[0]), turns[0].between)
        && Possible(OneAmid(w, s, turns[0]).world, s, turns[1..]))
  }

  lemma OneAmidIsRun(w: World, s: Setup, t: Turn) returns (ops: seq<Op>)
    requires Runs(w, t.before) && Runs(Met(w, t), t.between)
    ensures Runs(w, ops) && After(w, ops) == OneAmid(w, s, t).world
  {
    ops := t.before;
    if t.sk.Curatable() {
      RunsCompose(w, ops, t.between);
      ops := ops + t.between;
      if !s.dryRun {
        var found, v := Found(w, t), VerdictAmid(w, s, t);
        var last := AppliedIsSteps(found, s, t.sk.name, v);
        RunsCompose(w, ops, last);
        ops := ops + last;
      }
    }
  }

  lemma {:induction false} PassAmidIsRun(w: World, s: Setup, turns: seq<Turn>) returns (ops: seq<Op>)
    requires Possible(w, s, turns)
    ensures Runs(w, ops) && After(w, ops) == PassAmid(w, s, turns)
    decreases |turns|
  {
    if turns == [] {
      ops := [];
    } else {
      var one := OneAmid(w, s, turns[0]);
      ops := OneAmidIsRun(w, s, turns[0]);
      if one.error.None? {
        var rest := PassAmidIsRun(one.world, s, turns[1..]);
        RunsCompose(w, ops, rest);
        ops := ops + rest;
      }
    }
  }

  /** However a curator pass is interrupted, the store stays safe and keeps every name. */
  lemma InterruptedCurationIsSafe(w: World, s: Setup, turns: seq<Turn>)
    requires Safe(w) && Possible(w, s, turns)
    ensures Safe(PassAmid(w, s, turns)) && w.records.Keys <= PassAmid(w, s, turns).records.Keys
  {
    var ops := PassAmidIsRun(w, s, turns);
    EveryRunSafe(w, ops);
  }

  /** At its turn, a record that is pinned changes exactly when the skill had been
      listed as curatable, failed its check, and is still in service and valid. */
  lemma PinnedTurnExactly(w: World, s: Setup, t: Turn)
    requires t.sk.name in Found(w, t).records && Found(w, t).records[t.sk.name].pinned
    ensures var now := Found(w, t).records[t.sk.name];
            OneAmid(w, s, t).world.records[t.sk.name] != now
            <==> && t.sk.Curatable() && !s.dryRun && VerdictAmid(w, s, t) == WasDemoted && now.state == Active
                 && Validate(now.(name := t.sk.name, state := Quarantine)).None?
  {
    AppliedChangesExactly(Found(w, t).records, s, t.sk.name, VerdictAmid(w, s, t));
  }

  /** The pass itself changes no record that is pinned when its turn comes. */
  ghost predicate SparesPins(w: World, s: Setup, turns: seq<Turn>)
    decreases |turns|
  {
    turns == []
    || (var t, found := turns[0], Found(w, turns[0]);
        && (t.sk.name in found.records && found.records[t.sk.name].pinned ==>
              OneAmid(w, s, t).world.records[t.sk.name] == found.records[t.sk.name])
        && SparesPins(OneAmid(w, s, t).world, s, turns[1..]))
  }

  ghost predicate SetsPin(op: Op) {
    op.Pin? && op.pinned
  }

  ghost predicate NoPinning(ops: seq<Op>) {
    forall op | op in ops :: !SetsPin(op)
  }

  /** Every pin there is now was there before. */
  predicate PinsWithin(m: Records, m': Records) {
    forall n | n in m' && m'[n].pinned :: n in m && m[n].pinned
  }

  lemma StepPins(w: World, op: Op)
    requires !SetsPin(op)
    ensures PinsWithin(w.records, Step(w, op).records)
  {
  }

  lemma {:induction false} RunPins(w: World, ops: seq<Op>)
    requires NoPinning(ops)
    ensures PinsWithin(w.records, After(w, ops).records)
    decreases |ops|
  {
    if ops != [] {
      assert ops[0] in ops;
      StepPins(w, ops[0]);
      RunPins(Step(w, ops[0]), ops[1..]);
    }
  }

  /** A listing taken before the first interruption. */
  ghost predicate ListedIn(m: Records, turns: seq<Turn>) {
    forall t | t in turns :: Fits(m, t.sk)
  }

  /** As long as nobody sets a pin during a pass, the pass spares every pinned
      skill, whatever else happens meanwhile. */
  lemma {:induction false} PinsHoldUnlessSetMeanwhile(listed: Records, w: World, s: Setup, turns: seq<Turn>)
    requires ListedIn(listed, turns) && PinsWithin(listed, w.records)
    requires forall t | t in turns :: NoPinning(t.before) && NoPinning(t.between)
    ensures SparesPins(w, s, turns)
    decreases |turns|
  {
    if turns != [] {
      var t := turns[0];
      assert t in turns && Fits(listed, t.sk);
      RunPins(w, t.before);
      if t.sk.Curatable() {
        RunPins(Met(w, t), t.between);
        AppliedPins(Found(w, t).records, s, t.sk.name, VerdictAmid(w, s, t));
      }
      PinsHoldUnlessSetMeanwhile(listed, OneAmid(w, s, t).world, s, turns[1..]);
    }
  }

  lemma AppliedPins(m: Records, s: Setup, name: string, v: Verdict)
    ensures PinsWithin(m, Applied(m, s, name, v).records)
  {
  }

  // ---------------------------------------------------------------- a merge

  lemma RetireSourceIsSteps(w: World, done: Done, source: string, name: string, now: int) returns (ops: seq<Op>)
    requires done.records == w.records
    ensures IsRun(w, ops, RetireSource(done, source, name, now).records)
    ensures forall op | op in ops :: Retiring(op)
  {
    NoSteps(w);
    ops := [];
    if done.error.None? && source != name {
      ops := [Op.Archive(source, MergeReason(name), now)];
      OneStep(w, ops[0]);
    }
  }

  /** A merge is a new quarantined skill and then at most two archivings, even when
      it fails half way. */
  lemma MergeIsSteps(w: World, a: string, b: string, p: Proposal, now: int) returns (ops: seq<Op>)
    requires Objection(w.records, a, b, p, now).None?
    ensures IsRun(w, ops, MergedRecords(w.records, a, b, p, now).records)
    ensures forall op | op in ops :: !op.Promote?
  {
    var name := p.Name();
    var save := SaveNew(name, p.description, p.body, ByAgent, now);
    var saved := Saved(w.records, Fresh(name, p.description, p.body, ByAgent, now), now);
    OneStep(w, save);
    var w1 := w.(records := saved.records);
    var first := RetireSourceIsSteps(w1, saved, a, name, now);
    var half := RetireSource(saved, a, name, now);
    var second := RetireSourceIsSteps(w.(records := half.records), half, b, name, now);
    MoreSteps(w, [save], saved.records, first, half.records);
    MoreSteps(w, [save] + first, half.records, second, RetireSource(half, b, name, now).records);
    ops := [save] + first + second;
  }

  /** So it too keeps the store safe, loses no name and puts nothing into service. */
  lemma MergeIsSafe(w: World, a: string, b: string, p: Proposal, now: int)
    requires Safe(w) && Objection(w.records, a, b, p, now).None?
    ensures var after := w.(records := MergedRecords(w.records, a, b, p, now).records);
            Safe(after) && w.records.Keys <= after.records.Keys && NothingEnters(w.records, after.records)
  {
    var ops := MergeIsSteps(w, a, b, p, now);
    EveryRunSafe(w, ops);
    NothingPromoted(w, ops);
  }

  // ---------------------------------------------------------------- a consolidation run that others interrupt

  /** One comparison of two listed skills: what others do until the model has answered,
      and its proposal, if it makes one. */
  datatype Comparison = Comparison(before: seq<Op>, a: string, b: string, proposal: Option<Proposal>, now: int)

  /** What is considered once others have brought the store to w. */
  ghost function ConsideredIn(w: World, t: Comparison): Considered {
    Considered(t.a, t.b, t.proposal,
               t.proposal.Some? && BothCarriable(w.evals, t.a, t.b, t.proposal.value.Name()), t.now)
  }

  /** The store after a proposal is acted upon: scenarios first, then records. */
  ghost function Proposed(w: World, a: string, b: string, p: Proposal, now: int): World {
    if Objection(w.records, a, b, p, now).Some? then w
    else if BothCarriable(w.evals, a, b, p.Name())
    then Copying(w, a, b, p).(records := MergedRecords(w.records, a, b, p, now).records)
    else Copying(w, a, b, p)
  }

  ghost function Copying(w: World, a: string, b: string, p: Proposal): World {
    w.(evals := w.evals[p.Name() := LeftEvals(w.evals, a, b, p.Name())])
  }

  ghost function ActedOn(w: World, t: Comparison): World {
    if t.proposal.None? then w else Proposed(w, t.a, t.b, t.proposal.value, t.now)
  }

  lemma ProposedRecords(w: World, a: string, b: string, p: Proposal, now: int)
    ensures Proposed(w, a, b, p, now).records
         == Considering(w.records, Considered(a, b, Some(p), BothCarriable(w.evals, a, b, p.Name()), now))
  {
    var c := Considered(a, b, Some(p), BothCarriable(w.evals, a, b, p.Name()), now);
    if Objection(w.records, a, b, p, now).Some? {
      assert !Effective(w.records, c);
    } else if BothCarriable(w.evals, a, b, p.Name()) {
      assert Effective(w.records, c);
    } else {
      assert !Effective(w.records, c);
    }
  }

  lemma {:induction false} ActedOnRecords(w: World, t: Comparison)
    ensures ActedOn(w, t).records == Considering(w.records, ConsideredIn(w, t))
  {
    if t.proposal.Some? {
      ProposedRecords(w, t.a, t.b, t.proposal.value, t.now);
    } else {
      assert !Effective(w.records, ConsideredIn(w, t));
    }
  }

  /** That is what the consolidation run does to its store about that pair. */
  lemma {:induction false} ActedOnAsConsidered(w: World, t: Comparison)
    ensures var after := ActedOn(w, t);
            var carried := t.proposal.Some? && BothCarriable(w.evals, t.a, t.b, t.proposal.value.Name());
            && after.issued == w.issued
            && Consolidator.Considers(Consolidator.Shelf(w.records, w.evals),
                                      Considered(t.a, t.b, t.proposal, carried, t.now),
                                      Consolidator.Shelf(after.records, after.evals))
  {
    ActedOnRecords(w, t);
    if t.proposal.Some? {
      ProposedScenarios(w, t.a, t.b, t.proposal.value, t.now);
    }
  }

  lemma {:induction false} ProposedScenarios(w: World, a: string, b: string, p: Proposal, now: int)
    ensures var after := Proposed(w, a, b, p, now);
            && after.issued == w.issued
            && (forall n | n != p.Name() :: EvalsOf(after.evals, n) == EvalsOf(w.evals, n))
            && EvalsOf(after.evals, p.Name())
               == if Objection(w.records, a, b, p, now).None? then LeftEvals(w.evals, a, b, p.Name())
                  else EvalsOf(w.evals, p.Name())
  {
    if Objection(w.records, a, b, p, now).None? {
      CopyingScenarios(w, a, b, p);
      assert Proposed(w, a, b, p, now).evals == Copying(w, a, b, p).evals;
    }
  }

  lemma {:induction false} CopyingScenarios(w: World, a: string, b: string, p: Proposal)
    ensures var evals := Copying(w, a, b, p).evals;
            && (forall n | n != p.Name() :: EvalsOf(evals, n) == EvalsOf(w.evals, n))
            && EvalsOf(evals, p.Name()) == LeftEvals(w.evals, a, b, p.Name())
  {
  }

  ghost function ComparedAmid(w: World, t: Comparison): World {
    ActedOn(After(w, t.before), t)
  }

  ghost function ConsolidationAmid(w: World, turns: seq<Comparison>): World
    decreases |turns|
  {
    if turns == [] then w else ConsolidationAmid(ComparedAmid(w, turns[0]), turns[1..])
  }

  /** Everything the others do can be done when they do it. */
  ghost predicate PossibleAmid(w: World, turns: seq<Comparison>)
    decreases |turns|
  {
    turns == [] || (Runs(w, turns[0].before) && PossibleAmid(ComparedAmid(w, turns[0]), turns[1..]))
  }

  lemma CopyingIsRun(w: World, a: string, b: string, p: Proposal) returns (ops: seq<Op>)
    ensures Runs(w, ops) && After(w, ops) == Copying(w, a, b, p)
  {
    var op := ChangeScenarios(p.Name(), LeftEvals(w.evals, a, b, p.Name()));
    ops := [op];
    assert ops[1..] == [] && Step(w, op) == Copying(w, a, b, p);
    assert Runs(Step(w, op), []) && After(Step(w, op), []) == Step(w, op);
  }

  lemma ProposedIsRun(w: World, a: string, b: string, p: Proposal, now: int) returns (ops: seq<Op>)
    requires Objection(w.records, a, b, p, now).None?
    ensures Runs(w, ops) && After(w, ops) == Proposed(w, a, b, p, now)
  {
    var copied := Copying(w, a, b, p);
    ops := CopyingIsRun(w, a, b, p);
    if BothCarriable(w.evals, a, b, p.Name()) {
      var rest := MergeIsSteps(copied, a, b, p, now);
      RunsCompose(w, ops, rest);
      ops := ops + rest;
    }
  }

  lemma {:induction false} ActedOnIsRun(w: World, t: Comparison) returns (ops: seq<Op>)
    ensures Runs(w, ops) && After(w, ops) == ActedOn(w, t)
  {
    ops := [];
    if t.proposal.Some? && Objection(w.records, t.a, t.b, t.proposal.value, t.now).None? {
      ops := ProposedIsRun(w, t.a, t.b, t.proposal.value, t.now);
    }
  }

  lemma {:induction false} ConsolidationAmidIsRun(w: World, turns: seq<Comparison>) returns (ops: seq<Op>)
    requires PossibleAmid(w, turns)
    ensures Runs(w, ops) && After(w, ops) == ConsolidationAmid(w, turns)
    decreases |turns|
  {
    if turns == [] {
      ops := [];
    } else {
      var t := turns[0];
      var met := After(w, t.before);
      var acted := ActedOnIsRun(met, t);
      RunsCompose(w, t.before, acted);
      var rest := ConsolidationAmidIsRun(ComparedAmid(w, t), turns[1..]);
      RunsCompose(w, t.before + acted, rest);
      ops := t.before + acted + rest;
    }
  }

  /** Whatever others do while the model is thinking, a consolidation run keeps the
      store safe and every name. */
  lemma InterruptedConsolidationIsSafe(w: World, turns: seq<Comparison>)
    requires Safe(w) && PossibleAmid(w, turns)
    ensures Safe(ConsolidationAmid(w, turns)) && w.records.Keys <= ConsolidationAmid(w, turns).records.Keys
  {
    var ops := ConsolidationAmidIsRun(w, turns);
    EveryRunSafe(w, ops);
  }

  /** At its turn a comparison changes a pinned record exactly when it is merged under
      that name, which only a source can be. */
  lemma PinnedComparisonExactly(w: World, t: Comparison, n: string)
    requires t.a != t.b && n in After(w, t.before).records && After(w, t.before).records[n].pinned
    ensures var met := After(w, t.before);
            && n in ComparedAmid(w, t).records
            && (ComparedAmid(w, t).records[n] != met.records[n]
                <==> Effective(met.records, ConsideredIn(met, t)) && n == t.proposal.value.Name())
            && (ComparedAmid(w, t).records[n] != met.records[n] ==> n == t.a || n == t.b)
  {
    var met := After(w, t.before);
    ActedOnRecords(met, t);
    ProtectedChangesExactly(met.records, ConsideredIn(met, t), n);
    if Effective(met.records, ConsideredIn(met, t)) && n == t.proposal.value.Name() {
      assert Loaded(met.records, n).Ok?;
    }
  }

  /** The comparisons change no record that is not theirs to change when their turn
      comes, by the given standard. */
  ghost predicate Spares(theirs: Skill -> bool, w: World, turns: seq<Comparison>)
    decreases |turns|
  {
    turns == []
    || (var met, next := After(w, turns[0].before).records, ComparedAmid(w, turns[0]);
        && (forall n | n in met && !theirs(met[n]) :: n in next.records && next.records[n] == met[n])
        && Spares(theirs, next, turns[1..]))
  }

  function Unpinned(): Skill -> bool {
    (sk: Skill) => !sk.pinned
  }

  function Touchable(): Skill -> bool {
    (sk: Skill) => sk.Curatable()
  }

  lemma MergedPins(m: Records, c: Considered)
    requires c.a != c.b
    ensures PinsWithin(m, Considering(m, c))
  {
    if Effective(m, c) {
      MergeLeaves(m, c.a, c.b, c.proposal.value, c.now);
    }
  }

  /** The two skills of each comparison were listed, as two that nobody had pinned. */
  ghost predicate ComparesUnpinned(listed: Records, turns: seq<Comparison>) {
    forall t | t in turns ::
      t.a != t.b && t.a in listed && t.b in listed && !listed[t.a].pinned && !listed[t.b].pinned
  }

  /** As long as nobody sets a pin during a consolidation run, it spares every pinned
      skill, whatever else happens meanwhile. */
  lemma {:induction false} ConsolidationSparesPins(listed: Records, w: World, turns: seq<Comparison>)
    requires ComparesUnpinned(listed, turns) && PinsWithin(listed, w.records)
    requires forall t | t in turns :: NoPinning(t.before)
    ensures Spares(Unpinned(), w, turns)
    decreases |turns|
  {
    if turns != [] {
      var t := turns[0];
      assert t in turns;
      var met := After(w, t.before);
      RunPins(w, t.before);
      ActedOnRecords(met, t);
      MergedPins(met.records, ConsideredIn(met, t));
      forall n | n in met.records && met.records[n].pinned
        ensures n in ComparedAmid(w, t).records && ComparedAmid(w, t).records[n] == met.records[n]
      {
        PinnedComparisonExactly(w, t, n);
      }
      ConsolidationSparesPins(listed, ComparedAmid(w, t), turns[1..]);
    }
  }

  /** A step that may take a skill out of the agent's hands. */
  ghost predicate Claims(op: Op) {
    SetsPin(op) || (op.SaveNew? && op.author != ByAgent)
  }

  ghost predicate NoClaims(ops: seq<Op>) {
    forall op | op in ops :: !Claims(op)
  }

  /** Every skill out of the agent's hands now was so before. */
  ghost predicate ClaimsWithin(m: Records, m': Records) {
    forall n | n in m' && !m'[n].Curatable() :: n in m && !m[n].Curatable()
  }

  lemma StepClaims(w: World, op: Op)
    requires !Claims(op)
    ensures ClaimsWithin(w.records, Step(w, op).records)
  {
  }

  lemma {:induction false} RunClaims(w: World, ops: seq<Op>)
    requires NoClaims(ops)
    ensures ClaimsWithin(w.records, After(w, ops).records)
    decreases |ops|
  {
    if ops != [] {
      assert ops[0] in ops;
      StepClaims(w, ops[0]);
      RunClaims(Step(w, ops[0]), ops[1..]);
    }
  }

  ghost predicate ComparesListed(listed: Records, turns: seq<Comparison>) {
    forall t | t in turns :: PairIn(listed, t.a, t.b)
  }

  /** And as long as nobody pins or rewrites a skill for the user either, it spares
      every skill that is not the agent's own and unpinned. */
  lemma {:induction false} ConsolidationSparesOthers(listed: Records, w: World, turns: seq<Comparison>)
    requires ComparesListed(listed, turns) && listed.Keys <= w.records.Keys && ClaimsWithin(listed, w.records)
    requires forall t | t in turns :: NoClaims(t.before)
    ensures Spares(Touchable(), w, turns)
    decreases |turns|
  {
    if turns != [] {
      var t := turns[0];
      assert t in turns && PairIn(listed, t.a, t.b);
      var met, next := After(w, t.before), ComparedAmid(w, t);
      RunClaims(w, t.before);
      RunKeepsNames(w, t.before);
      assert PairIn(met.records, t.a, t.b);
      ActedOnRecords(met, t);
      ConsideringIsSafe(met.records, ConsideredIn(met, t));
      assert Consolidated(met.records, next.records);
      NewIsOwn(met.records, ConsideredIn(met, t));
      ConsolidationSparesOthers(listed, next, turns[1..]);
    }
  }

  lemma {:induction false} RunKeepsNames(w: World, ops: seq<Op>)
    ensures w.records.Keys <= After(w, ops).records.Keys
    decreases |ops|
  {
    if ops != [] {
      StepAllowed(w, ops[0]);
      RunKeepsNames(Step(w, ops[0]), ops[1..]);
    }
  }

  lemma NewIsOwn(m: Records, c: Considered)
    requires PairIn(m, c.a, c.b)
    ensures ClaimsWithin(m, Considering(m, c))
  {
    ConsideringIsSafe(m, c);
    if Effective(m, c) {
      MergeLeaves(m, c.a, c.b, c.proposal.value, c.now);
    }
  }
}
