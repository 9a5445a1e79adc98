/** Safety of the skill lifecycle over every interleaving of everyone who acts on
    one store: background review, the gate, the curator, the consolidator, an operator.

    The steps are single store calls, so a longer operation such as a curator run
    or a merge may be interrupted by any other step between two of its own. */
module Lifecycle {
  import opened Prelude
  import opened Skills

  /** The store, its scenarios, and every report any gate has issued so far. */
  datatype World = World(records: Records, evals: map<string, Evals>, issued: set<Report>)

  datatype Op =
    | SaveNew(name: string, description: string, body: string, author: Author, now: int)
    | Draft(name: string, description: string, body: string, now: int)
    | Evaluate(name: string, run: Runner, min: int, id: string)
    | Promote(name: string, report: Report, now: int)
    | Archive(name: string, reason: string, now: int)
    | Demote(name: string, reason: string, now: int)
    | Restore(name: string, now: int)
    | Pin(name: string, pinned: bool, now: int)
    | RecordUse(name: string, now: int)
    | ChangeScenarios(name: string, evals: Evals)

  /** A step can be taken in w. Only a report some gate issued can be presented. */
  ghost predicate Enabled(w: World, op: Op) {
    op.Promote? ==> op.report in w.issued
  }

  ghost function Step(w: World, op: Op): World {
    match op
    case SaveNew(name, description, body, author, now) => (
      match New(name, description, body, author, now)
      case Err(_) => w
      case Ok(sk) => w.(records := Saved(w.records, sk, now).records)
    )
    case Draft(name, description, body, now) => w.(records := Drafted(w.records, name, description, body, now).records)
    case Evaluate(name, run, min, id) => (
      match Evaluated(w.records, w.evals, run, min, id, name)
      case Err(_) => w
      case Ok(report) => w.(issued := w.issued + {report})
    )
    case Promote(name, report, now) => w.(records := Promoted(w.records, name, report, now).records)
    case Archive(name, reason, now) => w.(records := ArchivedOff(w.records, name, reason, now).records)
    case Demote(name, reason, now) => w.(records := Demoted(w.records, name, reason, now).records)
    case Restore(name, now) => w.(records := Restored(w.records, name, now).records)
    case Pin(name, pinned, now) => w.(records := Pinned(w.records, name, pinned, now).records)
    case RecordUse(name, now) => w.(records := Used(w.records, name, now).records)
    case ChangeScenarios(name, evals) => w.(evals := w.evals[name := evals])
  }

  ghost predicate Runs(w: World, ops: seq<Op>)
    decreases |ops|
  {
    ops == [] || (Enabled(w, ops[0]) && Runs(Step(w, ops[0]), ops[1..]))
  }

  ghost function After(w: World, ops: seq<Op>): World
    decreases |ops|
  {
    if ops == [] then w else After(Step(w, ops[0]), ops[1..])
  }

  /** Evidence for one skill: a passing report for its own name, whose id it carries. */
  ghost predicate Evidence(issued: set<Report>, sk: Skill) {
    sk.promotedBy != "" && exists r :: Attests(r, issued, sk)
  }

  predicate Attests(r: Report, issued: set<Report>, sk: Skill) {
    r in issued && r.Passed() && r.skill == sk.name && r.id == sk.promotedBy
  }

  ghost predicate SkillSafe(issued: set<Report>, name: string, sk: Skill) {
    && sk.name == name
    && Validate(sk).None?
    && (sk.state == Quarantine ==> sk.promotedBy == "")
    && (sk.state == Active && sk.createdBy == ByAgent ==> Evidence(issued, sk))
  }

  ghost predicate Safe(w: World) {
    forall n {:trigger SkillSafe(w.issued, n, w.records[n])} | n in w.records ::
      SkillSafe(w.issued, n, w.records[n])
  }

  lemma EvidenceGrows(a: set<Report>, b: set<Report>, sk: Skill)
    requires Evidence(a, sk) && a <= b
    ensures Evidence(b, sk)
  {
    var r :| Attests(r, a, sk);
    assert Attests(r, b, sk);
  }

  /** What one step may do to the records, whatever state the store is in. */
  ghost predicate Allowed(w: World, op: Op, w': World) {
    && w.records.Keys <= w'.records.Keys
    && w.issued <= w'.issued
    && forall n | && n in w'.records && w'.records[n].state == Active
                  && (n !in w.records || w.records[n].state != Active) ::
         && op.Promote? && op.name == n && op.report.Passed() && op.report.skill == n
         && n in w.records && w.records[n].state == Quarantine
         && w'.records[n].promotedBy == op.report.id
  }

  /** The only edge into service is a promotion out of quarantine on a passing
      report for that very skill, and no name ever leaves the store. */
  lemma StepAllowed(w: World, op: Op)
    ensures Allowed(w, op, Step(w, op))
  {
  }

  lemma SavedSafe(w: World, sk: Skill, now: int)
    requires Safe(w)
    requires sk.state == Quarantine ==> sk.promotedBy == ""
    requires sk.state == Active && sk.createdBy == ByAgent ==> Evidence(w.issued, sk)
    ensures Safe(w.(records := Saved(w.records, sk, now).records))
  {
    if Validate(sk).None? {
      var stored := sk.(updatedAt := Some(now), body := Trim(sk.body));
      TrimTwice(sk.body);
      assert Validate(stored).None?;
      if Evidence(w.issued, sk) {
        var r :| Attests(r, w.issued, sk);
        assert Attests(r, w.issued, stored);
      }
      assert SkillSafe(w.issued, sk.name, stored);
      var m := Saved(w.records, sk, now).records;
      forall n | n in m
        ensures SkillSafe(w.issued, n, m[n])
      {
        assert n != sk.name ==> n in w.records && SkillSafe(w.issued, n, w.records[n]);
      }
    }
  }

  lemma PromotedSafe(w: World, name: string, report: Report, now: int)
    requires Safe(w) && report in w.issued
    ensures Safe(w.(records := Promoted(w.records, name, report, now).records))
  {
    var loaded := Loaded(w.records, name);
    if loaded.Ok? && loaded.value.state == Quarantine && report.Passed() && report.skill == name {
      var sk := loaded.value.(state := Active, promotedBy := report.id, reason := "");
      if report.id != "" {
        assert Attests(report, w.issued, sk);
        SavedSafe(w, sk, now);
      } else if sk.createdBy != ByAgent {
        SavedSafe(w, sk, now);
      } else {
        assert Validate(sk).Some?;
      }
    }
  }

  /** Every enabled step keeps the store safe. */
  lemma StepSafe(w: World, op: Op)
    requires Safe(w) && Enabled(w, op)
    ensures Safe(Step(w, op))
  {
    match op
    case SaveNew(name, description, body, author, now) =>
      SavedSafe(w, Fresh(name, description, body, author, now), now);
    case Draft(name, description, body, now) =>
      SavedSafe(w, Fresh(Trim(name), description, body, ByAgent, now), now);
    case Evaluate(name, run, min, id) =>
      IssuedSafe(w, Step(w, op).issued);
    case Promote(name, report, now) =>
      PromotedSafe(w, name, report, now);
    case ChangeScenarios(_, _) =>
      IssuedSafe(w, w.issued);
    case _ =>
      RetiredSafe(w, op);
  }

  lemma RetiredSafe(w: World, op: Op)
    requires Safe(w) && (op.Archive? || op.Demote? || op.Restore? || op.Pin? || op.RecordUse?)
    ensures Safe(Step(w, op))
  {
    var loaded := Loaded(w.records, op.name);
    if loaded.Ok? {
      var sk := loaded.value;
      match op
      case Archive(_, reason, now) => SavedSafe(w, sk.(state := Archived, reason := Trim(reason)), now);
      case Demote(_, reason, now) =>
        SavedSafe(w, sk.(state := Quarantine, promotedBy := "", reason := Trim(reason)), now);
      case Restore(_, now) => SavedSafe(w, sk.(state := Quarantine, promotedBy := "", reason := ""), now);
      case Pin(name, pinned, now) => KeepsEvidence(w, name, sk.(pinned := pinned), now);
      case RecordUse(name, now) =>
        KeepsEvidence(w, name, sk.(useCount := sk.useCount + 1, lastUsedAt := Some(now)), now);
    }
  }

  lemma IssuedSafe(w: World, issued: set<Report>)
    requires Safe(w) && w.issued <= issued
    ensures forall n | n in w.records :: SkillSafe(issued, n, w.records[n])
  {
    forall n | n in w.records
      ensures SkillSafe(issued, n, w.records[n])
    {
      assert SkillSafe(w.issued, n, w.records[n]);
      if w.records[n].state == Active && w.records[n].createdBy == ByAgent {
        EvidenceGrows(w.issued, issued, w.records[n]);
      }
    }
  }

  /** Saving a skill back with its state, author and evidence as they were. */
  lemma KeepsEvidence(w: World, name: string, sk: Skill, now: int)
    requires Safe(w) && name in w.records && sk.name == name
    requires var was := w.records[name];
             sk.state == was.state && sk.createdBy == was.createdBy && sk.promotedBy == was.promotedBy
    ensures Safe(w.(records := Saved(w.records, sk, now).records))
  {
    var was := w.records[name];
    assert SkillSafe(w.issued, name, was);
    if sk.state == Active && sk.createdBy == ByAgent {
      var r :| Attests(r, w.issued, was);
      assert Attests(r, w.issued, sk);
    }
    SavedSafe(w, sk, now);
  }

  /** After any interleaving whatsoever the store is safe: a quarantined skill
      carries no evidence, an agent-written active one carries the id of a passing
      report issued for its own name, and every name that was ever there still is. */
  lemma {:induction false} EveryRunSafe(w: World, ops: seq<Op>)
    requires Safe(w) && Runs(w, ops)
    ensures Safe(After(w, ops))
    ensures w.records.Keys <= After(w, ops).records.Keys
    decreases |ops|
  {
    if ops != [] {
      StepSafe(w, ops[0]);
      StepAllowed(w, ops[0]);
      EveryRunSafe(Step(w, ops[0]), ops[1..]);
    }
  }

  /** A skill in service that was not in service before got there through a
      promotion within the run. */
  lemma {:induction false} ServiceMeansPromotion(w: World, ops: seq<Op>, name: string)
    requires Runs(w, ops)
    requires name in After(w, ops).records && After(w, ops).records[name].state == Active
    requires name !in w.records || w.records[name].state != Active
    ensures exists i | 0 <= i < |ops| ::
              ops[i].Promote? && ops[i].name == name && ops[i].report.Passed() && ops[i].report.skill == name
    decreases |ops|
  {
    if ops != [] {
      var next, rest := Step(w, ops[0]), ops[1..];
      StepAllowed(w, ops[0]);
      if name in next.records && next.records[name].state == Active {
        assert ops[0].Promote? && ops[0].name == name;
      } else {
        ServiceMeansPromotion(next, rest, name);
        var i :| 0 <= i < |rest| && rest[i].Promote? && rest[i].name == name
                 && rest[i].report.Passed() && rest[i].report.skill == name;
        assert ops[i + 1] == rest[i];
      }
    }
  }

  lemma {:induction false} RunsCompose(w: World, a: seq<Op>, b: seq<Op>)
    requires Runs(w, a) && Runs(After(w, a), b)
    ensures Runs(w, a + b) && After(w, a + b) == After(After(w, a), b)
    decreases |a|
  {
    if a == [] {
      assert a + b == b;
    } else {
      RunsCompose(Step(w, a[0]), a[1..], b);
      assert (a + b)[1..] == a[1..] + b;
    }
  }

  /** Each step that changes records does to them what one call on the store does, and
      each does nothing else. */
  lemma {:induction false} StepsAreCalls(w: World, name: string, description: string, body: string, author: Author,
                                         reason: string, pinned: bool, evals: Evals, now: int)
    ensures Step(w, SaveNew(name, description, body, author, now))
         == World(if Validate(Fresh(name, description, body, author, now)).Some? then w.records
                  else Saved(w.records, Fresh(name, description, body, author, now), now).records, w.evals, w.issued)
    ensures Step(w, Draft(name, description, body, now))
         == World(Drafted(w.records, name, description, body, now).records, w.evals, w.issued)
    ensures Step(w, Archive(name, reason, now))
         == World(ArchivedOff(w.records, name, reason, now).records, w.evals, w.issued)
    ensures Step(w, Demote(name, reason, now)) == World(Demoted(w.records, name, reason, now).records, w.evals, w.issued)
    ensures Step(w, Restore(name, now)) == World(Restored(w.records, name, now).records, w.evals, w.issued)
    ensures Step(w, Pin(name, pinned, now)) == World(Pinned(w.records, name, pinned, now).records, w.evals, w.issued)
    ensures Step(w, RecordUse(name, now)) == World(Used(w.records, name, now).records, w.evals, w.issued)
    ensures Step(w, ChangeScenarios(name, evals)) == World(w.records, w.evals[name := evals], w.issued)
  {
  }

  /** What a gate's certification does is an evaluation and then a promotion. */
  lemma CertifyIsTwoSteps(w: World, name: string, run: Runner, min: int, id: string, now: int)
    requires Evaluated(w.records, w.evals, run, min, id, name).Ok?
    ensures var report := Evaluated(w.records, w.evals, run, min, id, name).value;
            var ops := [Evaluate(name, run, min, id), Promote(name, report, now)];
            Runs(w, ops) && After(w, ops).records == Promoted(w.records, name, report, now).records
  {
    var report := Evaluated(w.records, w.evals, run, min, id, name).value;
    var ops := [Evaluate(name, run, min, id), Promote(name, report, now)];
    assert ops[1..] == [Promote(name, report, now)] && ops[1..][1..] == [];
    var mid := Step(w, ops[0]);
    var last := Step(mid, ops[1..][0]);
    assert After(last, ops[1..][1..]) == last;
    assert Runs(last, ops[1..][1..]);
    assert Runs(mid, ops[1..]) && After(mid, ops[1..]) == last;
  }

  // ---------------------------------------------------------------- what one operation undoes of another

  /** A valid skill under its own name, its body as a file holds it. */
  predicate AsStored(m: Records, name: string) {
    name in m && m[name].name == name && Validate(m[name]).None? && Trim(m[name].body) == m[name].body
  }

  /** Demoting takes a promotion back: nothing but the reason and the time differ. */
  lemma DemoteUndoesPromote(m: Records, name: string, report: Report, t: int, reason: string, u: int)
    requires AsStored(m, name) && m[name].state == Quarantine && m[name].promotedBy == ""
    requires Promoted(m, name, report, t).error.None?
    ensures var up := Promoted(m, name, report, t).records;
            && up[name].state == Active && up[name].promotedBy == report.id
            && Demoted(up, name, reason, u)
               == Done(m[name := m[name].(reason := Trim(reason), updatedAt := Some(u))], None)
  {
    var up := Promoted(m, name, report, t).records;
    assert up == m[name := m[name].(state := Active, promotedBy := report.id, reason := "", updatedAt := Some(t))];
    var down := Demoted(up, name, reason, u).records;
    assert down == m[name := m[name].(reason := Trim(reason), updatedAt := Some(u))];
  }

  /** Restoring takes an archiving back only as far as quarantine: a skill that was
      in service has lost its evidence and has to pass the gate again. */
  lemma RestoreUndoesArchive(m: Records, name: string, reason: string, t: int, u: int)
    requires AsStored(m, name) && !m[name].pinned && m[name].state != Archived
    ensures var down := ArchivedOff(m, name, reason, t);
            && down.error.None?
            && Restored(down.records, name, u)
               == Done(m[name := m[name].(state := Quarantine, promotedBy := "", reason := "", updatedAt := Some(u))],
                       None)
  {
    var down := ArchivedOff(m, name, reason, t).records;
    assert down == m[name := m[name].(state := Archived, reason := Trim(reason), updatedAt := Some(t))];
    var up := Restored(down, name, u).records;
    assert up == m[name := m[name].(state := Quarantine, promotedBy := "", reason := "", updatedAt := Some(u))];
  }

  function UsedAt(m: Records, name: string, times: seq<int>): Records
    decreases |times|
  {
    if times == [] then m else Used(UsedAt(m, name, times[..|times| - 1]), name, times[|times| - 1]).records
  }

  function AfterUses(sk: Skill, n: nat, last: int): Skill {
    sk.(useCount := sk.useCount + n, lastUsedAt := Some(last), updatedAt := Some(last))
  }

  lemma UsedOnce(m: Records, name: string, now: int)
    requires AsStored(m, name)
    ensures Used(m, name, now).records == m[name := AfterUses(m[name], 1, now)]
    ensures AsStored(Used(m, name, now).records, name)
  {
  }

  /** Uses add up, and change nothing else but the times. */
  lemma {:induction false} UsesAddUp(m: Records, name: string, times: seq<int>)
    requires AsStored(m, name) && times != []
    ensures UsedAt(m, name, times) == m[name := AfterUses(m[name], |times|, times[|times| - 1])]
    ensures AsStored(UsedAt(m, name, times), name)
    decreases |times|
  {
    var n := |times| - 1;
    var before := UsedAt(m, name, times[..n]);
    if n == 0 {
      assert before == m;
    } else {
      UsesAddUp(m, name, times[..n]);
      assert AfterUses(before[name], 1, times[n]) == AfterUses(m[name], n + 1, times[n]);
    }
    UsedOnce(before, name, times[n]);
  }
}
