/** Automatic curation: retire, expire, re-verify, and never more than that.

    Models internal/curator/curator.go. */
module Curator {
  import opened Prelude
  import opened Order
  import opened Skills

  const Hour := 3600
  const DefaultRetireUnusedAfter := 90 * 24 * Hour
  const DefaultQuarantineExpiry := 30 * 24 * Hour
  const DefaultMinInterval := 24 * Hour

  /** Zero means the default; negative disables. */
  datatype Policy = Policy(retireUnusedAfter: int, quarantineExpiry: int, skipReverify: bool, minInterval: int) {
    function RetireAfter(): int {
      if retireUnusedAfter == 0 then DefaultRetireUnusedAfter else retireUnusedAfter
    }

    function Expiry(): int {
      if quarantineExpiry == 0 then DefaultQuarantineExpiry else quarantineExpiry
    }

    function Interval(): int {
      if minInterval == 0 then DefaultMinInterval else minInterval
    }
  }

  datatype Verdict = Kept | WasDemoted | WasArchived | FailedToCheck

  datatype Action = Action(skill: string, verdict: Verdict, reason: string)

  /** What is remembered from one run to the next. */
  datatype StateFile = StateFile(lastRunAt: Option<int>, paused: bool)

  /** One run's surroundings. `reasons` renders the texts stored with a change. */
  datatype Setup = Setup(policy: Policy, now: int, dryRun: bool, gate: Option<Runner>, minScenarios: int,
                         reportID: string, reasons: (string, Verdict) -> string)

  datatype CuratorReport = CuratorReport(skipped: bool, actions: seq<Action>)

  function Due(state: Option<StateFile>, s: Setup): bool {
    match state
    case None => true
    case Some(f) =>
      if f.paused then false
      else if f.lastRunAt.None? then true
      else s.now - f.lastRunAt.value >= s.policy.Interval()
  }

  function IdleFor(sk: Skill, now: int): Option<int> {
    if sk.lastUsedAt.Some? then Some(now - sk.lastUsedAt.value)
    else if sk.createdAt.Some? then Some(now - sk.createdAt.value)
    else None
  }

  /** The age of a skill whose creation time is unknown is beyond any expiry: Go's
      zero time lies two millennia back. */
  function Expired(sk: Skill, s: Setup): bool {
    s.policy.Expiry() >= 0 && (sk.createdAt.None? || s.now - sk.createdAt.value >= s.policy.Expiry())
  }

  function Retired(sk: Skill, s: Setup): bool {
    var idle := IdleFor(sk, s.now);
    s.policy.RetireAfter() > 0 && idle.Some? && idle.value >= s.policy.RetireAfter()
  }

  ghost function Decide(m: Records, evals: map<string, Evals>, s: Setup, sk: Skill): Verdict {
    match sk.state
    case Quarantine => if Expired(sk, s) then WasArchived else Kept
    case Active =>
      if Retired(sk, s) then WasArchived
      else if s.policy.skipReverify || s.gate.None? then Kept
      else (
        match Evaluated(m, evals, s.gate.value, s.minScenarios, s.reportID, sk.name)
        case Err(_) => FailedToCheck
        case Ok(report) => if report.Passed() then Kept else WasDemoted
      )
    case _ => Kept
  }

  function Applied(m: Records, s: Setup, name: string, v: Verdict): Done {
    match v
    case WasArchived => ArchivedOff(m, name, s.reasons(name, v), s.now)
    case WasDemoted => Demoted(m, name, s.reasons(name, v), s.now)
    case _ => Done(m, None)
  }

  /** A pass over the remaining skills of a listing taken at the start. */
  datatype Pass = Pass(records: Records, actions: seq<Action>, error: Option<SkillError>)

  /** What the loop does about one listed skill. */
  datatype OneDone = OneDone(records: Records, action: seq<Action>, error: Option<SkillError>)

  ghost function CuratedOne(m: Records, evals: map<string, Evals>, s: Setup, sk: Skill): OneDone {
    if !sk.Curatable() then OneDone(m, [], None)
    else
      var v := Decide(m, evals, s, sk);
      var action := Action(sk.name, v, s.reasons(sk.name, v));
      var done := if s.dryRun then Done(m, None) else Applied(m, s, sk.name, v);
      OneDone(done.records, [action], done.error)
  }

  /** The loop over a listing, for any way of handling one skill. */
  ghost function PassOver(each: (Records, Skill) -> OneDone, m: Records, listing: seq<Skill>): Pass
    decreases |listing|
  {
    if listing == [] then Pass(m, [], None)
    else
      var one := each(m, listing[0]);
      if one.error.Some? then Pass(one.records, one.action, one.error)
      else
        var rest := PassOver(each, one.records, listing[1..]);
        Pass(rest.records, one.action + rest.actions, rest.error)
  }

  /** What a pass owes the skill it has reached, and what it still owes after it. */
  lemma PassStep(each: (Records, Skill) -> OneDone, m: Records, listing: seq<Skill>, i: nat)
    requires i < |listing|
    ensures var one, now := each(m, listing[i]), PassOver(each, m, listing[i..]);
            if one.error.Some? then now == Pass(one.records, one.action, one.error)
            else
              var rest := PassOver(each, one.records, listing[i + 1..]);
              now == Pass(rest.records, one.action + rest.actions, rest.error)
  {
    assert listing[i..][0] == listing[i] && listing[i..][1..] == listing[i + 1..];
  }

  ghost function Each(evals: map<string, Evals>, s: Setup): (Records, Skill) -> OneDone {
    (m: Records, sk: Skill) => CuratedOne(m, evals, s, sk)
  }

  /** One whole pass, as Run makes it. */
  ghost function Curated(m: Records, evals: map<string, Evals>, s: Setup): Pass {
    PassOver(Each(evals, s), m, Listing(m))
  }

  /** Directories with an unusable name are not listed. */
  function Usable(m: Records): set<string> {
    set n | n in m && ValidName(n)
  }

  function Entry(m: Records, n: string): Skill
    requires n in m
  {
    m[n].(name := n)
  }

  function Entries(m: Records, names: seq<string>): (listing: seq<Skill>)
    requires forall n | n in names :: n in m
    ensures |listing| == |names|
    ensures forall i | 0 <= i < |names| :: listing[i] == Entry(m, names[i])
    decreases |names|
  {
    if names == [] then [] else [Entry(m, names[0])] + Entries(m, names[1..])
  }

  ghost function Listing(m: Records): seq<Skill> {
    Entries(m, Sorted(Usable(m)))
  }

  method LoadAll(m: Records, names: seq<string>) returns (listing: seq<Skill>)
    requires forall n | n in names :: n in m
    ensures listing == Entries(m, names)
  {
    listing := [];
    for i := 0 to |names|
      invariant |listing| == i
      invariant forall k | 0 <= k < i :: listing[k] == Entry(m, names[k])
    {
      listing := listing + [Entry(m, names[i])];
    }
  }

  method ListSkills(store: Store) returns (listing: seq<Skill>)
    ensures listing == Listing(store.records)
  {
    var names := List(Usable(store.records));
    listing := LoadAll(store.records, names);
  }

  class CuratorRun {
    const store: Store
    var state: Option<StateFile>

    constructor (store: Store, state: Option<StateFile>)
      ensures this.store == store && this.state == state
    {
      this.store, this.state := store, state;
    }

    method DecideOne(s: Setup, sk: Skill) returns (v: Verdict)
      ensures v == Decide(store.records, store.evals, s, sk)
    {
      match sk.state {
        case Quarantine =>
          v := if Expired(sk, s) then WasArchived else Kept;
        case Active =>
          if Retired(sk, s) {
            return WasArchived;
          }
          if s.policy.skipReverify || s.gate.None? {
            return Kept;
          }
          var gate := new Gate(store, s.gate.value, s.minScenarios);
          var report := gate.Evaluate(s.reportID, sk.name);
          if report.Err? {
            return FailedToCheck;
          }
          v := if report.value.Passed() then Kept else WasDemoted;
        case _ =>
          v := Kept;
      }
    }

    method Apply(s: Setup, name: string, v: Verdict) returns (e: Option<SkillError>)
      modifies store`records
      ensures Done(store.records, e) == Applied(old(store.records), s, name, v)
    {
      match v {
        case WasArchived => e := store.Archive(name, s.reasons(name, v), s.now);
        case WasDemoted => e := store.Demote(name, s.reasons(name, v), s.now);
        case _ => e := None;
      }
    }

    method CurateOne(s: Setup, sk: Skill) returns (action: seq<Action>, e: Option<SkillError>)
      modifies store`records
      ensures OneDone(store.records, action, e) == CuratedOne(old(store.records), store.evals, s, sk)
    {
      if !sk.Curatable() {
        return [], None;
      }
      var v := DecideOne(s, sk);
      action, e := [Action(sk.name, v, s.reasons(sk.name, v))], None;
      if !s.dryRun {
        e := Apply(s, sk.name, v);
      }
    }

    method RunPass(s: Setup, listing: seq<Skill>) returns (actions: seq<Action>, e: Option<SkillError>)
      modifies store`records
      ensures Pass(store.records, actions, e) == PassOver(Each(store.evals, s), old(store.records), listing)
    {
      ghost var each := Each(store.evals, s);
      ghost var whole := PassOver(each, store.records, listing);
      actions := [];
      assert listing[0..] == listing;
      for i := 0 to |listing|
        invariant store.evals == old(store.evals)
        invariant var rest := PassOver(each, store.records, listing[i..]);
                  whole == Pass(rest.records, actions + rest.actions, rest.error)
      {
        PassStep(each, store.records, listing, i);
        ghost var actions0 := actions;
        var action, err := CurateOne(s, listing[i]);
        actions := actions + action;
        if err.Some? {
          return actions, err;
        }
        ghost var rest := PassOver(each, store.records, listing[i + 1..]);
        Associates(actions0, action, rest.actions);
      }
      return actions, None;
    }

    method Run(s: Setup) returns (report: CuratorReport, e: Option<SkillError>)
      modifies this, store`records
      ensures !Due(old(state), s) ==>
                report == CuratorReport(true, []) && e == None
                && store.records == old(store.records) && state == old(state)
      // Paused, or run again before the interval is over: a day, unless the policy says otherwise.
      ensures report.skipped <==>
                && old(state).Some?
                && (|| old(state).value.paused
                    || (&& old(state).value.lastRunAt.Some?
                        && s.now - old(state).value.lastRunAt.value
                           < if s.policy.minInterval == 0 then 24 * 3600 else s.policy.minInterval))
      ensures report.skipped ==> store.records == old(store.records) && state == old(state)
      ensures Due(old(state), s) ==>
                var pass := Curated(old(store.records), store.evals, s);
                && report == CuratorReport(false, pass.actions) && e == pass.error
                && store.records == pass.records
                && state == if s.dryRun || old(state).None? || e.Some? then old(state)
                            else Some(old(state).value.(lastRunAt := Some(s.now)))
    {
      if !Due(state, s) {
        return CuratorReport(true, []), None;
      }
      var listing := ListSkills(store);
      var actions, err := RunPass(s, listing);
      if err.Some? {
        return CuratorReport(false, actions), err;
      }
      if !s.dryRun && state.Some? {
        state := Some(state.value.(lastRunAt := Some(s.now)));
      }
      return CuratorReport(false, actions), None;
    }
  }

  // ---------------------------------------------------------------- what a run may do

  function Rank(st: State): nat {
    match st
    case Active => 2
    case Quarantine => 1
    case _ => 0
  }

  predicate Retires(v: Verdict) {
    v == WasArchived || v == WasDemoted
  }

  /** A listed skill as its record now stands. */
  predicate Fits(m: Records, sk: Skill) {
    ValidName(sk.name) && sk.name in m && sk == Entry(m, sk.name)
  }

  /** Whether an agent-written skill passes validation once it is out of service. */
  predicate Retirable(sk: Skill) {
    Trim(sk.description) != "" && Trim(sk.body) != ""
  }

  /** What is decided about a skill whose record is the listed one. */
  ghost function VerdictFor(evals: map<string, Evals>, s: Setup, sk: Skill): Verdict {
    Decide(map[sk.name := sk], evals, s, sk)
  }

  lemma DecideIsLocal(m: Records, evals: map<string, Evals>, s: Setup, sk: Skill)
    requires Fits(m, sk)
    ensures Decide(m, evals, s, sk) == VerdictFor(evals, s, sk)
  {
    assert Loaded(m, sk.name) == Ok(sk) == Loaded(map[sk.name := sk], sk.name);
  }

  /** A skill that would be reported as changed but cannot be saved. */
  ghost predicate Blocked(evals: map<string, Evals>, s: Setup, sk: Skill) {
    sk.Curatable() && !s.dryRun && Retires(VerdictFor(evals, s, sk)) && !Retirable(sk)
  }

  /** How a record differs after the curator took its skill in hand. */
  ghost predicate OneMove(was: Skill, now: Skill, v: Verdict) {
    && (v == WasArchived ==> (was.state == Active || was.state == Quarantine) && now.state == Archived)
    && (v == WasDemoted ==> was.state == Active && now.state == Quarantine)
    && (!Retires(v) ==> now == was)
    && now.createdBy == was.createdBy && now.pinned == was.pinned
  }

  /** What curating one listed skill did. */
  ghost predicate OneDid(m: Records, one: OneDone, sk: Skill, dryRun: bool, blocked: bool) {
    && one.records.Keys == m.Keys && sk.name in m && sk.Curatable() == m[sk.name].Curatable()
    && (forall n | n in m && n != sk.name :: one.records[n] == m[n])
    && (one.error.Some? <==> blocked)
    && (if !sk.Curatable() then one.action == [] && one.records == m && one.error.None?
        else
          && |one.action| == 1 && one.action[0].skill == sk.name
          && (one.error.Some? ==> one.records == m && Retires(one.action[0].verdict) && !dryRun)
          && (dryRun ==> one.records == m)
          && (!dryRun && one.error.None? ==> OneMove(m[sk.name], one.records[sk.name], one.action[0].verdict)))
  }

  lemma CuratedOneDid(m: Records, evals: map<string, Evals>, s: Setup, sk: Skill)
    requires Fits(m, sk)
    ensures OneDid(m, CuratedOne(m, evals, s, sk), sk, s.dryRun, Blocked(evals, s, sk))
  {
    DecideIsLocal(m, evals, s, sk);
    if sk.Curatable() && !s.dryRun {
      RetiringDid(m, s, sk, Decide(m, evals, s, sk));
    }
  }

  lemma RetiringDid(m: Records, s: Setup, sk: Skill, v: Verdict)
    requires Fits(m, sk) && sk.Curatable()
    requires v == WasArchived ==> sk.state == Active || sk.state == Quarantine
    requires v == WasDemoted ==> sk.state == Active
    ensures var done := Applied(m, s, sk.name, v);
            && done.records.Keys == m.Keys
            && (forall n | n in m && n != sk.name :: done.records[n] == m[n])
            && (done.error.Some? <==> Retires(v) && !Retirable(sk))
            && (done.error.Some? ==> done.records == m)
            && (done.error.None? ==> OneMove(m[sk.name], done.records[sk.name], v))
  {
    assert Loaded(m, sk.name) == Ok(sk);
  }

  /** The verdict an action list gives a skill; Kept when it does not mention it. */
  function VerdictOf(actions: seq<Action>, name: string): Verdict
    decreases |actions|
  {
    if actions == [] then Kept
    else if actions[0].skill == name then actions[0].verdict
    else VerdictOf(actions[1..], name)
  }

  predicate Listed(listing: seq<Skill>, name: string) {
    exists i | 0 <= i < |listing| :: listing[i].name == name
  }

  /** A listing of skills as they now stand, each once. */
  ghost predicate Current(m: Records, listing: seq<Skill>) {
    && (forall i | 0 <= i < |listing| :: Fits(m, listing[i]))
    && forall i, j | 0 <= i < j < |listing| :: listing[i].name != listing[j].name
  }

  /** The skill whose reported change was not saved, which ended the pass. */
  function Stuck(pass: Pass): Option<string> {
    if pass.error.Some? && pass.actions != [] then Some(pass.actions[|pass.actions| - 1].skill) else None
  }

  /** What a whole pass did to one skill. */
  ghost predicate SkillDid(m: Records, pass: Pass, listing: seq<Skill>, dryRun: bool, n: string)
    requires n in m && n in pass.records
  {
    if Stuck(pass) == Some(n) then pass.records[n] == m[n] && Retires(VerdictOf(pass.actions, n))
    else if dryRun || !m[n].Curatable() || !Listed(listing, n) then pass.records[n] == m[n]
    else OneMove(m[n], pass.records[n], VerdictOf(pass.actions, n))
  }

  ghost predicate PassDid(m: Records, pass: Pass, listing: seq<Skill>, dryRun: bool) {
    && pass.records.Keys == m.Keys
    && (pass.error.Some? ==> pass.actions != [] && !dryRun)
    && (forall n | n in m :: SkillDid(m, pass, listing, dryRun, n))
    && (forall a | a in pass.actions :: a.skill in m && m[a.skill].Curatable() && Listed(listing, a.skill))
  }

  lemma ListedHead(listing: seq<Skill>, n: string)
    requires listing != []
    ensures Listed(listing, n) <==> n == listing[0].name || Listed(listing[1..], n)
  {
    var rest := listing[1..];
    if Listed(rest, n) {
      var i :| 0 <= i < |rest| && rest[i].name == n;
      assert listing[i + 1].name == n;
    }
    if Listed(listing, n) && n != listing[0].name {
      var i :| 0 <= i < |listing| && listing[i].name == n;
      assert rest[i - 1].name == n;
    }
  }

  ghost predicate HandlesEach(each: (Records, Skill) -> OneDone, dryRun: bool, blocked: Skill -> bool) {
    forall m: Records, sk: Skill | Fits(m, sk) :: OneDid(m, each(m, sk), sk, dryRun, blocked(sk))
  }

  predicate AnyBlocked(blocked: Skill -> bool, listing: seq<Skill>)
    decreases |listing|
  {
    listing != [] && (blocked(listing[0]) || AnyBlocked(blocked, listing[1..]))
  }

  lemma StillCurrent(m: Records, one: OneDone, listing: seq<Skill>, dryRun: bool, blocked: bool)
    requires listing != [] && Current(m, listing) && OneDid(m, one, listing[0], dryRun, blocked)
    ensures Current(one.records, listing[1..])
  {
    var rest := listing[1..];
    assert forall i | 0 <= i < |rest| :: rest[i] == listing[i + 1] && rest[i].name != listing[0].name;
  }

  /** A pass ends early exactly when some listed skill is blocked. */
  lemma {:induction false} PassDoes(each: (Records, Skill) -> OneDone, m: Records, listing: seq<Skill>, dryRun: bool,
                                    blocked: Skill -> bool)
    requires HandlesEach(each, dryRun, blocked) && Current(m, listing)
    ensures PassDid(m, PassOver(each, m, listing), listing, dryRun)
    ensures PassOver(each, m, listing).error.Some? <==> AnyBlocked(blocked, listing)
    decreases |listing|
  {
    if listing != [] {
      var sk, rest := listing[0], listing[1..];
      var one := each(m, sk);
      assert Fits(m, sk);
      assert OneDid(m, one, sk, dryRun, blocked(sk));
      assert [sk] + rest == listing;
      if one.error.Some? {
        StopPass(m, one, sk, rest, dryRun);
      } else {
        StillCurrent(m, one, listing, dryRun, blocked(sk));
        PassDoes(each, one.records, rest, dryRun, blocked);
        ExtendPass(m, one, sk, rest, PassOver(each, one.records, rest), dryRun);
      }
    }
  }

  lemma StopPass(m: Records, one: OneDone, sk: Skill, rest: seq<Skill>, dryRun: bool)
    requires one.error.Some? && OneDid(m, one, sk, dryRun, true)
    ensures PassDid(m, Pass(one.records, one.action, one.error), [sk] + rest, dryRun)
  {
    var listing, whole := [sk] + rest, Pass(one.records, one.action, one.error);
    assert listing[0] == sk;
    forall n | n in m
      ensures SkillDid(m, whole, listing, dryRun, n)
    {
      VerdictLater(one, Pass(m, [], None), n);
      assert one.action + [] == one.action;
    }
  }

  lemma ExtendPass(m: Records, one: OneDone, sk: Skill, rest: seq<Skill>, pass: Pass, dryRun: bool)
    requires Current(m, [sk] + rest) && one.error.None? && OneDid(m, one, sk, dryRun, false)
    requires PassDid(one.records, pass, rest, dryRun)
    ensures PassDid(m, Pass(pass.records, one.action + pass.actions, pass.error), [sk] + rest, dryRun)
  {
    var listing, actions := [sk] + rest, one.action + pass.actions;
    var whole := Pass(pass.records, actions, pass.error);
    assert listing[0] == sk && listing[1..] == rest;
    assert !Listed(rest, sk.name) by {
      assert forall i | 0 <= i < |rest| :: rest[i] == listing[1..][i];
    }
    StuckLater(one, pass);
    forall n | n in m
      ensures SkillDid(m, whole, listing, dryRun, n)
    {
      assert SkillDid(one.records, pass, rest, dryRun, n);
      ListedHead(listing, n);
      VerdictLater(one, pass, n);
      if Stuck(pass) == Some(n) {
        assert pass.actions[|pass.actions| - 1] in pass.actions;
      }
    }
    forall a | a in actions
      ensures a.skill in m && m[a.skill].Curatable() && Listed(listing, a.skill)
    {
      ListedHead(listing, a.skill);
      assert a in one.action || a in pass.actions;
    }
  }

  lemma StuckLater(one: OneDone, pass: Pass)
    requires one.error.None? && (pass.error.Some? ==> pass.actions != [])
    ensures Stuck(Pass(pass.records, one.action + pass.actions, pass.error)) == Stuck(pass)
  {
  }

  lemma VerdictLater(one: OneDone, pass: Pass, n: string)
    requires |one.action| <= 1
    ensures VerdictOf(one.action + pass.actions, n)
         == if one.action != [] && one.action[0].skill == n then one.action[0].verdict else VerdictOf(pass.actions, n)
  {
    var actions := one.action + pass.actions;
    if one.action == [] {
      assert actions == pass.actions;
    } else {
      assert actions[0] == one.action[0] && actions[1..] == pass.actions;
    }
  }

  lemma {:induction false} NotMentioned(actions: seq<Action>, name: string)
    requires forall a | a in actions :: a.skill != name
    ensures VerdictOf(actions, name) == Kept
    decreases |actions|
  {
    if actions != [] {
      NotMentioned(actions[1..], name);
    }
  }

  lemma EntriesCurrent(m: Records, names: seq<string>)
    requires forall n | n in names :: n in m && ValidName(n)
    requires forall i, j | 0 <= i < j < |names| :: names[i] != names[j]
    ensures Current(m, Entries(m, names))
  {
    forall i | 0 <= i < |names|
      ensures Fits(m, Entries(m, names)[i])
    {
      assert names[i] in names;
    }
  }

  lemma EntriesList(m: Records, names: seq<string>, n: string)
    requires n in names && forall k | k in names :: k in m
    ensures Listed(Entries(m, names), n)
  {
    var i :| 0 <= i < |names| && names[i] == n;
    assert Entries(m, names)[i].name == n;
  }

  /** A fresh listing holds every skill with a usable name as it stands. */
  lemma ListingCurrent(m: Records)
    ensures Current(m, Listing(m))
    ensures forall n | n in Usable(m) :: Listed(Listing(m), n)
  {
    var names := Sorted(Usable(m));
    SortedAscending(Usable(m));
    EntriesCurrent(m, names);
    forall n | n in Usable(m)
      ensures Listed(Listing(m), n)
    {
      EntriesList(m, names, n);
    }
  }

  /** The report and the state difference, for one skill. */
  ghost predicate Reported(was: Skill, now: Skill, v: Verdict) {
    && (v == WasDemoted <==> was.state == Active && now.state == Quarantine)
    && (v == WasArchived <==> was.state != Archived && now.state == Archived)
    && (now != was ==> Rank(now.state) < Rank(was.state))
  }

  ghost predicate PassReported(m: Records, pass: Pass, dryRun: bool) {
    && pass.records.Keys == m.Keys
    && (dryRun ==> pass.records == m)
    && (forall n | n in m :: pass.records[n].Curatable() == m[n].Curatable())
    && (forall n | n in m && (m[n].pinned || m[n].createdBy != ByAgent) :: pass.records[n] == m[n])
    // Without an error the retiring entries are exactly the state difference.
    && (!dryRun ==> forall n | n in m && Stuck(pass) != Some(n) ::
          Reported(m[n], pass.records[n], VerdictOf(pass.actions, n)))
    // With one, exactly the last entry reports a change that was not made.
    && (pass.error.Some? <==> Stuck(pass).Some?)
    && (forall n | n in m && Stuck(pass) == Some(n) ::
          pass.records[n] == m[n] && Retires(VerdictOf(pass.actions, n)))
  }

  lemma PassReports(m: Records, pass: Pass, listing: seq<Skill>, dryRun: bool, n: string)
    requires PassDid(m, pass, listing, dryRun) && n in m
    ensures !m[n].Curatable() || dryRun ==> pass.records[n] == m[n]
    ensures Stuck(pass) != Some(n) && !dryRun ==> Reported(m[n], pass.records[n], VerdictOf(pass.actions, n))
    ensures pass.records[n].createdBy == m[n].createdBy && pass.records[n].pinned == m[n].pinned
  {
    assert SkillDid(m, pass, listing, dryRun, n);
    if !m[n].Curatable() || !Listed(listing, n) {
      NotMentioned(pass.actions, n);
    }
    if Stuck(pass) == Some(n) {
      assert pass.actions[|pass.actions| - 1] in pass.actions;
    }
  }

  lemma PassOverReports(each: (Records, Skill) -> OneDone, m: Records, listing: seq<Skill>, dryRun: bool,
                        blocked: Skill -> bool)
    requires HandlesEach(each, dryRun, blocked) && Current(m, listing)
    ensures PassReported(m, PassOver(each, m, listing), dryRun)
  {
    var pass := PassOver(each, m, listing);
    PassDoes(each, m, listing, dryRun, blocked);
    forall n | n in m
      ensures !m[n].Curatable() || dryRun ==> pass.records[n] == m[n]
      ensures Stuck(pass) != Some(n) && !dryRun ==> Reported(m[n], pass.records[n], VerdictOf(pass.actions, n))
      ensures pass.records[n].Curatable() == m[n].Curatable()
    {
      PassReports(m, pass, listing, dryRun, n);
    }
    assert forall n | n in m && Stuck(pass) == Some(n) :: SkillDid(m, pass, listing, dryRun, n);
  }

  ghost function BlockedBy(evals: map<string, Evals>, s: Setup): Skill -> bool {
    (sk: Skill) => Blocked(evals, s, sk)
  }

  lemma EachHandles(evals: map<string, Evals>, s: Setup)
    ensures HandlesEach(Each(evals, s), s.dryRun, BlockedBy(evals, s))
  {
    forall m: Records, sk: Skill | Fits(m, sk)
      ensures OneDid(m, Each(evals, s)(m, sk), sk, s.dryRun, BlockedBy(evals, s)(sk))
    {
      CuratedOneDid(m, evals, s, sk);
    }
  }

  /** One whole run over whatever the store holds: pinned and user-written skills
      are untouched, a dry run writes nothing, and the demoted and archived entries
      of the report are exactly the state difference, but for the last entry of a
      run that failed. */
  lemma RunDoesWhatItReports(m: Records, evals: map<string, Evals>, s: Setup)
    ensures PassReported(m, Curated(m, evals, s), s.dryRun)
  {
    EachHandles(evals, s);
    ListingCurrent(m);
    PassOverReports(Each(evals, s), m, Listing(m), s.dryRun, BlockedBy(evals, s));
  }

  /** A run fails exactly when a skill it would retire has a blank description or a
      blank body, which only a file edited by hand can have. */
  lemma RunFailsExactly(m: Records, evals: map<string, Evals>, s: Setup)
    ensures Curated(m, evals, s).error.Some? <==> exists n | n in m && ValidName(n) :: Blocked(evals, s, Entry(m, n))
  {
    EachHandles(evals, s);
    ListingCurrent(m);
    PassDoes(Each(evals, s), m, Listing(m), s.dryRun, BlockedBy(evals, s));
    AnyBlockedMeans(BlockedBy(evals, s), Listing(m));
    var names := Sorted(Usable(m));
    if n :| n in m && ValidName(n) && Blocked(evals, s, Entry(m, n)) {
      assert n in names;
      var i :| 0 <= i < |names| && names[i] == n;
      assert Listing(m)[i] == Entry(m, n);
      assert BlockedBy(evals, s)(Listing(m)[i]);
    }
    if AnyBlocked(BlockedBy(evals, s), Listing(m)) {
      var i :| 0 <= i < |Listing(m)| && BlockedBy(evals, s)(Listing(m)[i]);
      assert names[i] in names;
      assert Listing(m)[i] == Entry(m, names[i]);
    }
  }

  lemma {:induction false} AnyBlockedMeans(blocked: Skill -> bool, listing: seq<Skill>)
    ensures AnyBlocked(blocked, listing) <==> exists i | 0 <= i < |listing| :: blocked(listing[i])
    decreases |listing|
  {
    if listing != [] {
      AnyBlockedMeans(blocked, listing[1..]);
      if i :| 0 <= i < |listing[1..]| && blocked(listing[1..][i]) {
        assert blocked(listing[i + 1]);
      }
      if i :| 0 < i < |listing| && blocked(listing[i]) {
        assert blocked(listing[1..][i - 1]);
      }
    }
  }

  // ---------------------------------------------------------------- when a skill is retired

  /** What a run does to a listed skill is what curating it alone does. */
  lemma {:induction false} EachIsAlone(m: Records, evals: map<string, Evals>, s: Setup, listing: seq<Skill>, i: nat)
    requires Current(m, listing) && i < |listing| && PassOver(Each(evals, s), m, listing).error.None?
    ensures var sk := listing[i];
            && CuratedOne(m, evals, s, sk).error.None?
            && sk.name in m && sk.name in CuratedOne(m, evals, s, sk).records
            && sk.name in PassOver(Each(evals, s), m, listing).records
            && PassOver(Each(evals, s), m, listing).records[sk.name] == CuratedOne(m, evals, s, sk).records[sk.name]
    decreases |listing|
  {
    var head, rest := listing[0], listing[1..];
    var one := CuratedOne(m, evals, s, head);
    CuratedOneDid(m, evals, s, head);
    RestCurrent(m, one.records, listing);
    EachHandles(evals, s);
    if i == 0 {
      PassDoes(Each(evals, s), one.records, rest, s.dryRun, BlockedBy(evals, s));
      var pass := PassOver(Each(evals, s), one.records, rest);
      assert !Listed(rest, head.name);
      assert SkillDid(one.records, pass, rest, s.dryRun, head.name);
    } else {
      EachIsAlone(one.records, evals, s, rest, i - 1);
      CuratedLocally(m, one.records, evals, s, listing[i]);
    }
  }

  lemma {:induction false} RestCurrent(m: Records, m': Records, listing: seq<Skill>)
    requires listing != [] && Current(m, listing)
    requires m'.Keys == m.Keys && forall n | n in m && n != listing[0].name :: m'[n] == m[n]
    ensures Current(m', listing[1..])
  {
    forall i | 0 <= i < |listing[1..]|
      ensures Fits(m', listing[1..][i])
    {
      assert Fits(m, listing[i + 1]) && listing[0].name != listing[i + 1].name;
    }
  }

  lemma {:induction false} CuratedLocally(m: Records, m': Records, evals: map<string, Evals>, s: Setup, sk: Skill)
    requires Fits(m, sk) && Fits(m', sk) && m[sk.name] == m'[sk.name]
    ensures CuratedOne(m', evals, s, sk).error == CuratedOne(m, evals, s, sk).error
    ensures sk.name in CuratedOne(m, evals, s, sk).records && sk.name in CuratedOne(m', evals, s, sk).records
    ensures CuratedOne(m', evals, s, sk).records[sk.name] == CuratedOne(m, evals, s, sk).records[sk.name]
  {
    DecideIsLocal(m, evals, s, sk);
    DecideIsLocal(m', evals, s, sk);
  }

  lemma {:induction false} RunIsAlone(m: Records, evals: map<string, Evals>, s: Setup, n: string)
    requires n in m && ValidName(n) && Curated(m, evals, s).error.None?
    ensures var one := CuratedOne(m, evals, s, Entry(m, n));
            && one.error.None? && n in one.records && n in Curated(m, evals, s).records
            && Curated(m, evals, s).records[n] == one.records[n]
  {
    ListingCurrent(m);
    assert n in Usable(m);
    var i :| 0 <= i < |Listing(m)| && Listing(m)[i].name == n;
    assert Fits(m, Listing(m)[i]);
    EachIsAlone(m, evals, s, Listing(m), i);
  }

  /** A run in earnest that ends without an error archives an active skill of the agent's,
      last used or else created at a known time, exactly when that was at least as long ago
      as the policy's period, 90 days unless it says otherwise, provided the period is
      positive. One it does not archive it takes back to quarantine exactly when it is to be
      checked, can be, and does not have enough scenarios that all meet their expectations. */
  lemma {:induction false} ActiveRetiredExactly(m: Records, evals: map<string, Evals>, s: Setup, n: string)
    requires n in m && ValidName(n) && m[n].createdBy == ByAgent && !m[n].pinned && m[n].state == Active
    requires !s.dryRun && Curated(m, evals, s).error.None?
    ensures var period := if s.policy.retireUnusedAfter == 0 then 90 * 24 * 3600 else s.policy.retireUnusedAfter;
            var since := if m[n].lastUsedAt.Some? then m[n].lastUsedAt else m[n].createdAt;
            var unused := period > 0 && since.Some? && s.now - since.value >= period;
            var min := if s.minScenarios <= 0 then 1 else s.minScenarios;
            var fails := && !s.policy.skipReverify && s.gate.Some?
                         && !(|EvalsOf(evals, n)| >= min && forall f | f in EvalsOf(evals, n) ::
                                ScenarioMet(s.gate.value, m[n].(name := n), EvalsOf(evals, n)[f]));
            && n in Curated(m, evals, s).records
            && Curated(m, evals, s).records[n].state
               == if unused then Archived else if fails then Quarantine else Active
  {
    RunIsAlone(m, evals, s, n);
    ActiveVerdict(m, evals, s, n);
    AppliedEndsIn(m, s, n, Decide(m, evals, s, Entry(m, n)));
  }

  lemma {:induction false} ActiveVerdict(m: Records, evals: map<string, Evals>, s: Setup, n: string)
    requires n in m && ValidName(n) && m[n].state == Active
    ensures var period := if s.policy.retireUnusedAfter == 0 then 90 * 24 * 3600 else s.policy.retireUnusedAfter;
            var since := if m[n].lastUsedAt.Some? then m[n].lastUsedAt else m[n].createdAt;
            var unused := period > 0 && since.Some? && s.now - since.value >= period;
            var min := if s.minScenarios <= 0 then 1 else s.minScenarios;
            var fails := && !s.policy.skipReverify && s.gate.Some?
                         && !(|EvalsOf(evals, n)| >= min && forall f | f in EvalsOf(evals, n) ::
                                ScenarioMet(s.gate.value, m[n].(name := n), EvalsOf(evals, n)[f]));
            Decide(m, evals, s, Entry(m, n)) == if unused then WasArchived else if fails then WasDemoted else Kept
  {
    if s.gate.Some? {
      ReportPassesExactly(m, evals, s.gate.value, s.minScenarios, s.reportID, n);
    }
  }

  /** The state a verdict leaves an unpinned skill in service in. */
  lemma {:induction false} AppliedEndsIn(m: Records, s: Setup, n: string, v: Verdict)
    requires n in m && m[n].state == Active && !m[n].pinned && Applied(m, s, n, v).error.None?
    ensures n in Applied(m, s, n, v).records
    ensures Applied(m, s, n, v).records[n].state
            == match v case WasArchived => Archived case WasDemoted => Quarantine case _ => Active
  {
  }

  ghost predicate ScenarioMet(run: Runner, sk: Skill, file: ScenarioFile) {
    run(sk, file).Some? && Meets(file.scenario.expected, run(sk, file).value)
  }

  /** And it archives a skill in quarantine exactly when its creation is unknown, or at
      least as long ago as the policy's expiry, 30 days unless it says otherwise, provided
      the expiry is not negative. */
  lemma {:induction false} QuarantineExpiresExactly(m: Records, evals: map<string, Evals>, s: Setup, n: string)
    requires n in m && ValidName(n) && m[n].createdBy == ByAgent && !m[n].pinned && m[n].state == Quarantine
    requires !s.dryRun && Curated(m, evals, s).error.None?
    ensures var expiry := if s.policy.quarantineExpiry == 0 then 30 * 24 * 3600 else s.policy.quarantineExpiry;
            var over := expiry >= 0 && (m[n].createdAt.Some? ==> s.now - m[n].createdAt.value >= expiry);
            && n in Curated(m, evals, s).records
            && Curated(m, evals, s).records[n].state == if over then Archived else Quarantine
  {
    RunIsAlone(m, evals, s, n);
  }

  // ---------------------------------------------------------------- a stale listing

  /** When a verdict, reached earlier, still changes the record it is applied to:
      archiving respects a pin, demoting does not look at it. */
  ghost predicate Takes(v: Verdict, now: Skill) {
    || (v == WasArchived && !now.pinned && now.state != Archived && Validate(now.(state := Archived)).None?)
    || (v == WasDemoted && now.state == Active && Validate(now.(state := Quarantine)).None?)
  }

  lemma AppliedChangesExactly(m: Records, s: Setup, name: string, v: Verdict)
    requires name in m
    ensures var done := Applied(m, s, name, v);
            && name in done.records
            && (done.records[name] != m[name] <==> Takes(v, m[name].(name := name)))
            && (v == WasDemoted && Takes(v, m[name].(name := name)) ==>
                  done.error.None? && done.records[name].state == Quarantine
                  && done.records[name].pinned == m[name].pinned)
  {
  }

  /** However stale the listing, curating one listed skill changes its record exactly
      when the skill was curatable as listed and the verdict takes on the record as
      it is now. */
  lemma ChangesExactly(m: Records, evals: map<string, Evals>, s: Setup, sk: Skill)
    requires sk.name in m
    ensures CuratedOne(m, evals, s, sk).records[sk.name] != m[sk.name]
            <==> sk.Curatable() && !s.dryRun && Takes(Decide(m, evals, s, sk), m[sk.name].(name := sk.name))
  {
    AppliedChangesExactly(m, s, sk.name, Decide(m, evals, s, sk));
  }

  /** So a pinned record changes exactly when it is demoted. */
  lemma PinnedChangesExactly(m: Records, evals: map<string, Evals>, s: Setup, sk: Skill)
    requires sk.name in m && m[sk.name].pinned
    ensures CuratedOne(m, evals, s, sk).records[sk.name] != m[sk.name]
            <==> && sk.Curatable() && !s.dryRun && Decide(m, evals, s, sk) == WasDemoted
                 && m[sk.name].state == Active
                 && Validate(m[sk.name].(name := sk.name, state := Quarantine)).None?
  {
    ChangesExactly(m, evals, s, sk);
  }

  /** And it can be: a skill in service that no longer passes, pinned after it was
      listed, is taken out of service without an error, pin and all. */
  lemma PinnedMeanwhileIsDemoted(m: Records, evals: map<string, Evals>, s: Setup, sk: Skill)
    requires Fits(m, sk.(pinned := true)) && sk.Curatable() && sk.state == Active && Validate(sk).None?
    requires !s.dryRun && Decide(m, evals, s, sk) == WasDemoted
    ensures var one := CuratedOne(m, evals, s, sk);
            && one.error.None? && one.records[sk.name].pinned && one.records[sk.name].state == Quarantine
  {
    AppliedChangesExactly(m, s, sk.name, WasDemoted);
  }

  // ---------------------------------------------------------------- many runs

  /** A series of runs, each with its own policy, clock, gate and scenarios. */
  datatype Occasion = Occasion(evals: map<string, Evals>, setup: Setup)

  ghost function AfterRuns(m: Records, runs: seq<Occasion>): Records
    decreases |runs|
  {
    if runs == [] then m
    else AfterRuns(Curated(m, runs[0].evals, runs[0].setup).records, runs[1..])
  }

  /** How often the runs changed one skill's state. */
  ghost function Changes(m: Records, runs: seq<Occasion>, name: string): nat
    decreases |runs|
  {
    if runs == [] then 0
    else
      var next := Curated(m, runs[0].evals, runs[0].setup).records;
      (if name in m && name in next && next[name].state != m[name].state then 1 else 0)
      + Changes(next, runs[1..], name)
  }

  /** However many curator runs follow one another, a skill changes state at most
      twice, only downwards, and a pinned or user-written one never changes at all. */
  lemma {:induction false} AtMostTwoChanges(m: Records, runs: seq<Occasion>, name: string)
    requires name in m
    ensures var final := AfterRuns(m, runs);
            && name in final
            && Changes(m, runs, name) + Rank(final[name].state) <= Rank(m[name].state) <= 2
            && (!m[name].Curatable() ==> final[name] == m[name])
    decreases |runs|
  {
    if runs != [] {
      RunDoesWhatItReports(m, runs[0].evals, runs[0].setup);
      var next := Curated(m, runs[0].evals, runs[0].setup).records;
      AtMostTwoChanges(next, runs[1..], name);
    }
  }
}
