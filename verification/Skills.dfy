/** Skills, their lifecycle transitions, and the gate that lets one into service.

    Models internal/skill/skill.go, store.go and eval.go. */
module Skills {
  import opened Prelude
  import opened Order

  /** Files are hand-editable, so a state or an author may be anything. */
  datatype State = Quarantine | Active | Archived | UnknownState(text: string)

  datatype Author = ByAgent | ByUser | UnknownAuthor(text: string)

  /** Times are instants or the zero time. */
  datatype Skill = Skill(name: string, description: string, state: State, createdBy: Author,
                         createdAt: Option<int>, updatedAt: Option<int>, useCount: int,
                         lastUsedAt: Option<int>, pinned: bool, promotedBy: string, reason: string,
                         body: string)
  {
    predicate Curatable() {
      createdBy == ByAgent && !pinned
    }
  }

  type Records = map<string, Skill>

  // ---------------------------------------------------------------- names and text

  predicate NameChar(ch: char) {
    'a' <= ch <= 'z' || '0' <= ch <= '9'
  }

  /** The rest of a name made of words joined by single hyphens; `inWord` says
      whether a word character came just before. */
  predicate Words(s: string, inWord: bool) {
    if s == "" then inWord
    else if NameChar(s[0]) then Words(s[1..], true)
    else s[0] == '-' && inWord && Words(s[1..], false)
  }

  predicate ValidName(name: string) {
    |name| <= 64 && Words(name, false)
  }

  lemma {:induction false} WordsExactly(s: string, inWord: bool)
    ensures Words(s, inWord) <==> WordsAndHyphens(if inWord then "x" + s else "-" + s)
    decreases |s|
  {
    if s == "" {
      assert ("x" + s)[0] == 'x' && ("-" + s)[0] == '-';
    } else {
      var first, rest := s[0], s[1..];
      var before: char := if inWord then 'x' else '-';
      var t := [before] + s;
      WordsExactly(rest, NameChar(first));
      assert t[1..] == s && s == [first] + rest;
      JoinedMore(before, s);
      if NameChar(first) {
        SameJoined(first, 'x', rest);
      } else if first == '-' {
        assert s == "-" + rest;
      }
    }
  }

  /** Words of small letters and digits, joined by single hyphens, once started. */
  predicate WordsAndHyphens(s: string) {
    && s != "" && s[|s| - 1] != '-'
    && (forall i | 0 <= i < |s| :: s[i] == '-' || 'a' <= s[i] <= 'z' || '0' <= s[i] <= '9')
    && forall i | 0 < i < |s| :: s[i - 1] != '-' || s[i] != '-'
  }

  lemma {:induction false} JoinedMore(before: char, s: string)
    requires s != "" && (before == 'x' || before == '-')
    ensures WordsAndHyphens([before] + s) <==> WordsAndHyphens(s) && !(before == '-' && s[0] == '-')
  {
    var t := [before] + s;
    if WordsAndHyphens(t) {
      JoinedLess(before, s);
    }
    if WordsAndHyphens(s) && !(before == '-' && s[0] == '-') {
      forall i | 0 < i < |t|
        ensures t[i - 1] != '-' || t[i] != '-'
      {
        assert t[i] == s[i - 1] && (i > 1 ==> t[i - 1] == s[i - 2]);
      }
      forall i | 0 <= i < |t|
        ensures t[i] == '-' || 'a' <= t[i] <= 'z' || '0' <= t[i] <= '9'
      {
        assert i > 0 ==> t[i] == s[i - 1];
      }
      assert t[|t| - 1] == s[|s| - 1];
    }
  }

  lemma {:induction false} JoinedLess(before: char, s: string)
    requires s != "" && WordsAndHyphens([before] + s)
    ensures WordsAndHyphens(s) && !(before == '-' && s[0] == '-')
  {
    var t := [before] + s;
    assert t[0] == before && t[1] == s[0] && t[|t| - 1] == s[|s| - 1];
    forall i | 0 <= i < |s|
      ensures s[i] == '-' || 'a' <= s[i] <= 'z' || '0' <= s[i] <= '9'
      ensures i > 0 ==> s[i - 1] != '-' || s[i] != '-'
    {
      assert t[i + 1] == s[i] && (i > 0 ==> t[i] == s[i - 1]);
    }
  }

  lemma {:induction false} SameJoined(a: char, b: char, s: string)
    requires NameChar(a) && NameChar(b)
    ensures WordsAndHyphens([a] + s) <==> WordsAndHyphens([b] + s)
  {
    var x, y := [a] + s, [b] + s;
    assert forall i | 0 < i < |x| :: x[i] == y[i];
  }

  /** A name is 1 to 64 characters of words of small letters and digits, joined by single
      hyphens. */
  lemma {:induction false} ValidNameExactly(name: string)
    ensures ValidName(name)
       <==> && 1 <= |name| <= 64 && name[0] != '-' && name[|name| - 1] != '-'
            && (forall i | 0 <= i < |name| :: name[i] == '-' || 'a' <= name[i] <= 'z' || '0' <= name[i] <= '9')
            && forall i | 0 < i < |name| :: name[i - 1] != '-' || name[i] != '-'
  {
    WordsExactly(name, false);
    if name != "" {
      JoinedMore('-', name);
      assert "-" + name == ['-'] + name;
    }
  }

  predicate IsSpace(ch: char) {
    ch == ' ' || '\t' <= ch <= '\r'
  }

  function TrimLeft(s: string): (t: string)
    ensures |t| <= |s|
  {
    if s != "" && IsSpace(s[0]) then TrimLeft(s[1..]) else s
  }

  function TrimRight(s: string): (t: string)
    ensures |t| <= |s|
    ensures s != "" && !IsSpace(s[0]) ==> t != "" && t[0] == s[0]
  {
    if s != "" && IsSpace(s[|s| - 1]) then TrimRight(s[..|s| - 1]) else s
  }

  function Trim(s: string): string {
    TrimRight(TrimLeft(s))
  }

  /** What Go's TrimSpace takes off the ends, as far as ASCII goes. */
  predicate BlankChar(ch: char) {
    ch == ' ' || ch == '\t' || ch == '\n' || ch == '\U{0b}' || ch == '\U{0c}' || ch == '\r'
  }

  predicate Blank(s: string) {
    forall i | 0 <= i < |s| :: BlankChar(s[i])
  }

  lemma {:induction false} TrimLeftExactly(s: string)
    ensures TrimLeft(s) == s[|s| - |TrimLeft(s)|..] && Blank(s[..|s| - |TrimLeft(s)|])
    ensures TrimLeft(s) != "" ==> !BlankChar(TrimLeft(s)[0])
    decreases |s|
  {
    if s != "" && IsSpace(s[0]) {
      TrimLeftExactly(s[1..]);
      var k := |s| - |TrimLeft(s)|;
      assert s[1..][|s[1..]| - |TrimLeft(s)|..] == s[k..];
      assert s[..k] == [s[0]] + s[1..][..k - 1];
    }
  }

  lemma {:induction false} TrimRightExactly(s: string)
    ensures TrimRight(s) == s[..|TrimRight(s)|] && Blank(s[|TrimRight(s)|..])
    ensures TrimRight(s) != "" ==> !BlankChar(TrimRight(s)[|TrimRight(s)| - 1])
    decreases |s|
  {
    if s != "" && IsSpace(s[|s| - 1]) {
      var init := s[..|s| - 1];
      TrimRightExactly(init);
      var k := |TrimRight(s)|;
      assert init[..k] == s[..k] && s[k..] == init[k..] + [s[|s| - 1]];
    }
  }

  /** Trimming takes the blanks off both ends, all of them and nothing else. */
  lemma {:induction false} TrimExactly(s: string) returns (before: string, after: string)
    ensures s == before + Trim(s) + after && Blank(before) && Blank(after)
    ensures Trim(s) != "" ==> !BlankChar(Trim(s)[0]) && !BlankChar(Trim(s)[|Trim(s)| - 1])
    ensures Trim(s) == "" <==> Blank(s)
  {
    var left := TrimLeft(s);
    TrimLeftExactly(s);
    TrimRightExactly(left);
    before, after := s[..|s| - |left|], left[|Trim(s)|..];
    assert s == before + left && left == Trim(s) + after;
    if Trim(s) == "" {
      assert s == before + after;
    } else {
      assert s[|before|] == Trim(s)[0] && Trim(s)[0] == left[0];
    }
  }

  /** Trimming again changes nothing. */
  lemma TrimTwice(s: string)
    ensures Trim(Trim(s)) == Trim(s)
  {
    TrimLeftEnds(s);
    TrimRightEnds(TrimLeft(s));
  }

  lemma {:induction false} TrimLeftEnds(s: string)
    ensures TrimLeft(s) == "" || !IsSpace(TrimLeft(s)[0])
  {
    if s != "" && IsSpace(s[0]) {
      TrimLeftEnds(s[1..]);
    }
  }

  lemma {:induction false} TrimRightEnds(s: string)
    ensures TrimRight(s) == "" || !IsSpace(TrimRight(s)[|TrimRight(s)| - 1])
  {
    if s != "" && IsSpace(s[|s| - 1]) {
      TrimRightEnds(s[..|s| - 1]);
    }
  }

  datatype Invalid = BadName | NoDescription | BadState | BadAuthor | NoBody | NoEvidence

  function Validate(sk: Skill): Option<Invalid> {
    if !ValidName(sk.name) then Some(BadName)
    else if Trim(sk.description) == "" then Some(NoDescription)
    else if sk.state.UnknownState? then Some(BadState)
    else if sk.createdBy.UnknownAuthor? then Some(BadAuthor)
    else if Trim(sk.body) == "" then Some(NoBody)
    else if sk.state == Active && sk.createdBy == ByAgent && sk.promotedBy == "" then Some(NoEvidence)
    else None
  }

  /** What a skill must be: under a usable name, described and with instructions that are
      not blank, in a known state, by a known author, and not in service on the agent's word
      alone. What is held against one that is not is the first of these it fails. */
  lemma {:induction false} ValidExactly(sk: Skill)
    ensures Validate(sk).None?
       <==> && ValidName(sk.name) && !Blank(sk.description) && !Blank(sk.body)
            && (sk.state == Quarantine || sk.state == Active || sk.state == Archived)
            && (sk.createdBy == ByUser
                || (sk.createdBy == ByAgent && (sk.state == Active ==> sk.promotedBy != "")))
    ensures Validate(sk) == Some(BadName) <==> !ValidName(sk.name)
    ensures Validate(sk) == Some(NoDescription) <==> ValidName(sk.name) && Blank(sk.description)
    ensures Validate(sk) == Some(BadState) <==> ValidName(sk.name) && !Blank(sk.description) && sk.state.UnknownState?
    ensures Validate(sk) == Some(BadAuthor)
       <==> ValidName(sk.name) && !Blank(sk.description) && !sk.state.UnknownState? && sk.createdBy.UnknownAuthor?
    ensures Validate(sk) == Some(NoEvidence)
       ==> !Blank(sk.body) && sk.state == Active && sk.createdBy == ByAgent && sk.promotedBy == ""
  {
    var a, b := TrimExactly(sk.description);
    a, b := TrimExactly(sk.body);
  }

  /** A skill as it starts: in quarantine, with no evidence. */
  function Fresh(name: string, description: string, body: string, author: Author, now: int): Skill {
    Skill(name, Trim(description), Quarantine, author, Some(now), None, 0, None, false, "", "", body)
  }

  function New(name: string, description: string, body: string, author: Author, now: int): Result<Skill, Invalid> {
    var sk := Fresh(name, description, body, author, now);
    match Validate(sk)
    case Some(why) => Err(why)
    case None => Ok(sk)
  }

  // ---------------------------------------------------------------- reports

  datatype ScenarioResult = ScenarioResult(scenario: string, passed: bool)

  datatype Report = Report(id: string, skill: string, results: seq<ScenarioResult>, minScenarios: int) {
    predicate Passed() {
      && |results| >= minScenarios && |results| > 0
      && forall i | 0 <= i < |results| :: results[i].passed
    }
  }

  /** Nothing passes on no scenarios, whatever was asked for. */
  lemma EmptyReportFails(r: Report)
    requires r.results == []
    ensures !r.Passed()
  {
  }

  // ---------------------------------------------------------------- transitions

  datatype SkillError =
    | InvalidSkill(why: Invalid)
    | NotFound
    | WrongState(state: State)
    | NotPassed
    | WrongReport(skill: string)
    | IsPinned

  /** The store after a call, and what the call returned. */
  datatype Done = Done(records: Records, error: Option<SkillError>)

  function Refuse(m: Records, e: SkillError): Done {
    Done(m, Some(e))
  }

  /** The skill is validated, stamped, and its body trimmed by the file format. */
  function Saved(m: Records, sk: Skill, now: int): Done {
    match Validate(sk)
    case Some(why) => Refuse(m, InvalidSkill(why))
    case None => Done(m[sk.name := sk.(updatedAt := Some(now), body := Trim(sk.body))], None)
  }

  /** A loaded skill carries the name it was asked for, whatever its file says. */
  function Loaded(m: Records, name: string): Result<Skill, SkillError> {
    if !ValidName(name) then Err(InvalidSkill(BadName))
    else if name !in m then Err(NotFound)
    else Ok(m[name].(name := name))
  }

  function Promoted(m: Records, name: string, report: Report, now: int): Done {
    match Loaded(m, name)
    case Err(e) => Refuse(m, e)
    case Ok(sk) =>
      if sk.state == Active then Done(m, None)
      else if sk.state != Quarantine then Refuse(m, WrongState(sk.state))
      else if !report.Passed() then Refuse(m, NotPassed)
      else if report.skill != name then Refuse(m, WrongReport(report.skill))
      else Saved(m, sk.(state := Active, promotedBy := report.id, reason := ""), now)
  }

  function ArchivedOff(m: Records, name: string, reason: string, now: int): Done {
    match Loaded(m, name)
    case Err(e) => Refuse(m, e)
    case Ok(sk) =>
      if sk.pinned then Refuse(m, IsPinned)
      else if sk.state == Archived then Done(m, None)
      else Saved(m, sk.(state := Archived, reason := Trim(reason)), now)
  }

  function Demoted(m: Records, name: string, reason: string, now: int): Done {
    match Loaded(m, name)
    case Err(e) => Refuse(m, e)
    case Ok(sk) =>
      if sk.state != Active then Refuse(m, WrongState(sk.state))
      else Saved(m, sk.(state := Quarantine, promotedBy := "", reason := Trim(reason)), now)
  }

  function Restored(m: Records, name: string, now: int): Done {
    match Loaded(m, name)
    case Err(e) => Refuse(m, e)
    case Ok(sk) =>
      if sk.state != Archived then Refuse(m, WrongState(sk.state))
      else Saved(m, sk.(state := Quarantine, promotedBy := "", reason := ""), now)
  }

  function Pinned(m: Records, name: string, pinned: bool, now: int): Done {
    match Loaded(m, name)
    case Err(e) => Refuse(m, e)
    case Ok(sk) => Saved(m, sk.(pinned := pinned), now)
  }

  function Used(m: Records, name: string, now: int): Done {
    match Loaded(m, name)
    case Err(e) => Refuse(m, e)
    case Ok(sk) => Saved(m, sk.(useCount := sk.useCount + 1, lastUsedAt := Some(now)), now)
  }

  // ---------------------------------------------------------------- scenarios

  datatype Expectations = Expectations(mustCall: seq<string>, mustNotCall: seq<string>,
                                       mustContain: seq<string>, mustNotContain: seq<string>,
                                       maxSteps: int, mustSucceed: bool)

  datatype Scenario = Scenario(name: string, description: string, prompt: string, expected: Expectations)

  /** A scenario file and the recording it replays; None when the recording is gone. */
  datatype ScenarioFile = ScenarioFile(scenario: Scenario, recording: Option<string>)

  type Evals = map<string, ScenarioFile>

  datatype Outcome = Outcome(text: string, toolsCalled: seq<string>, toolsFailed: seq<string>,
                             steps: int, errored: bool)

  predicate Contains(text: string, part: string) {
    exists i | 0 <= i <= |text| :: part <= text[i..]
  }

  lemma {:induction false} ContainsExactly(text: string, part: string)
    ensures Contains(text, part) <==> exists before, after :: text == before + part + after
  {
    if Contains(text, part) {
      var i :| 0 <= i <= |text| && part <= text[i..];
      assert text == text[..i] + part + text[i..][|part|..];
    }
    if before, after :| text == before + part + after {
      assert text[|before|..] == part + after;
    }
  }

  /** What it takes for an outcome to meet a scenario's expectations. */
  predicate Meets(x: Expectations, out: Outcome) {
    && (forall t | t in x.mustCall :: t in out.toolsCalled && t !in out.toolsFailed)
    && (forall t | t in x.mustNotCall :: t !in out.toolsCalled)
    && (forall s | s in x.mustContain :: Contains(out.text, s))
    && (forall s | s in x.mustNotContain :: !Contains(out.text, s))
    && (x.maxSteps > 0 ==> out.steps <= x.maxSteps)
    && (x.mustSucceed ==> !out.errored && out.toolsFailed == [])
  }

  /** Counts the failures of one outcome, as check lists them. */
  method Check(sc: Scenario, out: Outcome) returns (r: ScenarioResult)
    ensures r == ScenarioResult(sc.name, Meets(sc.expected, out))
  {
    var x := sc.expected;
    var failures := 0;
    for i := 0 to |x.mustCall|
      invariant failures >= 0
      invariant failures == 0 <==> forall t | t in x.mustCall[..i] :: t in out.toolsCalled && t !in out.toolsFailed
    {
      if x.mustCall[i] !in out.toolsCalled || x.mustCall[i] in out.toolsFailed {
        failures := failures + 1;
      }
      assert x.mustCall[..i + 1] == x.mustCall[..i] + [x.mustCall[i]];
    }
    assert x.mustCall[..|x.mustCall|] == x.mustCall;
    ghost var called := failures == 0;
    for i := 0 to |x.mustNotCall|
      invariant failures >= 0
      invariant failures == 0 <==> called && forall t | t in x.mustNotCall[..i] :: t !in out.toolsCalled
    {
      if x.mustNotCall[i] in out.toolsCalled {
        failures := failures + 1;
      }
      assert x.mustNotCall[..i + 1] == x.mustNotCall[..i] + [x.mustNotCall[i]];
    }
    assert x.mustNotCall[..|x.mustNotCall|] == x.mustNotCall;
    ghost var avoided := failures == 0;
    for i := 0 to |x.mustContain|
      invariant failures >= 0
      invariant failures == 0 <==> avoided && forall s | s in x.mustContain[..i] :: Contains(out.text, s)
    {
      if !Contains(out.text, x.mustContain[i]) {
        failures := failures + 1;
      }
      assert x.mustContain[..i + 1] == x.mustContain[..i] + [x.mustContain[i]];
    }
    assert x.mustContain[..|x.mustContain|] == x.mustContain;
    ghost var mentioned := failures == 0;
    for i := 0 to |x.mustNotContain|
      invariant failures >= 0
      invariant failures == 0 <==> mentioned && forall s | s in x.mustNotContain[..i] :: !Contains(out.text, s)
    {
      if Contains(out.text, x.mustNotContain[i]) {
        failures := failures + 1;
      }
      assert x.mustNotContain[..i + 1] == x.mustNotContain[..i] + [x.mustNotContain[i]];
    }
    assert x.mustNotContain[..|x.mustNotContain|] == x.mustNotContain;
    if x.maxSteps > 0 && out.steps > x.maxSteps {
      failures := failures + 1;
    }
    if x.mustSucceed {
      if out.errored {
        failures := failures + 1;
      }
      if out.toolsFailed != [] {
        failures := failures + 1;
      }
    }
    r := ScenarioResult(sc.name, failures == 0);
  }

  /** How a scenario runs against a skill; None when it cannot run at all. */
  type Runner = (Skill, ScenarioFile) -> Option<Outcome>

  const DefaultMinScenarios := 1

  function MinScenarios(configured: int): int {
    if configured <= 0 then DefaultMinScenarios else configured
  }

  /** One scenario's verdict. One that cannot run has failed. */
  function Judged(run: Runner, sk: Skill, file: ScenarioFile): ScenarioResult {
    match run(sk, file)
    case None => ScenarioResult(file.scenario.name, false)
    case Some(out) => ScenarioResult(file.scenario.name, Meets(file.scenario.expected, out))
  }

  ghost function Results(run: Runner, sk: Skill, evals: Evals): seq<ScenarioResult> {
    var names := Sorted(evals.Keys);
    seq(|names|, i requires 0 <= i < |names| => assert names[i] in names; Judged(run, sk, evals[names[i]]))
  }

  ghost function Evaluated(m: Records, evals: map<string, Evals>, run: Runner, min: int, id: string, name: string)
    : Result<Report, SkillError>
  {
    match Loaded(m, name)
    case Err(e) => Err(e)
    case Ok(sk) => Ok(Report(id, name, Results(run, sk, EvalsOf(evals, name)), MinScenarios(min)))
  }

  function EvalsOf(evals: map<string, Evals>, name: string): Evals {
    if name in evals then evals[name] else map[]
  }

  /** A report passes exactly when the skill has enough scenarios and every one of
      them ran and met its expectations. */
  lemma ReportPassesExactly(m: Records, evals: map<string, Evals>, run: Runner, min: int, id: string, name: string)
    requires Evaluated(m, evals, run, min, id, name).Ok?
    ensures var files := EvalsOf(evals, name);
            var sk := m[name].(name := name);
            Evaluated(m, evals, run, min, id, name).value.Passed()
            <==> |files| >= (if min > 0 then min else 1)
                 && forall s | s in files ::
                      run(sk, files[s]).Some? && Meets(files[s].scenario.expected, run(sk, files[s]).value)
  {
    var files, sk := EvalsOf(evals, name), m[name].(name := name);
    var names := Sorted(files.Keys);
    var results := Results(run, sk, files);
    assert |results| == |files.Keys| == |files|;
    forall s | s in files
      ensures exists i | 0 <= i < |names| :: names[i] == s && results[i] == Judged(run, sk, files[s])
    {
      assert s in names;
      var i :| 0 <= i < |names| && names[i] == s;
      assert results[i] == Judged(run, sk, files[s]);
    }
    forall i | 0 <= i < |results|
      ensures names[i] in files && results[i] == Judged(run, sk, files[names[i]])
    {
      assert names[i] in names;
    }
  }

  // ---------------------------------------------------------------- the store

  class Store {
    var records: Records
    var evals: map<string, Evals>

    constructor ()
      ensures records == map[] && evals == map[]
    {
      records, evals := map[], map[];
    }

    method Save(sk: Skill, now: int) returns (e: Option<SkillError>)
      modifies this`records
      ensures Done(records, e) == Saved(old(records), sk, now)
    {
      var why := Validate(sk);
      if why.Some? {
        return Some(InvalidSkill(why.value));
      }
      records := records[sk.name := sk.(updatedAt := Some(now), body := Trim(sk.body))];
      return None;
    }

    method Load(name: string) returns (r: Result<Skill, SkillError>)
      ensures r == Loaded(records, name)
    {
      if !ValidName(name) {
        return Err(InvalidSkill(BadName));
      }
      if name !in records {
        return Err(NotFound);
      }
      return Ok(records[name].(name := name));
    }

    method Promote(name: string, report: Report, now: int) returns (e: Option<SkillError>)
      modifies this`records
      ensures Done(records, e) == Promoted(old(records), name, report, now)
    {
      var loaded := Load(name);
      if loaded.Err? {
        return Some(loaded.error);
      }
      var sk := loaded.value;
      if sk.state == Active {
        return None;
      }
      if sk.state != Quarantine {
        return Some(WrongState(sk.state));
      }
      if !report.Passed() {
        return Some(NotPassed);
      }
      if report.skill != name {
        return Some(WrongReport(report.skill));
      }
      sk := sk.(state := Active, promotedBy := report.id, reason := "");
      e := Save(sk, now);
    }

    method Archive(name: string, reason: string, now: int) returns (e: Option<SkillError>)
      modifies this`records
      ensures Done(records, e) == ArchivedOff(old(records), name, reason, now)
    {
      var loaded := Load(name);
      if loaded.Err? {
        return Some(loaded.error);
      }
      var sk := loaded.value;
      if sk.pinned {
        return Some(IsPinned);
      }
      if sk.state == Archived {
        return None;
      }
      e := Save(sk.(state := Archived, reason := Trim(reason)), now);
    }

    method Demote(name: string, reason: string, now: int) returns (e: Option<SkillError>)
      modifies this`records
      ensures Done(records, e) == Demoted(old(records), name, reason, now)
    {
      var loaded := Load(name);
      if loaded.Err? {
        return Some(loaded.error);
      }
      var sk := loaded.value;
      if sk.state != Active {
        return Some(WrongState(sk.state));
      }
      e := Save(sk.(state := Quarantine, promotedBy := "", reason := Trim(reason)), now);
    }

    method Restore(name: string, now: int) returns (e: Option<SkillError>)
      modifies this`records
      ensures Done(records, e) == Restored(old(records), name, now)
    {
      var loaded := Load(name);
      if loaded.Err? {
        return Some(loaded.error);
      }
      var sk := loaded.value;
      if sk.state != Archived {
        return Some(WrongState(sk.state));
      }
      e := Save(sk.(state := Quarantine, promotedBy := "", reason := ""), now);
    }

    method Pin(name: string, pinned: bool, now: int) returns (e: Option<SkillError>)
      modifies this`records
      ensures Done(records, e) == Pinned(old(records), name, pinned, now)
    {
      var loaded := Load(name);
      if loaded.Err? {
        return Some(loaded.error);
      }
      e := Save(loaded.value.(pinned := pinned), now);
    }

    method RecordUse(name: string, now: int) returns (e: Option<SkillError>)
      modifies this`records
      ensures Done(records, e) == Used(old(records), name, now)
    {
      var loaded := Load(name);
      if loaded.Err? {
        return Some(loaded.error);
      }
      var sk := loaded.value;
      e := Save(sk.(useCount := sk.useCount + 1, lastUsedAt := Some(now)), now);
    }
  }

  /** The eval gate over one store. */
  class Gate {
    const store: Store
    const run: Runner
    const minScenarios: int

    constructor (store: Store, run: Runner, minScenarios: int)
      ensures this.store == store && this.run == run && this.minScenarios == minScenarios
    {
      this.store, this.run, this.minScenarios := store, run, minScenarios;
    }

    /** One scenario's verdict, as Judged gives it. */
    method Judge(sk: Skill, file: ScenarioFile) returns (r: ScenarioResult)
      ensures r == Judged(run, sk, file)
    {
      var outcome := run(sk, file);
      if outcome.None? {
        return ScenarioResult(file.scenario.name, false);
      }
      r := Check(file.scenario, outcome.value);
    }

    method JudgeAll(sk: Skill, files: Evals) returns (results: seq<ScenarioResult>)
      ensures results == Results(run, sk, files)
    {
      var names := List(files.Keys);
      results := [];
      for i := 0 to |names|
        invariant |results| == i
        invariant forall k | 0 <= k < i :: names[k] in names && results[k] == Judged(run, sk, files[names[k]])
      {
        assert names[i] in names;
        var result := Judge(sk, files[names[i]]);
        results := results + [result];
      }
    }

    /** One result per scenario; the records stay as they are. */
    method Evaluate(id: string, name: string) returns (r: Result<Report, SkillError>)
      ensures r == Evaluated(store.records, store.evals, run, minScenarios, id, name)
    {
      var loaded := store.Load(name);
      if loaded.Err? {
        return Err(loaded.error);
      }
      var results := JudgeAll(loaded.value, EvalsOf(store.evals, name));
      return Ok(Report(id, name, results, MinScenarios(minScenarios)));
    }

    /** Promotes on a passing report only, and otherwise says why the store is as it was. */
    method Certify(id: string, name: string, now: int) returns (r: Result<Report, SkillError>, e: Option<SkillError>)
      modifies store`records
      ensures r == Evaluated(old(store.records), store.evals, run, minScenarios, id, name)
      ensures match r
              case Err(why) => store.records == old(store.records) && e == Some(why)
              case Ok(report) =>
                if report.Passed() then Done(store.records, e) == Promoted(old(store.records), name, report, now)
                else store.records == old(store.records) && e == Some(NotPassed)
    {
      r := Evaluate(id, name);
      if r.Err? {
        return r, Some(r.error);
      }
      if !r.value.Passed() {
        return r, Some(NotPassed);
      }
      e := store.Promote(name, r.value, now);
    }
  }

  // ---------------------------------------------------------------- drafting

  /** The store after a draft from a background review: an existing name is left alone. */
  function Drafted(m: Records, name: string, description: string, body: string, now: int): Done {
    if Loaded(m, Trim(name)).Ok? then Refuse(m, WrongState(m[Trim(name)].state))
    else
      match New(Trim(name), description, body, ByAgent, now)
      case Err(why) => Refuse(m, InvalidSkill(why))
      case Ok(sk) => Saved(m, sk, now)
  }

  method DraftSkill(store: Store, name: string, description: string, body: string, now: int)
    returns (e: Option<SkillError>)
    modifies store`records
    ensures Done(store.records, e) == Drafted(old(store.records), name, description, body, now)
  {
    var trimmed := Trim(name);
    var existing := store.Load(trimmed);
    if existing.Ok? {
      return Some(WrongState(existing.value.state));
    }
    var sk := New(trimmed, description, body, ByAgent, now);
    if sk.Err? {
      return Some(InvalidSkill(sk.error));
    }
    e := store.Save(sk.value, now);
  }

  /** A draft goes through exactly under a usable name that is free, with a description and
      instructions that are not blank. */
  lemma {:induction false} DraftedExactly(m: Records, name: string, description: string, body: string, now: int)
    ensures Drafted(m, name, description, body, now).error.None?
       <==> ValidName(Trim(name)) && Trim(name) !in m && !Blank(description) && !Blank(body)
  {
    var before, after := TrimExactly(description);
    before, after := TrimExactly(body);
    TrimTwice(description);
  }

  /** A draft never overwrites and never activates: it either changes nothing or
      adds one quarantined skill under a name that was free. */
  lemma DraftsOnlyAdd(m: Records, name: string, description: string, body: string, now: int)
    ensures var done := Drafted(m, name, description, body, now);
            if done.error.Some? then done.records == m
            else
              && Trim(name) !in m
              && done.records.Keys == m.Keys + {Trim(name)}
              && (forall n | n in m :: done.records[n] == m[n])
              && done.records[Trim(name)]
                 == Skill(Trim(name), Trim(description), Quarantine, ByAgent, Some(now), Some(now), 0, None, false,
                          "", "", Trim(body))
  {
  }
}
