/** The host's side of the plugin protocol: serialised calls, a reader that feeds a
    one-place channel, and calls that give up.

    Models call, readLoop and failRead in internal/plugin/client.go as the steps of
    the goroutines involved, in any interleaving, against a plugin that answers each
    request once and in order (sections 4 and 5 of the JSON-RPC 2.0 specification). */
module PluginRpc {
  import opened Prelude

  datatype Answer = Result(json: string) | Failed(code: int, message: string)

  datatype Sent = Sent(id: nat, params: string)

  datatype Reply = Reply(id: nat, answer: Answer)

  /** How a call ended. */
  datatype Ending =
    | Answered(answer: Answer)
    | Mismatched(carried: nat)
    | TimedOut
    | ReadBroke(message: string)
    | PluginGone
    | WriteBroke

  /** `waiting` is the id of the call that holds the lock. `requests` is what the
      plugin has not answered, `replies` what it wrote and the reader has not
      passed on, `slot` the channel between the reader and the call. The last
      three fields remember the past: what the plugin said to each request, how
      each call ended, and how many calls left without taking a reply. */
  datatype State = State(
    nextID: nat,
    waiting: Option<nat>,
    requests: seq<Sent>,
    replies: seq<Reply>,
    slot: Option<Reply>,
    readErr: Option<string>,
    reading: bool,
    running: bool,
    exited: bool,
    said: map<nat, Answer>,
    ended: map<nat, Ending>,
    abandoned: nat)

  const Fresh := State(0, None, [], [], None, None, true, true, false, map[], map[], 0)

  datatype Step =
    | Begin(params: string)
    | WriteFails
    | Receive
    | TimeOut
    | SeeReadError
    | SeeExit
    | PluginReplies(answer: Answer)
    | PluginDies
    | ReaderDelivers
    | ReaderFails(message: string)
    | ReaderEnds
    | Exits

  predicate Enabled(s: State, step: Step) {
    match step
    case Begin(_) => s.waiting.None?
    case WriteFails => s.waiting.None?
    case Receive => s.waiting.Some? && s.slot.Some?
    case TimeOut => s.waiting.Some?
    case SeeReadError => s.waiting.Some? && s.readErr.Some?
    case SeeExit => s.waiting.Some? && s.exited
    case PluginReplies(_) => s.running && s.requests != []
    case PluginDies => s.running
    case ReaderDelivers => s.reading && s.replies != [] && s.slot.None?
    case ReaderFails(_) => s.reading
    case ReaderEnds => s.reading && !s.running && s.replies == []
    case Exits => !s.reading && !s.running && !s.exited
  }

  /** The call that holds the lock returns. */
  function Ends(s: State, e: Ending): State
    requires s.waiting.Some?
  {
    s.(waiting := None, ended := s.ended[s.waiting.value := e])
  }

  /** It returns without having taken a reply. */
  function Abandons(s: State, e: Ending): State
    requires s.waiting.Some?
  {
    Ends(s, e).(abandoned := s.abandoned + 1)
  }

  /** What a call makes of the reply it took. */
  function Judged(r: Reply, id: nat): Ending {
    if r.id != id then Mismatched(r.id) else Answered(r.answer)
  }

  function Taken(s: State, step: Step): State
    requires Enabled(s, step)
  {
    match step
    case Begin(params) =>
      s.(nextID := s.nextID + 1, waiting := Some(s.nextID + 1),
         requests := s.requests + [Sent(s.nextID + 1, params)])
    case WriteFails => s.(nextID := s.nextID + 1, ended := s.ended[s.nextID + 1 := WriteBroke])
    case Receive => Ends(s, Judged(s.slot.value, s.waiting.value)).(slot := None)
    case TimeOut => Abandons(s, TimedOut)
    case SeeReadError => Abandons(s, ReadBroke(s.readErr.value)).(readErr := None)
    case SeeExit => Abandons(s, PluginGone)
    case PluginReplies(answer) =>
      var id := s.requests[0].id;
      s.(requests := s.requests[1..], replies := s.replies + [Reply(id, answer)], said := s.said[id := answer])
    case PluginDies => s.(running := false)
    case ReaderDelivers => s.(slot := Some(s.replies[0]), replies := s.replies[1..])
    // The error channel holds one error, and a reader that failed sends no more.
    case ReaderFails(message) => s.(reading := false, readErr := Some(message))
    case ReaderEnds => s.(reading := false)
    case Exits => s.(exited := true)
  }

  predicate Runs(s: State, run: seq<Step>)
    decreases |run|
  {
    run == [] || (Enabled(s, run[0]) && Runs(Taken(s, run[0]), run[1..]))
  }

  function After(s: State, run: seq<Step>): State
    requires Runs(s, run)
    decreases |run|
  {
    if run == [] then s else After(Taken(s, run[0]), run[1..])
  }

  // ---------------------------------------------------------------- the invariant

  function SlotIDs(slot: Option<Reply>): seq<nat> {
    if slot.Some? then [slot.value.id] else []
  }

  function ReplyIDs(replies: seq<Reply>): seq<nat> {
    seq(|replies|, i requires 0 <= i < |replies| => replies[i].id)
  }

  function SentIDs(requests: seq<Sent>): seq<nat> {
    seq(|requests|, i requires 0 <= i < |requests| => requests[i].id)
  }

  /** The ids of all requests written whose replies no call has taken, in order. */
  function Outstanding(s: State): seq<nat> {
    SlotIDs(s.slot) + ReplyIDs(s.replies) + SentIDs(s.requests)
  }

  predicate Ascending(ids: seq<nat>) {
    forall i, j | 0 <= i < j < |ids| :: ids[i] < ids[j]
  }

  /** The replies still outstanding are one for each abandoned call and one for the
      call that is waiting, oldest first, so the waiting call's own comes last. */
  ghost predicate Lags(s: State) {
    var ids := Outstanding(s);
    && Ascending(ids)
    && (forall id | id in ids :: 1 <= id <= s.nextID)
    && |ids| == s.abandoned + (if s.waiting.Some? then 1 else 0)
    && (s.waiting.Some? ==> s.waiting.value == s.nextID && ids[|ids| - 1] == s.nextID)
  }

  /** What is on its way is what the plugin said, and so is what calls returned. */
  ghost predicate Truthful(s: State) {
    && (s.slot.Some? ==> Said(s, s.slot.value))
    && (forall r | r in s.replies :: Said(s, r))
    && (forall id | id in s.ended && s.ended[id].Answered? :: Said(s, Reply(id, s.ended[id].answer)))
    && (forall id | id in s.ended :: id <= s.nextID)
    && (forall id | id in s.said :: id <= s.nextID)
    && (forall q | q in s.requests :: q.id !in s.said)
    && (s.waiting.Some? ==> s.waiting.value !in s.ended)
  }

  predicate Said(s: State, r: Reply) {
    r.id in s.said && s.said[r.id] == r.answer
  }

  lemma OutstandingOf(s: State)
    ensures forall q | q in s.requests :: q.id in Outstanding(s)
    ensures s.requests != [] ==> Outstanding(s)[|Outstanding(s)| - |s.requests|] == s.requests[0].id
  {
    var n := |SlotIDs(s.slot) + ReplyIDs(s.replies)|;
    forall i | 0 <= i < |s.requests|
      ensures Outstanding(s)[n + i] == s.requests[i].id
    {
    }
  }

  lemma NewestLast(ids: seq<nat>, id: nat)
    requires id > 0 && Ascending(ids) && forall x | x in ids :: 1 <= x < id
    ensures Ascending(ids + [id]) && forall x | x in ids + [id] :: 1 <= x <= id
  {
    forall i, j | 0 <= i < j < |ids + [id]|
      ensures (ids + [id])[i] < (ids + [id])[j]
    {
      assert ids[i] in ids;
    }
  }

  lemma OldestTaken(ids: seq<nat>)
    requires Ascending(ids) && ids != []
    ensures Ascending(ids[1..]) && forall x | x in ids[1..] :: x in ids
    ensures |ids| > 1 ==> ids[0] < ids[|ids| - 1] == ids[1..][|ids| - 2]
  {
  }

  /** Only a new request and a taken reply change what is outstanding. */
  lemma {:induction false} TakenOutstanding(s: State, step: Step)
    requires Enabled(s, step)
    ensures Outstanding(Taken(s, step)) ==
            match step {
              case Begin(_) => Outstanding(s) + [s.nextID + 1]
              case Receive => Outstanding(s)[1..]
              case _ => Outstanding(s)
            }
  {
    var t := Taken(s, step);
    match step
    case Begin(params) =>
      assert SentIDs(t.requests) == SentIDs(s.requests) + [t.nextID];
    case PluginReplies(answer) => RequestMovesOn(s, answer);
    case ReaderDelivers =>
      assert ReplyIDs(s.replies) == [s.replies[0].id] + ReplyIDs(t.replies);
    case _ =>
  }

  lemma {:induction false} RequestMovesOn(s: State, answer: Answer)
    requires Enabled(s, PluginReplies(answer))
    ensures Outstanding(Taken(s, PluginReplies(answer))) == Outstanding(s)
  {
    var t := Taken(s, PluginReplies(answer));
    assert ReplyIDs(t.replies) == ReplyIDs(s.replies) + [s.requests[0].id];
    assert SentIDs(s.requests) == [s.requests[0].id] + SentIDs(t.requests);
  }

  lemma {:induction false} TakenLags(s: State, step: Step)
    requires Enabled(s, step) && Lags(s)
    ensures Lags(Taken(s, step))
  {
    TakenOutstanding(s, step);
    match step
    case Begin(_) => NewestLast(Outstanding(s), s.nextID + 1);
    case Receive => OldestTaken(Outstanding(s));
    case _ =>
  }

  lemma {:induction false} TakenTruthful(s: State, step: Step)
    requires Enabled(s, step) && Lags(s) && Truthful(s)
    ensures Truthful(Taken(s, step))
  {
    var t := Taken(s, step);
    match step
    case PluginReplies(answer) => ReplyIsTruthful(s, answer);
    case ReaderDelivers =>
      assert s.replies[0] in s.replies && forall r | r in t.replies :: r in s.replies;
    case Begin(params) =>
      assert forall q | q in t.requests :: q in s.requests || q.id == t.nextID;
    case _ =>
  }

  lemma {:induction false} ReplyIsTruthful(s: State, answer: Answer)
    requires Enabled(s, PluginReplies(answer)) && Lags(s) && Truthful(s)
    ensures Truthful(Taken(s, PluginReplies(answer)))
  {
    OutstandingOf(s);
    FirstUnanswered(s);
    assert s.requests[0] in s.requests;
    assert forall r | Said(s, r) :: Said(Taken(s, PluginReplies(answer)), r);
  }

  /** The request answered next is older than every other unanswered one. */
  lemma FirstUnanswered(s: State)
    requires Lags(s) && s.requests != []
    ensures forall q | q in s.requests[1..] :: q.id != s.requests[0].id
  {
    var ids := SentIDs(s.requests);
    assert Outstanding(s)[|Outstanding(s)| - |ids|..] == ids;
    forall i | 1 <= i < |s.requests|
      ensures s.requests[i].id != s.requests[0].id
    {
      assert ids[0] < ids[i];
    }
  }

  /** Both hold of every state any interleaving reaches. */
  lemma {:induction false} EveryRunLags(s: State, run: seq<Step>)
    requires Lags(s) && Truthful(s) && Runs(s, run)
    ensures Lags(After(s, run)) && Truthful(After(s, run))
    decreases |run|
  {
    if run != [] {
      TakenLags(s, run[0]);
      TakenTruthful(s, run[0]);
      EveryRunLags(Taken(s, run[0]), run[1..]);
    }
  }

  // ---------------------------------------------------------------- theorems

  /** In every interleaving the reply stream lags the calls by exactly the number
      of abandoned calls, and no call ever returns another call's answer. */
  lemma NoCrossTalk(run: seq<Step>)
    requires Runs(Fresh, run)
    ensures var s := After(Fresh, run);
            && |Outstanding(s)| == s.abandoned + (if s.waiting.Some? then 1 else 0)
            && forall id | id in s.ended && s.ended[id].Answered? ::
                 id in s.said && s.ended[id].answer == s.said[id]
  {
    EveryRunLags(Fresh, run);
    var s := After(Fresh, run);
    forall id | id in s.ended && s.ended[id].Answered?
      ensures id in s.said && s.ended[id].answer == s.said[id]
    {
      assert Said(s, Reply(id, s.ended[id].answer));
    }
  }

  /** A call that takes a reply is answered exactly when no call was abandoned
      before it; otherwise it takes the oldest reply still owed to another. */
  lemma AnsweredExactly(run: seq<Step>)
    requires Runs(Fresh, run) && Enabled(After(Fresh, run), Receive)
    ensures var s := After(Fresh, run);
            var e := Taken(s, Receive).ended[s.waiting.value];
            && (e.Answered? <==> s.abandoned == 0)
            && (s.abandoned > 0 ==> e == Mismatched(Outstanding(s)[0]) && Outstanding(s)[0] < s.waiting.value)
  {
    EveryRunLags(Fresh, run);
    var s := After(Fresh, run);
    var ids := Outstanding(s);
    assert ids[0] == s.slot.value.id;
    if s.abandoned > 0 {
      assert ids[0] < ids[|ids| - 1];
    }
  }

  /** Once one call has given up, no later call is ever answered. */
  lemma {:induction false} OneAbandonedCallSpoilsTheRest(s: State, run: seq<Step>)
    requires Lags(s) && Truthful(s) && s.abandoned > 0 && Runs(s, run)
    ensures NoNewAnswers(s, After(s, run))
    decreases |run|
  {
    if run != [] {
      var t := Taken(s, run[0]);
      TakenLags(s, run[0]);
      TakenTruthful(s, run[0]);
      StepAnswersNothing(s, run[0]);
      OneAbandonedCallSpoilsTheRest(t, run[1..]);
    }
  }

  /** Every call answered by now had been answered before. */
  ghost predicate NoNewAnswers(s: State, t: State) {
    forall id | id in t.ended && t.ended[id].Answered? :: id in s.ended && s.ended[id] == t.ended[id]
  }

  lemma StepAnswersNothing(s: State, step: Step)
    requires Lags(s) && s.abandoned > 0 && Enabled(s, step)
    ensures NoNewAnswers(s, Taken(s, step)) && Taken(s, step).abandoned > 0
  {
    if step == Receive {
      assert Outstanding(s)[0] == s.slot.value.id;
      OldestTaken(Outstanding(s));
    }
  }

  /** The protocol itself never blocks a call: while the plugin and the reader are
      alive, the plugin can answer, the reader can deliver, or the call can take a
      reply. */
  lemma NeverStuck(run: seq<Step>, answer: Answer)
    requires Runs(Fresh, run)
    requires var s := After(Fresh, run); s.waiting.Some? && s.running && s.reading
    ensures var s := After(Fresh, run);
            Enabled(s, Receive) || Enabled(s, ReaderDelivers) || Enabled(s, PluginReplies(answer))
  {
    EveryRunLags(Fresh, run);
    SomethingMoves(After(Fresh, run), answer);
  }

  lemma SomethingMoves(s: State, answer: Answer)
    requires Lags(s) && s.waiting.Some? && s.running && s.reading
    ensures Enabled(s, Receive) || Enabled(s, ReaderDelivers) || Enabled(s, PluginReplies(answer))
  {
  }

  /** And as long as no call was abandoned, the next one is answered with what the plugin
      says to it once the reply is passed on and taken. */
  lemma {:induction false} NextCallAnswered(run: seq<Step>, params: string, answer: Answer)
    requires Runs(Fresh, run)
    requires var s := After(Fresh, run); s.waiting.None? && s.abandoned == 0 && s.running && s.reading
    ensures AnsweredNext(After(Fresh, run), params, answer)
  {
    EveryRunLags(Fresh, run);
    NothingOwed(After(Fresh, run));
    FourSteps(After(Fresh, run), params, answer);
  }

  lemma {:induction false} NothingOwed(s: State)
    requires Lags(s) && s.waiting.None? && s.abandoned == 0
    ensures s.requests == [] && s.replies == [] && s.slot.None?
  {
    assert |SlotIDs(s.slot)| + |s.replies| + |s.requests| == |Outstanding(s)|;
  }

  ghost predicate AnsweredNext(s: State, params: string, answer: Answer) {
    var call := [Begin(params), PluginReplies(answer), ReaderDelivers, Receive];
    && Runs(s, call)
    && Taken(s, call[0]).requests == [Sent(s.nextID + 1, params)]
    && var t := After(s, call);
       && t.nextID == s.nextID + 1 && t.waiting.None? && t.abandoned == s.abandoned
       && t.ended == s.ended[s.nextID + 1 := Answered(answer)]
  }

  lemma {:induction false} FourSteps(s: State, params: string, answer: Answer)
    requires s.waiting.None? && s.requests == [] && s.replies == [] && s.slot.None? && s.running && s.reading
    ensures AnsweredNext(s, params, answer)
  {
    var call := [Begin(params), PluginReplies(answer), ReaderDelivers, Receive];
    var s1 := Taken(s, call[0]);
    var s2 := Taken(s1, call[1]);
    var s3 := Taken(s2, call[2]);
    OneStep(s, call);
    OneStep(s1, call[1..]);
    OneStep(s2, call[2..]);
    OneStep(s3, call[3..]);
    assert call[1..][1..] == call[2..] && call[2..][1..] == call[3..] && call[3..][1..] == [];
  }

  lemma {:induction false} OneStep(s: State, run: seq<Step>)
    requires run != []
    ensures Runs(s, run) <==> Enabled(s, run[0]) && Runs(Taken(s, run[0]), run[1..])
    ensures Runs(s, run) ==> After(s, run) == After(Taken(s, run[0]), run[1..])
  {
  }

  /** How a call that is waiting can end, and what each way of ending says. */
  lemma HowCallsEnd(s: State, step: Step)
    requires s.waiting.Some? && Enabled(s, step)
    ensures var t := Taken(s, step);
            if t.waiting == s.waiting then t.ended == s.ended && t.abandoned == s.abandoned
            else
              && t.waiting.None? && t.ended.Keys == s.ended.Keys + {s.waiting.value}
              && (forall id | id in s.ended && id != s.waiting.value :: t.ended[id] == s.ended[id])
              && match t.ended[s.waiting.value]
                 case Answered(a) => s.slot == Some(Reply(s.waiting.value, a)) && t.abandoned == s.abandoned
                 case Mismatched(other) =>
                   && s.slot.Some? && s.slot.value.id == other != s.waiting.value && t.abandoned == s.abandoned
                 case TimedOut => step == TimeOut && t.abandoned == s.abandoned + 1
                 case ReadBroke(message) => s.readErr == Some(message) && t.abandoned == s.abandoned + 1
                 case PluginGone => s.exited && t.abandoned == s.abandoned + 1
                 case WriteBroke => false
  {
  }

  /** No call is lost: those numbered so far have ended, all but the one that is waiting. */
  lemma {:induction false} EveryCallEndsOrWaits(run: seq<Step>)
    requires Runs(Fresh, run)
    ensures var s := After(Fresh, run);
            forall id :: 1 <= id <= s.nextID <==> id in s.ended || s.waiting == Some(id)
  {
    NoneLost(Fresh, run);
  }

  ghost predicate Accounted(s: State) {
    && (s.waiting.Some? ==> s.waiting.value == s.nextID)
    && forall id :: 1 <= id <= s.nextID <==> id in s.ended || s.waiting == Some(id)
  }

  lemma {:induction false} NoneLost(s: State, run: seq<Step>)
    requires Accounted(s) && Runs(s, run)
    ensures Accounted(After(s, run))
    decreases |run|
  {
    if run != [] {
      StillAccounted(s, run[0]);
      NoneLost(Taken(s, run[0]), run[1..]);
    }
  }

  lemma {:induction false} StillAccounted(s: State, step: Step)
    requires Accounted(s) && Enabled(s, step)
    ensures Accounted(Taken(s, step))
  {
    var t := Taken(s, step);
    forall id
      ensures 1 <= id <= t.nextID <==> id in t.ended || t.waiting == Some(id)
    {
      assert 1 <= id <= s.nextID <==> id in s.ended || s.waiting == Some(id);
    }
  }

  /** The reader stops only when a read broke, which some call has learned of or is still
      to learn of, or when the plugin is gone and all it said was passed on. Only then, and
      with the plugin dead, does it count as exited. */
  lemma {:induction false} ReaderStopsOnlyWhen(run: seq<Step>)
    requires Runs(Fresh, run)
    ensures Stopped(After(Fresh, run))
  {
    EveryRunStopped(Fresh, run);
  }

  ghost predicate Stopped(s: State) {
    && (!s.reading ==>
          || s.readErr.Some? || (exists id | id in s.ended :: s.ended[id].ReadBroke?)
          || (!s.running && s.replies == []))
    && (s.exited ==> !s.reading && !s.running)
  }

  lemma {:induction false} EveryRunStopped(s: State, run: seq<Step>)
    requires Lags(s) && Truthful(s) && Stopped(s) && Runs(s, run)
    ensures Stopped(After(s, run))
    decreases |run|
  {
    if run != [] {
      TakenLags(s, run[0]);
      TakenTruthful(s, run[0]);
      StillStopped(s, run[0]);
      EveryRunStopped(Taken(s, run[0]), run[1..]);
    }
  }

  lemma {:induction false} StillStopped(s: State, step: Step)
    requires Truthful(s) && Stopped(s) && Enabled(s, step)
    ensures Stopped(Taken(s, step))
  {
    var t := Taken(s, step);
    if id :| id in s.ended && s.ended[id].ReadBroke? {
      assert id <= s.nextID && s.waiting != Some(id);
      assert id in t.ended && t.ended[id].ReadBroke?;
    }
    if step == SeeReadError {
      assert t.ended[s.waiting.value].ReadBroke?;
    }
  }

  /** And once it stopped with nothing on its way to a call, no call is answered any more. */
  lemma {:induction false} StoppedReaderAnswersNothing(s: State, run: seq<Step>)
    requires !s.reading && s.slot.None? && Runs(s, run)
    requires Truthful(s) && Lags(s)
    ensures NoNewAnswers(s, After(s, run))
    decreases |run|
  {
    if run != [] {
      TakenLags(s, run[0]);
      TakenTruthful(s, run[0]);
      StoppedReaderAnswersNothing(Taken(s, run[0]), run[1..]);
    }
  }

  /** Whatever keeps a reply away, a waiting call learns of it: a read that breaks says what
      broke, and a plugin that exits is seen to be gone. */
  lemma {:induction false} BrokenReadIsReported(s: State, message: string)
    requires s.waiting.Some? && s.reading
    ensures var run := [ReaderFails(message), SeeReadError];
            Runs(s, run) && After(s, run).ended == s.ended[s.waiting.value := ReadBroke(message)]
  {
    var run := [ReaderFails(message), SeeReadError];
    OneStep(s, run);
    OneStep(Taken(s, run[0]), run[1..]);
    assert run[1..][1..] == [];
  }

  lemma {:induction false} ExitIsReported(s: State)
    requires s.waiting.Some? && s.reading && s.running && s.replies == [] && !s.exited
    ensures var run := [PluginDies, ReaderEnds, Exits, SeeExit];
            Runs(s, run) && After(s, run).ended == s.ended[s.waiting.value := PluginGone]
  {
    var run := [PluginDies, ReaderEnds, Exits, SeeExit];
    var s1 := Taken(s, run[0]);
    var s2 := Taken(s1, run[1]);
    var s3 := Taken(s2, run[2]);
    OneStep(s, run);
    OneStep(s1, run[1..]);
    OneStep(s2, run[2..]);
    OneStep(s3, run[3..]);
    assert run[1..][1..] == run[2..] && run[2..][1..] == run[3..] && run[3..][1..] == [];
  }
}
