# nemuz, modelled and proved in Dafny

nemuz records every agent turn in a journal, from which the turn can be replayed,
audited, indexed and pruned. This project models that core, and the algorithms and
state machines around it, and proves what they promise. Run
`dafny verify dfyconfig.toml` in this directory to check it.

## What is modelled

**Recording and replaying.** `Journal`, `JournalWriter`, `Llm`, `Recording`, `AgentLoop`,
`Requests`, `Replay`, `Nemuz` and `Audit` hold the events and their digest, the append-only
writer and its blob store, the recorder and the player, the turn loop, what its requests
carry, and replay end to end.
The loop exists twice: as a value (`AgentLoop.Run`, a function of the configuration, the
source of answers and the world) and as the program that mutates a journal, a cassette
and a world (`AgentLoop.Agent`). Each method is proved to do what the value says, and
the theorems are about the value. A provider is an arbitrary stream of answers and
refusals; a tool is an arbitrary deterministic transformer of an arbitrary world. JSON
is a pair of functions with stated laws (`Llm.Lawful`): decoding inverts encoding, a
marshalled response survives being re-marshalled, and the text is never empty and has
no raw NUL. `Marshalling` builds a codec that has them all. `Faults` is the loop as a value
once more, on a journal any of whose appends may fail. SHA-256 is a function parameter, and
freedom from collisions is a hypothesis on the contents actually compared or stored, never
on all strings.

**Delegation.** `Delegation` ties the loop to itself: a tool of one turn runs another
turn of the same loop, with one level less to grant, and keeps count of how deep it is.

**The system call filter.** `Seccomp` has the compiler from a denylist to classic BPF
and an interpreter for the result.

**Message translation.** `Conversation` describes what the loop can ask a provider;
`Anthropic` and `Gemini` have the encoders and independent decoders to invert them.

**Skills.** `Skills` has the store, the evaluation gate and the draft tool; `Curator` is
one background job, and `Candidates`, `Consolidate` and `Consolidator` are the other, with
the `Ledger` of what was asked before. `Lifecycle` is every interleaving of single
operations on one store, and `Interleavings` shows that whole curator runs and merges
are made of such operations, and interrupts a curator pass and a consolidation run with
others. `Overlaps` asks what a consolidation run leaves of its merges, whatever the
comparisons answer.

**Bounds and derived structures.** `Ulid`, `RateLimit`, `PluginRpc` (the plugin protocol as
the steps of its goroutines), `TurnIndex`, `Prune` and `Recall`. `Order` is byte-wise string
order and the sorted listing the directory scans rely on; `Prelude` holds shared types.

## What the proofs found

Where a promise does not hold of the code as it stands, the model keeps the code and the
theorem states the exact condition.

- A replay does not pass MaxTokens on (`nemuz.go:381-389`), so a turn recorded with
  MaxTokens set never replays cleanly, whatever else agrees. A turn that failed never
  does either, since its replay returns the same failure. `Nemuz.ReplayAcceptsExactly`.
- A provider call that failed leaves no response in the journal, so replaying it ends
  one event early with an exhausted cassette. `Replay.ReplayReproducesExactly`.
- An append that fails after taking its number leaves a gap; the journal stays readable
  only if nothing is written after it. `JournalWriter.ReadsBackExactly`.
- A turn never hides a failed append, but it goes on to journal the failure. If the event
  that failed had taken its number, and was not the opening, the loop's own error event or
  the closing one, that leaves an unreadable journal, unless the report is not written
  either. `Faults.SucceedsExactly`, `Faults.LeftReadableExactly`.
- One abandoned plugin call makes every later call of that process fail, because the
  replies lag the calls for good. `PluginRpc.OneAbandonedCallSpoilsTheRest`.
- Carried scenario names can collide. Under a new name, skill `a` with scenario `b-c` and
  skill `a-b` with scenario `c` leave one file; merging `b`, with scenario `c`, into `a`
  overwrites a scenario `b-c` that `a` has of its own. The exact conditions are
  `Consolidate.FreshNameKeepsAllExactly` and `Consolidate.KeptNameKeepsAllExactly`, the
  losses `Consolidate.HyphensCanClash` and `Consolidate.KeptNameCanClash`.
- A consolidation run lists first and then spends a model turn on each pair. A skill pinned
  or rewritten by the user in that time is overwritten without an error when the merge keeps
  its name: `Consolidate.AnySkillCanBeReplaced`. The exact condition is
  `Consolidate.ProtectedChangesExactly`, and `Interleavings.ConsolidationSparesPins` says that
  no other interruption endangers a pin.
- A merge fails after the merged skill is already in place, quarantined, when a source under
  another name cannot be archived: it was pinned in the meantime, is gone, or has a blank
  description or body because its file was edited by hand. `Consolidate.MergeFailsExactly`.
- A merge that fails while copying scenarios, and would have kept an active skill's name,
  leaves that skill with the scenarios copied so far, and its next evaluation runs them.
  `Consolidate.FailedCopyIsEvaluated`.
- A consolidation run works on the listing it started with, so a pair listed before a
  merge can archive the merged skill when that kept a source's name. What was merged then
  lives only in the archive. No merge can end that way in a run whose pairs share no skill
  (`Overlaps.DisjointAlwaysLiveOn`); whether one can when they do depends on whether the
  scenarios can be carried (`Overlaps.LiveOnWhateverAnswersExactly`), and two candidates of
  one listing can share one (`Overlaps.OverlapCanBuryAMerge`).
- Candidate pairs that overlap equally are ordered by their names run together, which two
  different pairs can share. When such a tie is for one of the chosen places the choice
  depends on the sorting algorithm after all: `Candidates.ChoiceDeterminedExactly`, and
  `Candidates.ChoiceCanDiffer` for four skills.
- The rate limiter admits up to 2*limit-1 requests in one window's length, and that is
  reached. `RateLimit.WindowBound`, `RateLimit.BoundIsTight`.
- Recall ranks by matching terms alone only for queries of fewer than 20 distinct terms
  (`Recall.MoreHitsWinBelowTwenty`), and sooner fails to when a memory file holds a negative
  use count (`Recall.MoreHitsWinExactly`).
- The index counts the tokens of a response that was journaled but rejected, which the
  turn's own totals do not: `TurnIndex.RejectedTokensAreCounted` is such a turn, and
  `TurnIndex.TokensAgreeExactly` says when the two agree.
- A failed tool call also marks every earlier row of its turn with the same name as failed.
  `TurnIndex.FlagsAgreeExactly` says when the rows are right.
- The curator reports an action before applying it, so a run over a skill file edited by
  hand to a blank description or body ends in an error with one entry that did not happen.
  `Curator.RunFailsExactly`, `Curator.RunDoesWhatItReports`.
- Pruning does not see the events a turn being recorded has not written out yet, and sweeps
  blobs only those refer to. `Prune.RecordingSurvivesExactly`, `Prune.HeldBackEventIsLost`.
- The filter's guard of 250 entries is safe with room to spare: the layout is right up to
  255 and wrong at 256. `Seccomp.TruncationAt256`.
- Demote, unlike Archive, does not look at the pin, so a skill pinned after a curator run
  listed it can still be taken out of service: `Curator.PinnedMeanwhileIsDemoted`. The exact
  condition is `Curator.PinnedChangesExactly`, and `Interleavings.PinsHoldUnlessSetMeanwhile`
  says that nothing else endangers a pinned skill.

## Model

| member | source | states |
|---|---|---|
| Replay.ReplayReproducesExactly | internal/agent/agent.go:67-171 | Re-running a recorded turn over the strict player with the same settings, tools and world gives the same payload stream, outcome, world and error and uses the cassette up exactly when no provider call was refused; a refused call instead runs the cassette dry one event short |
| Replay.LoopReplays | internal/llm/record.go:87-120 | The simulation behind it: from any step on, the loop over the tape and the loop over the provider stay in step until the tape is used up |
| Replay.LoopRunsDry | internal/llm/record.go:34-53 | A refused call leaves no response behind, so the replay stops at exactly that call and its log is exactly one event short |
| Replay.RunServesInOrder | internal/llm/record.go:87-120 | A replay that returned no error asked, in order, exactly the recorded requests and was served each exchange once |
| Replay.LoopCloses | internal/agent/agent.go:184-209 | Every log the loop writes ends with a turn.end carrying the very steps, tool calls and usage it reports |
| Nemuz.RecordTurn | nemuz.go:159-203 | The recording method leaves on disk the sealed, contiguous log of the run, with the outcome, world and blobs the run gives; without hash collisions that recording is complete |
| Nemuz.FreshRecordingReadable | internal/blob/store.go:83-120 | A run recorded into a content-addressed store stays readable in whatever that store grows into |
| Nemuz.RecordingReadsBack | internal/journal/replay.go:51-78 | Every payload of a recording is read back byte for byte, and the cassette taken from it is the run's own exchanges, or an error when there are none |
| Nemuz.ReplayStart | nemuz.go:550-569 | Finds the first turn.start and decodes it, with each of the ways that can fail |
| Nemuz.ReplayTurn | nemuz.go:350-406 | The replay method returns, in order of precedence, that the turn is redacted, what is wrong with its cassette or its opening event, the error of the rerun, the first place the streams diverge, or no error when they compare equal throughout |
| Nemuz.RecordingAsks | nemuz.go:177-192 | A first run opens its journal with the prompt, model, system prompt, tools and environment it was given, makes every request with the library's own token limit and tools, and takes no more steps than the options allow, 16 unless they say |
| Nemuz.ReplayAsks | nemuz.go:381-390 | A replay asks as the recording's opening event says, with the library's tools and steps and no token limit |
| Nemuz.ReplayAcceptsExactly | nemuz.go:350-406 | Under the recording's own options, tools and world a replay is clean if and only if the turn succeeded, had a prompt and was recorded with MaxTokens zero, which the replay does not pass on |
| Nemuz.AcceptedReplayIsFaithful | nemuz.go:381-406 | Whatever options, tools and world a replay ran with, if it is clean then it journaled exactly the recorded kinds and payloads, served each exchange once in order, and closed with the same totals |
| Nemuz.SameBytesSameOutcome | internal/agent/agent.go:184-192 | Two runs that journaled the same bytes, one of them successful, ended with the same outcome |
| Marshalling.SomeCodecIsLawful | internal/llm/llm.go:20-101 | A codec obeying all the laws the replay theorems ask of JSON exists, so none of them is about nothing |
| AgentLoop.Agent.RunTurn | internal/agent/agent.go:67-143 | The loop as performed, writing to a journal and a world in place, does exactly what the run as a value says: same log, outcome, error, world and use of its provider |
| Requests.EveryRequestInFull | internal/agent/agent.go:67-143 | Every request of every turn carries the model, the system prompt, the token limit and every registered tool with its name, description and schema in the order of registration, and its messages are what the journal up to there tells: the prompt, every response and every tool result, in order |
| Faults.SucceedsExactly | internal/agent/agent.go:67-209 | With appends failing at will, a turn succeeds exactly when the fault-free run would and none of that run's own events is refused, and then it is that run: no failed append goes unnoticed |
| Faults.LeftReadableExactly | internal/agent/agent.go:198-209 | Whatever appends fail and however, the journal a turn leaves reads back if and only if its first failing append was refused before numbering, or was that of the opening event, the loop's own error event or the closing one, or the event reporting the failure was not written either |
| Llm.FirstBadCall | internal/llm/llm.go:108-121 | Finds no fault exactly when every tool call has both a name and an id |
| Recording.Complete | internal/llm/record.go:34-53 | One model call through the recorder or the player: what it journals, how far it moves the source and what it returns |
| Recording.CassetteFrom | internal/journal/replay.go:51-78 | Pairs each recorded response with the latest unmatched request |
| Recording.Cassette.Next | internal/journal/replay.go:93-101 | Serves the exchange under the cursor and moves on, or reports that the cassette is used up |
| Recording.ExtractSealed | internal/journal/replay.go:51-78 | Taking the exchanges out of sealed events, spilled or inline, loses nothing against pairing the lines themselves |
| Audit.EveryTurnAudits | internal/agent/agent.go:67-209 | Every turn, live or replayed, failed or not, writes a journal accepted by an independent grammar automaton, which counts the same steps, tool calls and usage as the loop, tells which complaint the turn ends on, and allows maxSteps steps, or 16 when that is not positive |
| Audit.ClosedIsFinal | internal/agent/agent.go:184-209 | Nothing can follow the closing event: no proper extension of a complete turn is in the grammar |
| Journal.DigestInputDecodable | internal/journal/event.go:78-94 | The byte string behind a digest determines the list of sequence numbers, kinds and contents, for NUL-free payloads |
| Journal.DigestsAgreeExactly | internal/journal/event.go:101-107 | Two digests agree exactly when those lists agree, unless the two inputs collide |
| Journal.NulMakesDigestAmbiguous | internal/journal/event.go:78-94 | Without NUL-freedom it fails: one event whose payload spells out a second hashes like the two |
| Journal.Digest | internal/journal/event.go:101-107 | The running hash over the events is the hash of their encoding |
| Journal.DigestInputOfOne | internal/journal/event.go:78-94 | The bytes hashed for an event: its number in eight big-endian bytes, its kind's name, and its payload or its blob's ref, marked as which and closed by NULs |
| Journal.Verify | internal/journal/replay.go:125-160 | Returns nothing exactly for streams of one length whose kinds, and the first 16 characters of whose digests, agree event by event; otherwise the first position that differs or the end of the shorter stream |
| Journal.VerifyAcceptsExactly | internal/journal/replay.go:125-160 | Verify accepts exactly the streams that agree event by event on sequence number, kind and content |
| JournalWriter.Writer.Append | internal/journal/writer.go:76-116 | Appending, with every way it can fail: which failures consume a sequence number and which do not |
| JournalWriter.Writer.Close | internal/journal/writer.go:149-164 | Closing flushes once and is then a no-op |
| JournalWriter.BlobStore.PutBytes | internal/blob/store.go:83-120 | Stores content under its hash, once |
| JournalWriter.ReadFrom | internal/journal/reader.go:31-54 | Returns the events when they are numbered 1 to n, and otherwise the number found at the first gap |
| JournalWriter.SealedAs | internal/journal/writer.go:76-116 | A payload moves to the blob store exactly when there is one and the payload has 4096 bytes or more; the event then carries the hash, and otherwise the payload itself |
| JournalWriter.ReadsBackExactly | internal/journal/writer.go:76-116 | Whatever appends failed, the journal reads back if and only if nothing was written after an append that failed past numbering |
| JournalWriter.SealedContentReadsBack | internal/journal/event.go:63-71 | Every payload, spilled or inline, is fetched again byte for byte |
| JournalWriter.StoredAllHolds | internal/blob/store.go:83-120 | The blob store only grows, stays content-addressed and ends up with every payload that spilled |
| Delegation.TurnWithin | cmd/nemuz/delegate.go:98-129 | A turn with d levels left, m steps and at most k calls a response starts at most the sum of (m*k)^i for i from 0 to d turns, makes at most m model calls for each, returns to the level it was started at and never goes more than d levels below it |
| Delegation.NestingWithinBudget | cmd/nemuz/delegate.go:98-129 | No turn of a whole tree nests deeper than the budget of the topmost one, levels being counted as delegations start and return |
| Delegation.LoopWithin | cmd/nemuz/turn.go:43-103 | The same for the rest of one turn, given what each of its tool calls can start |
| Delegation.EveryTurnAsksAlike | cmd/nemuz/delegate.go:98-129 | Every request of every turn, however deep, carries the process's model and tools with the delegate tool last, no token limit, the system prompt for its task and whether it is a sub-task, and the transcript of its own journal |
| Delegation.BoundIsReached | cmd/nemuz/delegate.go:98-129 | The bound is tight: a model that delegates at every step meets it in turns, in model calls and in levels |
| Delegation.GeometricIsPowerSum | cmd/nemuz/delegate.go:98-129 | The recurrence the mutual recursion gives is that sum of powers |
| Seccomp.BuildProgram | internal/sandbox/seccomp_linux.go:161-193 | The builder emits the whole filter instruction by instruction, or refuses a list of more than 250 numbers |
| Seccomp.FilterIsCorrect | internal/sandbox/seccomp_linux.go:161-193 | For every denylist the builder accepts and every input, interpretation halts inside the program with kill for a foreign architecture, errno for a listed number and allow otherwise |
| Seccomp.JumpsFit | internal/sandbox/seccomp_linux.go:161-193 | No jump of an accepted filter is truncated: each comparison reaches the errno instruction, and nothing but comparisons jumps |
| Seccomp.TruncationAt256 | internal/sandbox/seccomp_linux.go:161-193 | What the guard is for: at 256 numbers the first jump truncates to zero and the first listed call is allowed |
| Seccomp.DenyingNetworkShrinks | internal/sandbox/seccomp_linux.go:211-219 | Denying the network refuses exactly the socket calls on top of what was refused; it never lets a call through |
| Conversation.TurnsAskConversations | internal/agent/agent.go:93-138 | Whatever a turn asks its provider is one prompt followed by rounds in which every call is answered in order, each round meeting whatever law the source's answers meet |
| Anthropic.Encode | internal/llm/provider/anthropic.go:146-191 | The encoding loop with its pending results computes the fold of its one-message step |
| Anthropic.EncodingIsValid | internal/llm/provider/anthropic.go:146-191 | Every conversation the loop builds alternates user and assistant, and each assistant message's tool uses are answered in order by the very next user message |
| Anthropic.EveryRequestIsValid | internal/llm/provider/anthropic.go:146-191 | So every request of every turn, over any source of answers, is encoded as such an exchange |
| Anthropic.EncodingRoundTrips | internal/llm/provider/anthropic.go:146-191 | The conversation can be read back out of the encoding: nothing is dropped, duplicated or reordered, and every call comes with its very arguments, or with an empty object when it had none |
| Gemini.Encode | internal/llm/provider/gemini.go:157-204 | The encoding loop with its pending replies and its map from ids to names computes the fold of its one-message step |
| Gemini.NamesSurvive | internal/llm/provider/gemini.go:157-204 | Every conversation alternates, and every reply carries the name of the call it answers if and only if no response gives one id to calls of different names |
| Gemini.EncodingRoundTrips | internal/llm/provider/gemini.go:157-204 | Up to ids and error flags the conversation can be read back out of the encoding, every call with its very arguments, or with an empty object when it had none |
| Gemini.DecodeParts | internal/llm/provider/gemini.go:237-260 | Reads the text of a candidate's parts run together, and their calls numbered by position, each with its arguments compacted, or those of an empty object when it has none; fails exactly on unparsable arguments |
| Gemini.DecodedIdsNameOnce | internal/llm/provider/gemini.go:237-260 | Decoded calls never share an id within a response, which is the condition the encoder needs although ids repeat across rounds |
| Gemini.EveryRequestIsNamed | internal/llm/provider/gemini.go:157-260 | Decoder, loop and encoder together: a turn whose answers all come from this decoder sends only requests in which every reply names the call it answers, across rounds whose ids repeat |
| Lifecycle.EveryRunSafe | internal/skill/store.go:193-295 | After any interleaving of drafts, evaluations, promotions, archivings, demotions, restores, pins, uses and scenario changes: a quarantined skill has no evidence, an agent-written active one carries the id of a passing report issued for its own name, and no name has left the store |
| Lifecycle.ServiceMeansPromotion | internal/skill/store.go:193-215 | A skill in service that was not before got there by a promotion within the run |
| Lifecycle.CertifyIsTwoSteps | internal/skill/eval.go:195-204 | A gate's certification is an evaluation followed by a promotion, so the interleaving results cover it |
| Skills.ValidNameExactly | internal/skill/skill.go:94-102 | A usable name is up to 64 small letters, digits and hyphens, with no hyphen at either end nor next to another |
| Skills.ValidExactly | internal/skill/skill.go:105-126 | What a skill must be to be saved, and which complaint one that is not meets first |
| Skills.ReportPassesExactly | internal/skill/eval.go:111-121 | A report passes exactly when the skill has enough scenarios and every one of them ran and met its expectations |
| Skills.Check | internal/skill/eval.go:214-265 | Lists no failure exactly when the outcome meets every expectation of the scenario |
| Skills.Store.Save | internal/skill/store.go:74-113 | Saves a valid skill under its name with its body trimmed, or changes nothing |
| Skills.Store.Promote | internal/skill/store.go:193-215 | The promotion with its refusals in order; the evidence it stores is the report's id |
| Skills.Store.Archive | internal/skill/store.go:222-236 | Archives unless pinned, and leaves an archived skill alone |
| Skills.Store.Demote | internal/skill/store.go:244-256 | Takes an active skill back to quarantine and clears its evidence |
| Skills.Store.Restore | internal/skill/store.go:262-274 | Takes an archived skill to quarantine, never straight into service |
| Skills.Store.Pin | internal/skill/store.go:277-284 | Sets the pin and nothing else that matters to the lifecycle |
| Skills.Store.RecordUse | internal/skill/store.go:287-295 | Counts the use and notes its time |
| Skills.Gate.Evaluate | internal/skill/eval.go:157-192 | Runs every scenario and changes no skill; a scenario that cannot run has failed |
| Skills.Gate.Certify | internal/skill/eval.go:195-204 | Promotes exactly on a passing report, and otherwise leaves the store unchanged |
| Skills.DraftSkill | internal/review/tools.go:117-149 | The draft tool's effect on the store |
| Skills.DraftedExactly | internal/review/tools.go:117-149 | A draft goes through exactly under a usable name that is free, with a description and instructions that are not blank |
| Curator.CuratorRun.Run | internal/curator/curator.go:182-224 | A run does nothing unless due; otherwise it decides and applies skill by skill over a listing taken at the start, and notes its time unless it was a dry run or failed. It is not due exactly when it is paused or the interval, a day unless the policy says otherwise, is not over |
| Curator.ActiveRetiredExactly | internal/curator/curator.go:252-309 | A run in earnest that ends without an error archives an agent-written, unpinned skill in service exactly when it was last used, or else created, at a known time at least as long ago as the policy's period, 90 days by default, if that is positive; and takes back to quarantine exactly those others that are to be checked and do not have enough scenarios that all meet their expectations |
| Curator.QuarantineExpiresExactly | internal/curator/curator.go:237-250 | And it archives such a skill in quarantine exactly when it was created at an unknown time or at least the expiry ago, 30 days by default, if that is not negative |
| Curator.RunDoesWhatItReports | internal/curator/curator.go:182-309 | For any store, hand-edited ones included: the demoted and archived entries of a report are exactly the state difference, but for the last entry of a run that failed; pinned and user-written skills are untouched and a dry run writes nothing |
| Curator.RunFailsExactly | internal/curator/curator.go:190-224 | A run fails exactly when a skill it would retire has a blank description or body, and then its last entry was not applied |
| Curator.PinnedChangesExactly | internal/skill/store.go:244-256 | Curating from a listing that may be stale changes a record pinned since exactly when the skill was curatable as listed, is demoted, is still in service and validates in quarantine |
| Curator.PinnedMeanwhileIsDemoted | internal/curator/curator.go:190-224 | That happens: a skill in service that fails its check, pinned after the listing, is taken out of service without an error |
| Curator.AtMostTwoChanges | internal/curator/curator.go:182-309 | Over any number of runs on any store a skill changes state at most twice and only downwards; a pinned or user-written one never |
| Interleavings.CurationIsSafe | internal/curator/curator.go:182-309 | A whole curator run is a sequence of retiring steps, so it keeps the store safe and brings nothing into service |
| Interleavings.InterruptedCurationIsSafe | internal/curator/curator.go:190-224 | A pass whose turns are interrupted by any lifecycle steps, before each decision and between decision and application, keeps the store safe and every name |
| Interleavings.PinnedTurnExactly | internal/skill/store.go:244-256 | Within such a pass a record pinned when its turn comes changes exactly when it was listed as curatable, failed its check and is still in service and valid |
| Interleavings.PinsHoldUnlessSetMeanwhile | internal/curator/curator.go:190-224 | So a pass spares every pinned skill as long as no interruption sets a pin, whatever else interruptions do |
| Interleavings.MergeIsSafe | internal/consolidate/consolidate.go:213-269 | A merge, even one that fails half way, is one new quarantined skill and at most two archivings, so the store stays safe, keeps every name and gains nothing in service |
| Interleavings.ActedOnAsConsidered | internal/consolidate/consolidate.go:123-202 | What an interrupted run does about one pair is what the consolidator does to its store about it, scenarios included |
| Interleavings.InterruptedConsolidationIsSafe | internal/consolidate/consolidate.go:101-202 | Whatever lifecycle steps others take while the model compares each pair, a consolidation run keeps the store safe and every name |
| Interleavings.PinnedComparisonExactly | internal/consolidate/consolidate.go:101-246 | Within such a run a record pinned when its comparison is acted upon changes if and only if it is merged under that name, which only a source of that comparison can be |
| Interleavings.ConsolidationSparesPins | internal/consolidate/consolidate.go:101-202 | So the run spares every pinned skill as long as nobody sets a pin meanwhile, whatever else happens |
| Interleavings.ConsolidationSparesOthers | internal/consolidate/consolidate.go:101-202 | And every skill that is pinned or another author's as long as nobody pins or rewrites one meanwhile |
| Consolidate.ApplyMerge | internal/consolidate/consolidate.go:213-269 | The merge step by step: an objection changes nothing; a copying that fails changes no skill record; and which scenarios are under the merged name afterwards, whether the copying went through or stopped half way |
| Consolidate.CarryScenarios | internal/consolidate/consolidate.go:274-286 | Copies a skill's scenarios under prefixed names, in the order of their names and up to the first that has no recording or no usable carried name, failing exactly when there is one; touches no other skill's scenarios |
| Consolidate.MergeSettles | internal/consolidate/consolidate.go:213-269 | In any store, a merge that goes through leaves the merged skill quarantined without evidence, a source archived unless the merge took its name, and every other skill unchanged |
| Consolidate.MergeFailsExactly | internal/consolidate/consolidate.go:213-269 | In any store, a merge past its objections and its copying fails if and only if a source under another name is gone, has been pinned, or would not validate once archived; the merged skill is in place by then |
| Consolidate.ProtectedChangesExactly | internal/consolidate/consolidate.go:213-269 | Whenever its turn comes, a comparison changes a pinned record if and only if it is merged under that very name, and another author's record also when it is a source the merge gets to archive |
| Consolidate.AnySkillCanBeReplaced | internal/consolidate/consolidate.go:213-269 | That happens without an error, to any skill whatsoever: a merge that keeps its name replaces text, author, pin and evidence |
| Consolidate.FailedCopyIsEvaluated | internal/consolidate/consolidate.go:228-241 | A merge that fails in the middle of its copying under a kept name leaves the scenarios copied so far among that skill's own, and its next evaluation runs them |
| Consolidate.FreshNameKeepsAllExactly | internal/consolidate/consolidate.go:234-286 | A merge under a new name keeps every scenario if and only if no two prefixed names coincide and none is a file already there |
| Consolidate.KeptNameKeepsAllExactly | internal/consolidate/consolidate.go:234-286 | A merge that keeps one source's name keeps every scenario if and only if nothing carried over from the other takes the name of a scenario the kept skill has |
| Consolidate.HyphensCanClash | internal/consolidate/consolidate.go:274-286 | Under a new name hyphens can clash: skill a with scenario b-c and skill a-b with scenario c lose one of the two files |
| Consolidate.KeptNameCanClash | internal/consolidate/consolidate.go:234-286 | Under a kept name so can they: merging b, with scenario c, into a overwrites a's own scenario b-c |
| Consolidate.ConsolidationIsSafe | internal/consolidate/consolidate.go:101-202 | However many pairs of curatable skills one undisturbed run considers, and whatever else the store holds, it never touches a pinned or user-written skill, activates nothing and loses no name |
| Candidates.FindCandidates | internal/consolidate/candidates.go:54-88 | Returns the first maxPairs of a sorting of all overlapping pairs of active, curatable skills |
| Candidates.OverlapIsJaccard | internal/consolidate/candidates.go:123-145 | Overlap is the share of the words either description has that both have |
| Candidates.ChosenAreWorth | internal/consolidate/candidates.go:54-88 | Every chosen pair is two different skills in service, agent-written and unpinned, that overlap by at least 0.2 |
| Candidates.EveryOverlapListed | internal/consolidate/candidates.go:66-74 | No two active skills that overlap enough are overlooked |
| Candidates.NoneBetterLeftOut | internal/consolidate/candidates.go:76-86 | If a candidate is left out, as many were chosen as may be, five by default, and each of them overlaps more, or as much and its names come no later |
| Candidates.MostAlikeFirst | internal/consolidate/candidates.go:76-82 | The chosen pairs come most overlapping first, and those that overlap equally by their names run together |
| Candidates.ChoiceDeterminedExactly | internal/consolidate/candidates.go:76-88 | Which pairs are chosen, and in which order, does not depend on the sorting algorithm or the order before it if and only if no two different candidates tie with fewer candidates before them than are chosen |
| Candidates.ChoiceCanDiffer | internal/consolidate/candidates.go:80-88 | The tie-break does not always decide: with skills a, ab, bc and c of one description and room for three pairs, whichever three are chosen another three would be as right |
| Consolidator.SameQuestionExactly | internal/consolidate/candidates.go:92-96 | For valid names two pairs share a fingerprint exactly when they are the same two names in either order |
| Consolidator.Consolidator.Consider | internal/consolidate/consolidate.go:123-202 | One pair: skipped exactly when its fingerprint is remembered, otherwise recorded and acted on, the merge tool counting before the keep tool and either before a failure; records and scenarios change only by that outcome |
| Consolidator.Consolidator.Run | internal/consolidate/consolidate.go:101-121 | A run considers in order every candidate pair of the listing taken at the start and skips exactly those remembered as their turn comes; it leaves the records those considerations give, spares pinned and user-written skills, activates nothing, and leaves each skill as the last merge that touched it did |
| Consolidator.LastMergeDecides | internal/consolidate/consolidate.go:101-269 | In any store a run leaves every skill as the last merge that touched it did: quarantined without evidence under the merged name, archived as a source the merge retired, as it was if there was none |
| Overlaps.LiveOnWhateverAnswersExactly | internal/consolidate/consolidate.go:101-269 | While no scenario has lost its recording: whatever the comparisons answer, every merged skill is still in quarantine at the end of a run if and only if no two of its pairs share a skill that the first can keep, with the other's scenarios, and the second then carry on under another name |
| Overlaps.DisjointAlwaysLiveOn | internal/consolidate/consolidate.go:101-269 | In any store, and whatever became of the recordings, a run whose pairs share no skill buries none of its merges |
| Overlaps.OverlapCanBuryAMerge | internal/consolidate/consolidate.go:110-121 | Two candidates of one listing that share such a skill can be answered so that the first merge's result ends up in the archive, with its other source if that can be retired |
| Ledger.Ledger.Seen | internal/review/ledger.go:60-67 | Answers whether a fingerprint is remembered, and changes nothing of what is |
| Ledger.Ledger.Record | internal/review/ledger.go:70-90 | Remembers one more fingerprint, drops the oldest beyond the size, and rewrites the file with what is left |
| Ledger.Ledger.Load | internal/review/ledger.go:103-138 | Reading the file, once, brings back its distinct trimmed lines, newest last and cut to the size |
| Ledger.LinesExactly | internal/review/ledger.go:123-138 | The lines read, each closed by a newline, are the file again but for a newline its last line may lack |
| Ledger.ForgottenInOrder | internal/review/ledger.go:70-90 | New fingerprints push out the oldest one for one |
| Ledger.SurvivesReopeningExactly | internal/review/ledger.go:103-168 | Reopening the file remembers the same fingerprints if and only if each can stand on a line of its own |
| Ulid.Encode | internal/journal/id.go:39-59 | The nested bit loops produce the 26 digits of the encoding |
| Ulid.SameValue | internal/journal/id.go:39-59 | Those digits have the same base-32 value as the 16 bytes have as a big-endian number |
| Ulid.EncodingPreservesOrder | internal/journal/id.go:39-59 | Ids compare as strings exactly as their 128-bit values do, and equal ids come from equal bytes |
| Ulid.NewTurnIDAt | internal/journal/id.go:23-36 | Lays out 48 bits of milliseconds and 80 random bits and encodes them |
| Ulid.NewMemoryID | internal/memory/store.go:320-346 | The memory store's copy computes the same function |
| Ulid.LaterSortsLater | internal/journal/id.go:23-36 | Ids of a later millisecond below 2^48 sort strictly later whatever the random bytes |
| Ulid.WrapsAt48Bits | internal/journal/id.go:23-36 | At 2^48 milliseconds the timestamp wraps to that of zero |
| RateLimit.NewSetting | internal/httpapi/server.go:276-287 | A negative limit means no limiter; a zero limit means 60 and a window not above zero one minute; other values are taken as they are |
| RateLimit.RateLimiter.Allow | internal/httpapi/server.go:289-304 | One request's verdict and the new bucket map |
| RateLimit.RunRemembers | internal/httpapi/server.go:289-304 | After any run under a monotone clock a bucket counts exactly the admissions since it was started, at most limit, and what came within a window before it is less than a bucketful |
| RateLimit.WindowBound | internal/httpapi/server.go:289-304 | Any half-open interval of one window's length sees at most 2*limit-1 admissions of one client |
| RateLimit.BoundIsTight | internal/httpapi/server.go:289-304 | A run that reaches 2*limit-1 |
| RateLimit.IdleIsAdmitted | internal/httpapi/server.go:289-304 | A client idle for a full window is always admitted |
| RateLimit.ClientsIndependent | internal/httpapi/server.go:289-304 | A client's bucket and verdicts are what they would be if it were alone |
| PluginRpc.NoCrossTalk | internal/plugin/client.go:210-265 | In every interleaving of calls, reader and plugin the replies lag the calls by exactly the number of abandoned calls, and no call ever returns another call's answer |
| PluginRpc.NextCallAnswered | internal/plugin/client.go:210-243 | As long as no call was abandoned the next one is answered with what the plugin says to it, once the reader passes that on |
| PluginRpc.HowCallsEnd | internal/plugin/client.go:226-243 | What each way a waiting call can end says, which of them abandon it, and that only that call ends |
| PluginRpc.EveryCallEndsOrWaits | internal/plugin/client.go:210-243 | No call is lost: of the calls numbered so far all have ended but the one that is waiting |
| PluginRpc.ReaderStopsOnlyWhen | internal/plugin/client.go:247-275 | The reader stops only on a broken read, which some call has learned of or can still learn of, or once the plugin is gone and all it said was passed on; only then does the plugin count as exited |
| PluginRpc.AnsweredExactly | internal/plugin/client.go:226-243 | A call that takes a reply is answered if and only if no call was abandoned before it; otherwise it takes the oldest reply still owed |
| PluginRpc.OneAbandonedCallSpoilsTheRest | internal/plugin/client.go:226-243 | Once one call has given up, no later call is ever answered |
| PluginRpc.NeverStuck | internal/plugin/client.go:247-265 | While plugin and reader live, a waiting call can always be moved towards its reply |
| PluginRpc.EveryRunLags | internal/plugin/client.go:210-265 | The invariant behind them: outstanding ids ascend, the waiting call's own is last, and everything on its way is what the plugin said |
| TurnIndex.ReadTurn | internal/index/index.go:293-373 | The fold over one journal, with missing blobs and undecodable payloads costing one event each |
| TurnIndex.SilentJournal | internal/index/index.go:293-373 | A journal of nothing the index reads leaves a row of its first event's turn and time and nothing else |
| TurnIndex.IndexRecoversTheRun | internal/index/index.go:293-373 | For every live run the row recovers prompt, model, sandbox, role, steps, tool calls and whether it failed; the run's tokens plus those of a last response that was rejected; one row per call with its name and error flag, same-named earlier calls marked with it; and the answer of a successful run |
| TurnIndex.TokensAgreeExactly | internal/index/index.go:293-373 | The row's tokens are the turn's own totals if and only if the turn did not end on a rejected response or that response used none |
| TurnIndex.RejectedTokensAreCounted | internal/index/index.go:293-373 | They can differ: a first response with an unnamed call and tokens counts nothing in the turn and in full in the row |
| TurnIndex.FlagsAgreeExactly | internal/index/index.go:345-359 | The error flags of a turn's tool rows are right if and only if no call that succeeded is followed by one of the same name that failed |
| TurnIndex.Index.InsertTurn | internal/index/index.go:182-218 | Replaces whatever the id held in all three tables |
| TurnIndex.Index.Rebuild | internal/index/index.go:251-290 | From any prior contents the tables become those of the readable journals, and the unreadable ones are named |
| TurnIndex.RebuiltMirrorsTheJournals | internal/index/index.go:251-290 | When journals are named by the turns in them, a rebuild leaves exactly the readable turns, each with exactly its own facts in all three tables |
| TurnIndex.IngestionOrderIrrelevant | internal/index/index.go:160-218 | The tables do not depend on the order of ingestion nor on how often a turn is ingested |
| Prune.Disk.PruneJournals | cmd/nemuz/journal.go:217-263 | At every intermediate state, whatever removal fails, no turn still present refers to a removed blob; a pruning that completes leaves exactly the unexpired turns and the blobs one of them refers to, a turn having expired when the first event of its journal is from before the cutoff; an unreadable turn or a preview changes nothing |
| Prune.Disk.Scan | cmd/nemuz/journal.go:222-240 | Finds the expired turns and the live refs, or stops on the first unreadable turn |
| Prune.VerifyTurn | cmd/nemuz/journal.go:423-434 | Accepts exactly a contiguous journal whose every blob is present |
| Prune.RecordingSurvivesExactly | cmd/nemuz/journal.go:217-263 | A turn still being recorded, which holds events back, comes out of a pruning complete if and only if every blob only those refer to is also referred to by a turn that stays or is stored again later |
| Prune.HeldBackEventIsLost | cmd/nemuz/journal.go:217-263 | It need not: one held back event whose payload was spilled and is nowhere else loses it |
| Recall.RecallFor | internal/memory/store.go:200-247 | Returns the pinned memories by id and then the ranking of the matching ones, cut to the limit |
| Recall.RecalledInOrder | internal/memory/store.go:226-247 | Pinned memories come first, by id; then higher scores, and newer ids among equal ones |
| Recall.ScoreOf | internal/memory/memory.go:137-165 | The score, over the common denominator of one query |
| Recall.RankingUnique | internal/memory/store.go:226-235 | A set of candidates has one ranking, whatever order they were met in |
| Recall.RecallDetermined | internal/memory/store.go:200-247 | The result is a function of store, query and limit |
| Recall.NothingBetterLeftOut | internal/memory/store.go:236-246 | A matching memory left out is outranked by every matching one returned, and the result is full |
| Recall.MoreHitsWinExactly | internal/memory/memory.go:137-165 | Among memories used at least a given number of times, a negative one included, more matching terms always outrank fewer if and only if the difference in nudges over all the query's terms stays below one match |
| Recall.MoreHitsWinBelowTwenty | internal/memory/memory.go:137-165 | For counts from zero upwards that is: if and only if the query has fewer than 20 terms |

## Left out

- AgentLoop.Agent.RunTurn: the program assumes no Append fails within a run; a turn with failing appends is modelled as a value, in `Faults`. The provider's own error texts, the turn id and the temperature setting are not part of the outcome.
- Faults.SucceedsExactly: the error of a failed append is its position, and that turn is a value without an in-place counterpart.
- Recording.Complete: assumes no Append fails; `Faults` has that case.
- JournalWriter.Writer.Close: assumes flushing, syncing and closing the file succeed.
- Nemuz.RecordTurn: the system prompt and the recalled-memory environment are parameters, and noting the use of recalled memories afterwards is left out, as are failures to create or close the journal.
- JournalWriter.ReadFrom: works on decoded events; the line limit of 1 MiB and lines that are not JSON are not modelled, nor is what a crash leaves of a buffered write.
- JournalWriter.BlobStore.PutBytes: the temporary file and the sharded directories are left out, and malformed refs with them.
- Journal.DigestInputDecodable: bytes are characters; JSON's encoding of a NUL as an escape is what makes payloads NUL-free.
- Delegation.TurnWithin: the texts for unreadable arguments and for a sub-task that failed leave out the error, the delegate tool's description and schema are abbreviated, and the sub-turn's own journaling, indexing, review and memory use are not counted; only turns and model calls are. A process started with delegation disabled offers no such tool, and its turns are the plain loop.
- Seccomp.BuildProgram: the system call numbers are parameters, and installing the filter is left to the kernel.
- Anthropic.Encode: covers messages; tool definitions, stop reasons and the HTTP exchange are table lookups and transport.
- Gemini.Encode: likewise.
- Skills.Store.Save: a skill file that cannot be decoded is not modelled, so a draft or a merge, which treat a failed load as an absent skill, are covered for readable stores; white space to trim is ASCII only, and the list of related skills is left out.
- Skills.Gate.Evaluate: running a scenario is an arbitrary function of skill and scenario; the lenient player behind it is covered only as far as the loop over a tape that is not strict (`Recording.Complete`).
- Consolidate.CarryScenarios: recordings left behind when attaching a scenario fails half way are not modelled, nor is path cleaning; a scenario is taken to be named like its file.
- Overlaps.LiveOnWhateverAnswersExactly: assumes that every scenario has its recording at the start. Without that a merge can replace a scenario that stood in the way of another merge, and this condition on the scenarios at the start no longer decides; `Overlaps.DisjointAlwaysLiveOn` and `Overlaps.OverlapCanBuryAMerge` do not assume it.
- Interleavings.ConsolidationSparesPins: others act between comparisons, not in the middle of carrying one merge out.
- Consolidator.Consolidator.Consider: what the model answers is arbitrary, and the comparison's own recorded turn is the turn loop again and not repeated here.
- Candidates.FindCandidates: splitting descriptions into significant words is a parameter, and overlaps are exact where the program's are floating point.
- Ledger.Ledger.Record: a file that cannot be read or written, and lines too long to scan, are not modelled.
- Curator.CuratorRun.Run: the state file is a value; the texts stored as reasons are a parameter.
- Ulid.NewTurnIDAt: the random bytes are a parameter, and so is the clock.
- RateLimit.RateLimiter.Allow: the lock and the hashing of a client's identity are left out; the clock is an argument. Buckets are never removed, as in the program. The cap on concurrent requests is not modelled.
- PluginRpc.NoCrossTalk: assumes a plugin that answers each request once and in order; unsolicited replies, request ids beyond 64 bits, lines cut short by a failing write and the shutdown notification are left out.
- TurnIndex.ReadTurn: a payload decodes as a whole or not at all, where the program reads only the fields it wants; a rebuild that is cancelled or fails inside the database, full-text ranking and schema versions are left out.
- Prune.Disk.PruneJournals: covers journal turns only, as the program does: recordings copied under skills are no roots. Errors listing a directory and redaction markers are left out.
- Prune.RecordingSurvivesExactly: the turn being recorded stores and writes nothing between the start and the end of the pruning, writes out whole events, and has not itself expired.
- Recall.ScoreOf: scores are exact where the program's are floating point, and splitting text into terms is not modelled: a memory and a query are their sets of terms.
- Redaction of recorded payloads, finding a turn by a prefix of its id, and quoting of plugin commands and search queries: small self-contained rewrites beside the core.
- HTTP, SSE, Telegram, ACP and stdio transports, Landlock, process handling, SQLite, YAML, configuration and the command line: no state worth proving beyond what is above.
