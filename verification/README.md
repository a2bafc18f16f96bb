# A model of the agent core

This project models the parts of the ziee agent core that carry its guarantees, and proves those
guarantees for every input, every run and every schedule:

- **Untrusted text** (`Guard`, `GuardLaws`, `GuardMarkers`, `GuardPasses`). Neutralization is three rewriting
  passes. Each pass is an edit script; the laws are about scripts, so that one argument (an escape
  never re-creates a marker) covers all pairs of passes.
- **Context compaction** (`Chat`, `Compaction`, `CheapTiers`, `Pairing`, `CompactionRuns`,
  `CompactionFacts`, `CompactionLimits`, `CompactionCode`). The tiered pipeline as a function of the request and the
  summarizer's answer, a store that grows and has its head replaced, and runs of any number of
  appends and model calls over it. The summarizer is an arbitrary answer for each step; the history
  of its calls is kept beside the transcript.
- **The agent loop** (`Approval`, `Budget`, `AgentLoop`, `LoopRecord`, `LoopGuarantees`,
  `LoopEntries`, `LoopPairing`, `LoopStops`, `TurnConservation`, `Transcript`, `AgentRun`). One turn is a function of what the
  ports answer, and every port is an arbitrary table of answers (model, tools, gate, policy,
  classifier, cancel flag, hooks, store failures). `AgentRun` is the loop itself, over a store that
  it changes in place, and is proved to do what the function says.
- **Delegation and fan-out** (`Delegation`, `InheritedCompaction`, `LossyRuns`, `FanOut`). The
  recursion of a run into its children, what a child's inherited compaction does to its parent,
  concrete runs in which something is lost, and the fan-out as a protocol of interleaved steps.
- **Atomic extraction** (`Extraction`, `ExtractionOnce`). Any number of callers over a directory of inodes, with
  crashes, I/O errors and failed locks at every step.
- **The purity check of the manifest plugin** (`Predicates`, `Purity`, `PuritySound`,
  `PurityExact`). The walk that collects free names, an evaluator for the expressions it looks at, a
  coincidence theorem, and exactly which names are collected.

`Text` and `Wrappers` hold shared helpers. `dafny verify dfyconfig.toml` checks everything.

## Main results

1. *Neutralization is a fixed point.* No marker is left, and the texts left unchanged are exactly
   those without one, both for the passes' own tests (`NeutralizedIsClean`, `NeutralizeFixedPoint`)
   and for the markers spelled out (`NoMarkerLeft`); it works line by line
   (`NeutralizeLines`); and decoding gives the content back up to ASCII case
   (`NeutralizeKeepsContent`).
2. *Nothing is lost or duplicated.* After any run the transcript is at most one summary and a body;
   the summarized segments, in order, and the body are all that was ever appended, and each request
   for a summary held every message of its segment and the summary before it (`Conservation`,
   `SummaryIsFolded`). Completed summary calls
   times `min_free_tokens` never exceed the tokens appended, and they are all the calls exactly when
   none fails (`AmortisedCalls`). A turn of the loop is such a run: its steps are the turn's own
   appends and the turn's own compaction passes (`TurnConserves`).
3. *Tool calls stay answered.* Every loop head is paired, head replacement included. A clean end is
   paired if and only if no gate was opened, and else leaves open exactly the calls of the last
   round that the gate is recorded to have parked (`RunPairing`). A resume takes up the pending
   message itself, and executes exactly its allowed calls (`ResumePairing`).
4. *The gate is sound* over whole runs (`GateSoundness`), the record and the budget agree with what
   was done (`RunRecord`, `BudgetAgreement`), every message that is appended says what its origin
   gave (`RunTells`), a run stops for the reason that its last event states (`RunStops`), and the
   imperative loop does exactly this (`AgentRun.AgentCore.Run`).
5. *The delegation tree is bounded* (`TreeBound`), the fan-out's result does not depend on the
   schedule, which always ends (`ScheduleIndependent`, `EveryScheduleEnds`), and the parent reads
   what each child said last, or why there is nothing to read (`DelegateReply`).
6. *Extraction is atomic exactly when* callers that share a pid cannot miss the lock
   (`SoundExactlyWhenSeparate`). Where no lock fails, the target is replaced at most once
   (`RenamedOnce`).
7. *An accepted predicate may be lifted* when its parameter patterns hide no name and it does not
   use `this` (`AcceptedIsDetermined`); what is accepted is spelled out (`AcceptedExactly`).
8. *A delegating run's transcript is left alone exactly when* its children are isolated, or there is
   no compaction extension, or no child completes a summary; otherwise its first messages are
   gone, exactly so many, behind a child's summary of that child's messages (`ParentUntouched`).

## Where the code does less than it promises

- Native resume finds pending calls if and only if no call of the round was answered and no steering
  note followed (`ResumeFindsPending`). `ResumeMissesCall` is a whole turn after which no resume
  finds the parked call: of two calls one is done and the other waits for a human.
- An `after_round` short-circuit leaves the transcript paired if and only if the reply made no calls
  (`ShortCircuitOrphans`).
- A system prompt block that reads `[Summary of ` is taken for a summary: the request then no longer
  shows the transcript (`AssembledShows`, both directions), and head replacement drops a message that
  the summarizer never saw (`MarkedPromptLosesMessage`; `MarkedPromptWitness` is a case).
- A child that is not isolated keeps its parent's compaction extension, whose run is fixed when it is
  made (compaction.rs:643-667, fanout.rs:300-326). Its summaries replace the head of the parent's
  transcript. `ParentUntouched` says exactly when this happens, how many of the parent's messages
  are gone and what stands in their place; `ParentLosesQuestion` is a run that loses the question it
  was asked. `TurnConserves` and `RunPairing` leave such runs out (`Harmless`).
- Eviction compares bytes and the estimate counts characters, so evicting non-ASCII text can raise
  the estimate (`EvictionCanRaiseEstimate`). It does for a message if and only if the new length does
  not fit the tokens it had (`EvictionLength`), for a list if and only if the gains, read off the
  lengths before, sum up to more than nothing, and for both cheap tiers together if and only if they
  sum up to more than the turns left out (`EvictionRaises`).
- A summary call that fails leaves everything as it was and may be repeated without bound
  (`FailedCallsRepeat`; `FailedCallsWitness` is a case for every number of calls).
- The comment on `ExtractLock::acquire` says that without the lock the rename still rules out a torn
  file. That holds for distinct pids; callers in one process share theirs, and `TornRun` is a run in
  which one of them returns Ok over an empty target.
- The comment on `apply_authorization` (reviewer.rs:144) says that a `Prompt` is never loosened. It
  is, also where the admin set it: exactly for a high risk with at least medium authorization
  (`LoosensExactly`). For an untrusted call the loop's clamp turns that into a question again
  (`DecisionTable`).
- A comment in `fit` (compaction.rs:558-562) says that no previous summary is ever carried; the code
  after it folds the earlier summaries in, and the model follows the code.
- `checkPurity` looks neither at parameter fallbacks, nor at computed keys of patterns, nor at the
  tags of JSX elements, nor at `this`: each lets any name, or the receiver, decide the value
  (`FallbackEscapes`, `KeyEscapes`, `TagEscapes`, `ThisEscapes`).
- It also rejects predicates that look up nothing: reading `ctx?.k`, or `ctx.k` through a local
  constant, is accepted only if the property's, or the constant's, name happens to be allowed
  (`PropertiesAccepted`).

## Modelling choices

- Strings are sequences of Unicode scalar values. `replace_ci` slices by bytes; its needles are
  ASCII, so a byte match and a character match are the same.
- Watermark fractions are reals and thresholds their floors.
- A port answers by iteration and ordinal, so each question has one answer per run and the answers
  are otherwise unrestricted.
- `WellBehaved` and `Shows` are the hypotheses on extensions: they may add System messages, but they
  pass the history on. `Follows` says that the policy port is `TrustedAutoApprovePolicy`.
- `Harmless` says that no core tool call of a run has its head replaced by a child.
- Extensions may withdraw delegation from an iteration but not grant it to a child.
- Children run at the same time, so their head writes happen in any order (`Interleaves`). A child
  whose task panics is taken to have written what its run wrote.
- The host of a predicate is any built-in code that cannot see into a closure except by calling it
  (`IsParametric`). A host that compares objects or functions by identity is none, so results that
  turn on such a comparison lie outside `AcceptedIsDetermined`. The host is also a function, so the
  same call has the same value each time: built-ins whose value depends on more than their
  arguments, such as `Math.random`, lie outside too, although `checkPurity` allows `Math`.

## Model

| member | source | states |
|---|---|---|
| GuardLaws.NeutralizedIsClean | src-app/agent-core/src/guard.rs:22-122 | the output has no reminder tag in any case, no line-leading role prefix and no `::` between identifier characters |
| GuardLaws.NeutralizeFixedPoint | src-app/agent-core/src/guard.rs:4-29 | a text is unchanged if and only if it has no marker, and a second application changes nothing |
| GuardLaws.EditKeepsTagFree | src-app/agent-core/src/guard.rs:31-66 | no pass can re-create a tag |
| GuardLaws.EditKeepsRoleFree | src-app/agent-core/src/guard.rs:71-94 | no pass can re-create a line-leading role prefix |
| GuardLaws.TagPassRemoves | src-app/agent-core/src/guard.rs:43-66 | after its pass a tag is gone, also where occurrences touch |
| GuardLaws.RolePassRemoves | src-app/agent-core/src/guard.rs:71-94 | after the pass no line starts, behind white space, with a role prefix |
| GuardLaws.PermPassRemoves | src-app/agent-core/src/guard.rs:100-122 | after the pass no `::` joins two identifier characters |
| GuardLaws.NeutralizeLines | src-app/agent-core/src/guard.rs:22-122 | neutralizing distributes over line breaks |
| GuardLaws.NeutralizeKeepsContent | src-app/agent-core/src/guard.rs:4-17 | decoding the two entities in output and input gives the same text up to ASCII case, and exactly the same for the role and permission passes |
| GuardMarkers.NoMarkerLeft | src-app/agent-core/src/guard.rs:4-122 | no output has `<system-reminder` or `</system-reminder` in any case, `human:`, `assistant:` or `system:` behind white space only on its line, or `::` between two of the characters a-z, A-Z, 0-9 and _; a text is left alone if and only if it has none of these, and by the role pass if and only if it has no such prefix |
| GuardMarkers.FirstTagEscaped | src-app/agent-core/src/guard.rs:34-66 | the first tag of a text becomes its escape; what is before it is left alone, and what is after it is treated likewise |
| GuardMarkers.RoleEscaped | src-app/agent-core/src/guard.rs:80-94 | in a line that starts, behind white space, with a role prefix in any case just the colon is replaced |
| GuardMarkers.PermissionEscaped | src-app/agent-core/src/guard.rs:100-122 | the first separator of a text becomes two entities, and what is after it is treated likewise |
| GuardPasses.ReplaceCi | src-app/agent-core/src/guard.rs:43-66 | the loop performs the edit script that replaces each case-insensitive occurrence, left to right, without overlap |
| GuardPasses.LineRoleIsScript | src-app/agent-core/src/guard.rs:80-94 | the rewriting of one line is the whole-text scan of that line |
| GuardPasses.NeutralizeLine | src-app/agent-core/src/guard.rs:80-94 | the loop over the three role words rewrites the line as specified |
| GuardPasses.NeutralizeRolePrefixes | src-app/agent-core/src/guard.rs:71-78 | the loop over lines performs the role script of the whole text; no line-leading role prefix is left, and a text without one is returned as it is |
| GuardPasses.NeutralizePermissionStrings | src-app/agent-core/src/guard.rs:100-122 | the index loop performs the permission script |
| GuardPasses.NeutralizeUntrusted | src-app/agent-core/src/guard.rs:22-29 | the composition of the loops leaves no marker, spelled out, and returns a text as it is if and only if it has none |
| GuardPasses.MergeSummaries | src-app/agent-core/src/core_tools.rs:291-300 | the parent reads text without markers: the note and each summary under its numbered label, each at its place with an empty line between them, neutralized |
| GuardPasses.MergeOfNeutralized | src-app/agent-core/src/core_tools.rs:291-300 | over summaries already neutralized, with the fixed labels and the cap note, the second neutralization changes nothing |
| Chat.TokensFromChars | src-app/agent-core/src/tokens.rs:11-17 | the least number of tokens that covers the characters at four each |
| Chat.EstimateConcat | src-app/agent-core/src/compaction.rs:293-300 | the estimate adds up over concatenation |
| Compaction.PulledBack | src-app/agent-core/src/compaction.rs:538-546 | the boundary moves back over tool results only, to the first place that is none or to the start |
| Compaction.SplitInRange | src-app/agent-core/src/compaction.rs:427-440 | on a non-empty list the split keeps at least the newest message |
| Compaction.SplitIsOptimal | src-app/agent-core/src/compaction.rs:427-440 | the split is the one index whose suffix fits the target (or is the newest message alone) and whose next longer suffix does not fit |
| CheapTiers.EvictionKeeps | src-app/agent-core/src/compaction.rs:309-381 | eviction keeps the shape of every message, and clears a message's long tool results, and nothing else, exactly when more than the kept number of results follow from it on |
| CheapTiers.TrimFacts | src-app/agent-core/src/compaction.rs:388-420 | trimming leaves out exactly turns that are blank or repeat the turn kept last, never the newest message, and leaves no other such turn; every text is still said by the same role, and all System and tool-bearing messages stay in place among their kind |
| CheapTiers.CheapIdempotent | src-app/agent-core/src/compaction.rs:309-420 | each cheap tier, and their composition, is idempotent |
| CheapTiers.CheapResultSettles | src-app/agent-core/src/compaction.rs:464-486 | a second pass over the cheap tiers' output reports no change |
| CheapTiers.EvictionLength | src-app/agent-core/src/compaction.rs:270-381 | by how much eviction changes a message's length; its estimate rises if and only if that length does not fit the tokens it had |
| CheapTiers.EvictionRaises | src-app/agent-core/src/compaction.rs:309-420 | eviction changes the estimate of a list by exactly the gains of what it evicts, and both tiers by that less the turns left out, which with those that stay are the evicted list; each raises it if and only if that is more than nothing |
| CheapTiers.CheapEstimate | src-app/agent-core/src/compaction.rs:309-420 | the cheap tiers do not raise the estimate where no evicted text gains characters, as ASCII text never does |
| CheapTiers.EvictionCanRaiseEstimate | src-app/agent-core/src/compaction.rs:340-381 | a request whose one tool result of two-byte letters makes eviction, and the cheap tiers together, raise its estimate |
| Pairing.PairedCut | src-app/agent-core/src/compaction.rs:539-546 | a cut that is not in front of a tool result falls between rounds |
| Pairing.CutIsBetweenRounds | src-app/agent-core/src/compaction.rs:538-550 | wherever the summary tier cuts a paired history, both parts are paired |
| Pairing.CheapKeepsPairing | src-app/agent-core/src/compaction.rs:385-420 | the cheap tiers orphan no tool call and no result |
| Pairing.OutboundIsPaired | src-app/agent-core/src/compaction.rs:449-609 | whatever tier fires, a paired request goes out paired |
| Pairing.UseIsResolved | src-app/agent-core/src/core.rs:550-552 | in a paired history every tool-use block has a later message that resolves it, with only tool results in between |
| Pairing.ResultHasUse | src-app/agent-core/src/core.rs:550-552 | and every tool result resolves a tool-use block of an earlier message |
| CompactionRuns.WriteIsCall | src-app/agent-core/src/compaction.rs:585-608 | head replacement is asked for exactly when a summary call succeeds, with that summary and boundary |
| CompactionRuns.SummaryAccounting | src-app/agent-core/src/compaction.rs:515-608 | the outgoing estimate is the incoming one less prior summaries and summarized messages plus the summary |
| CompactionRuns.LandsAtLowWatermark | src-app/agent-core/src/compaction.rs:528-608 | the outgoing estimate exceeds the low watermark at most by the named excesses: pinned content, an outgrown reserve, a newest message over the target, the pull-back |
| CompactionFacts.ThresholdIsFloor | src-app/agent-core/src/compaction.rs:236-264 | a watermark is the largest number of tokens within its fraction of what the window, or the fallback, leaves beside output and safety margin |
| CompactionFacts.QuietLeavesRoom | src-app/agent-core/src/compaction.rs:236-264 | a request that fits under the trigger leaves room for the output and the safety margin |
| CompactionFacts.FiresExactly | src-app/agent-core/src/compaction.rs:449-560 | the summary tier fires at a cut if and only if the request is over the first mark, still over the trigger after the cheap tiers, past the cooldown, and the cut, the best split for the room that is left pulled back over tool results, is worth it |
| CompactionFacts.FitOutcome | src-app/agent-core/src/compaction.rs:449-609 | every pass changes nothing, or sends the cheap tiers' result, or asks about exactly the messages that are cut, each at its place in the request, and puts the answer in their place |
| CompactionFacts.MessageShows | src-app/agent-core/src/compaction.rs:268-291 | a message's text holds what each of its blocks says |
| CompactionFacts.MessageLength | src-app/agent-core/src/compaction.rs:268-291 | and nothing more than that, but one blank between two blocks |
| CompactionRuns.SummaryIsPrior | src-app/agent-core/src/compaction.rs:596-601 | a written summary reads as stated and is recognised as prior by the next pass |
| CompactionRuns.CompactionCuts | src-app/agent-core/src/compaction.rs:515-608 | both coordinate systems agree: the boundary in the raw transcript removes the old summary and exactly the messages whose texts the call read, each at its place |
| CompactionRuns.CompactionConserves | src-app/agent-core/src/compaction.rs:585-608 | one model call keeps the conservation invariant |
| CompactionRuns.Conservation | src-app/agent-core/src/compaction.rs:515-608 | after any run: at most one summary, then the body; segments and body are all that was appended, in order; what each call read is the text of every message of its own segment, in order and without overlap, and the summary before it |
| CompactionRuns.AmortisedCalls | src-app/agent-core/src/compaction.rs:552-556 | completed summary calls times the minimum growth are at most the tokens ever appended; they are all the calls if and only if none fails |
| CompactionRuns.FailedCallsRepeat | src-app/agent-core/src/compaction.rs:582-588 | a failed call leaves the store as it was and can be repeated any number of times |
| CompactionLimits.FailedCallsWitness | src-app/agent-core/src/compaction.rs:582-588 | for every number a run from the empty transcript, of two appended messages, that makes so many calls and completes none |
| CompactionRuns.IncrementalRequest | src-app/agent-core/src/summarizer.rs:79-102 | the request for an input with a previous summary carries that summary's text and the new turns |
| CompactionRuns.SummaryIsFolded | src-app/agent-core/src/summarizer.rs:79-102 | in any run every later summary request carries the previous summary, and every request the text of each message of its segment |
| CompactionLimits.QuietRun | src-app/agent-core/src/compaction.rs:454-486 | while pinned content, transcript and appended tokens fit under the trigger, no summary fires |
| CompactionLimits.NoThrash | src-app/agent-core/src/compaction.rs:454-486 | after a summary at or below the low watermark none fires until more than the distance of the watermarks is appended |
| CompactionLimits.AsciiIsQuiet | src-app/agent-core/src/tokens.rs:6-17 | under the default counter ASCII tool results meet the hypothesis on the cheap tiers |
| CompactionLimits.CompactionKeepsPaired | src-app/agent-core/src/compaction.rs:538-550 | head replacement keeps the body paired |
| CompactionLimits.AssembledShows | src-app/agent-core/src/core.rs:760-767 | the assembled request shows the transcript if and only if no block of the system prompt starts, behind white space, with `[Summary of ` |
| CompactionLimits.MarkedPromptLosesMessage | src-app/agent-core/src/compaction.rs:585-608 | with such a block, head replacement drops a message that was not summarized |
| CompactionLimits.MarkedPromptWitness | src-app/agent-core/src/compaction.rs:585-608 | a prompt and two user messages for which this happens |
| CompactionCode.EvictToolResults | src-app/agent-core/src/compaction.rs:309-381 | the loops with index set compute the eviction, and the flag tells whether anything changed |
| CompactionCode.TurnTrim | src-app/agent-core/src/compaction.rs:388-420 | the loop computes the trimmed list, and the flag tells whether anything changed |
| CompactionCode.FindSplitStart | src-app/agent-core/src/compaction.rs:427-440 | the downward loop finds the one best split |
| CompactionCode.PullBack | src-app/agent-core/src/compaction.rs:543-546 | the loop moves the boundary to the specified place |
| CompactionCode.FitMessages | src-app/agent-core/src/compaction.rs:449-609 | the pipeline with its early returns is the specified one, errors included; where the summary tier fires, the summarizer is asked about every message that is cut |
| CompactionCode.CompactionExtension.BeforeModel | src-app/agent-core/src/compaction.rs:682-698 | the request is rewritten; the store changes exactly when a summary call succeeded, and then only the head of this run's messages |
| Transcript.EphemeralTranscript.Append | src-app/agent-core/src/fanout.rs:78-86 | one message is added to one run, and nothing else changes |
| Transcript.EphemeralTranscript.ReplaceHeadOf | src-app/agent-core/src/fanout.rs:88-99 | the head up to the boundary, or all there is, becomes the summary; other runs and the journal are untouched |
| Budget.TallyIsSum | src-app/agent-core/src/budget.rs:33-35 | the running total is the true sum until it sticks at the top of the range |
| Budget.Tally.AddTokens | src-app/agent-core/src/budget.rs:33-35 | tokens are added with saturation |
| AgentLoop.IterateAdvances | src-app/agent-core/src/core.rs:367-376 | only an iteration within the step limit leads to another, and it is the next one |
| LoopRecord.RunRecord | src-app/agent-core/src/core.rs:345-741 | a clean run has one stop event, as its tail; message events are the appended messages but seed and notes; usage events are the calls'; the journal is the executed calls in order under increasing keys; what was appended for executed calls is, in order, one block each with the call's id and name and the journalled reply's content and error flag |
| LoopRecord.JournalKeysDiffer | src-app/agent-core/src/core.rs:601-612 | no two journal entries share a key |
| LoopRecord.RunShowsReplies | src-app/agent-core/src/core.rs:805-826 | a clean run emits every journalled reply as the content of a tool message |
| LoopEntries.RunTells | src-app/agent-core/src/core.rs:345-741 | whatever a run appends, however it ends, is the seed, a marked note, a reply, the content and error flag of a core tool's or provider's answer to a call that was allowed, or an error with the reason why a call was not executed |
| LoopEntries.NeverModeRefuses | src-app/agent-core/src/policy.rs:24-40 | under the policy that never asks, whatever a provider answered was a trusted call's |
| LoopStops.ActDecides | src-app/agent-core/src/core.rs:534-738 | after a message the run goes on if and only if calls were asked for, nothing was cancelled, caps and steps are kept, no call was parked, and not all of at least one reply are terminal; else it stops with the reason that applies |
| LoopStops.RunStops | src-app/agent-core/src/core.rs:345-741 | a clean run stops for the reason that its last event states, given by its last iteration, and each iteration before went on with calls that none of the stops applied to |
| LoopGuarantees.UntrustedIsNotAuto | src-app/agent-core/src/core.rs:750-756 | under the trusted-auto policy a call is automatic exactly when it is trusted, whatever reviewer and thresholds say |
| Approval.ReviewedIsAuto | src-app/agent-core/src/reviewer.rs:119-175 | a reviewed call is automatic if and only if its risk is low, the ladder lets it pass and authorization is known, or its risk is high, the ladder at least asks and authorization is at least medium |
| Approval.LoosensExactly | src-app/agent-core/src/reviewer.rs:128-175 | the review lets a call pass that the ladder asks about exactly for a high risk with at least medium authorization |
| Approval.DecisionTable | src-app/agent-core/src/policy.rs:24-40 | the decision for each mode, trusted or not, with and without a reviewer; a review of an untrusted call never makes it automatic, and a failed classifier denies |
| LoopGuarantees.GateSoundness | src-app/agent-core/src/core.rs:623-695 | every call that reached the provider was trusted, or approved by the human gate for this call of this iteration, however the run ended; what is recorded as a core tool's call is one |
| LoopGuarantees.BudgetAgreement | src-app/agent-core/src/core.rs:367-376 | all model calls but the last keep within both caps, on their true sum below the top of the range, and there are at most as many as iterations |
| LoopGuarantees.SafetyLimit | src-app/agent-core/src/budget.rs:22-30 | limits made by the constructor keep any run within the safety limit, whatever was asked for |
| LoopGuarantees.RunAnswersWell | src-app/agent-core/src/core.rs:592-618 | what holds of every answer of the core tools holds of everything a run journals for them, however it ends |
| LoopPairing.CompactKeepsPaired | src-app/agent-core/src/core.rs:423-427 | compaction inside the loop keeps the transcript paired |
| LoopPairing.CompactKeepsOpen | src-app/agent-core/src/core.rs:483-490 | a pending message survives compaction as the newest one |
| LoopPairing.RunCallAnswers | src-app/agent-core/src/core.rs:585-718 | a call appends one result and opens no gate, or, exactly when the gate parks it, appends none and opens one; what the gate was asked is recorded |
| LoopPairing.RunCallsExecute | src-app/agent-core/src/core.rs:585-718 | after a round exactly the allowed calls of its message were executed, each at its own place |
| LoopPairing.PairedIteration | src-app/agent-core/src/core.rs:367-738 | one pass of the loop body leads from a paired head to a paired head, or to an end that is paired if and only if no gate was opened, and else leaves open exactly the calls of this iteration recorded as parked |
| LoopPairing.HeadsStayPaired | src-app/agent-core/src/core.rs:367-738 | every loop head that a run reaches is paired, with no gate opened so far |
| LoopPairing.RunPairing | src-app/agent-core/src/core.rs:345-741 | from a paired transcript and a new message: every head is paired; a clean end is paired if and only if no gate was opened, and else leaves open exactly the calls of the last round recorded as parked |
| LoopPairing.ResumePairing | src-app/agent-core/src/core.rs:475-490 | the run stops with the pending message still newest and nothing done, or its first iteration takes up that very message before any model call, answers exactly its calls that are not parked and executes exactly the allowed ones (or refuses them all) |
| LoopPairing.ResumeFindsPending | src-app/agent-core/src/core.rs:775-787 | a resume sees the pending calls if and only if none of the round was answered and no note followed |
| LoopPairing.PendingIs | src-app/agent-core/src/core.rs:775-787 | what a resume takes up is an assistant message at the very end that makes a call |
| LossyRuns.ResumeMissesCall | src-app/agent-core/src/core.rs:775-787 | a turn with one call done and one parked, after which no resume finds the parked call |
| LoopPairing.ShortCircuitOrphans | src-app/agent-core/src/core.rs:524-541 | after such a short-circuit the transcript is paired if and only if the reply made no calls |
| TurnConservation.TurnConserves | src-app/agent-core/src/core.rs:345-741 | a turn, however it ends, is a run of the store: its steps append exactly the turn's messages, in order, and pass the compactor exactly over the requests of the turn's own compaction passes, with those iterations' summarizers; the run ends with the turn's transcript, conserved, within the amortised bound |
| AgentRun.AgentCore.DecideCall | src-app/agent-core/src/core.rs:623-645 | the decision acted on is the policy's, or the clamped reviewer's, or a prompt where there is no reviewer |
| AgentRun.AgentCore.CompactHistory | src-app/agent-core/src/compaction.rs:682-698 | the extension replaces the head of its own run, which need not be the one that runs |
| AgentRun.AgentCore.SettleCall | src-app/agent-core/src/core.rs:594-618 | an executed call is journalled before its result is appended and emitted, and a store error stops in between; the newest message then holds the reply's content and error flag |
| AgentRun.AgentCore.TakeCall | src-app/agent-core/src/core.rs:585-718 | one call has exactly the specified effect on store, events and round counters; the newest message then holds the reply of an executed call |
| AgentRun.AgentCore.TakeRound | src-app/agent-core/src/core.rs:582-718 | the loop over calls goes on past a parked one and has the specified effect |
| AgentRun.AgentCore.RefuseRound | src-app/agent-core/src/core.rs:568-579 | each call of a refused round gets an error result |
| AgentRun.AgentCore.HearMessage | src-app/agent-core/src/core.rs:475-541 | a pending message is taken up, or the model is asked; budget, store and events change as specified |
| AgentRun.AgentCore.Run | src-app/agent-core/src/core.rs:345-741 | the loop over mutable store, budget and event list returns the specified events or error and leaves the specified transcript and journal; a clean run emits every journalled reply; other runs' messages change by exactly the foreign head writes of the turn |
| FanOut.StepInv | src-app/agent-core/src/fanout.rs:221-419 | every step of parent or child keeps the invariant |
| FanOut.ScheduleIndependent | src-app/agent-core/src/fanout.rs:221-419 | under every interleaving the result is the one the children determine: each child's own summary or why there is none, or the first error; permits and running children make up the limit; a fan-out that returns summaries has settled each spawned child once, in spawn order, with its true outcome |
| FanOut.SomeStepEnabled | src-app/agent-core/src/fanout.rs:229-353 | some step is enabled until there is a result and every child has ended |
| FanOut.EveryScheduleEnds | src-app/agent-core/src/fanout.rs:221-433 | every schedule is short, and where none can go on the result is there and no child is left |
| FanOut.FanOutInner | src-app/agent-core/src/fanout.rs:221-419 | the loops return the specified result, labels and settlements: one text per child in spawn order, its own summary or the named error, or under the strict mode the first error |
| FanOut.JoinAll | src-app/agent-core/src/fanout.rs:360-407 | the join barrier returns the first failure in spawn order, or one neutralized text per child, its own summary or the named error |
| Delegation.SpecsAreNarrowed | src-app/agent-core/src/core_tools.rs:242-284 | at most the cap and at least one, in order, each with servers that it asked for and its parent has, none allowed to delegate; the note tells when some were left out, and how many |
| Delegation.SpawnsAreNarrowed | src-app/agent-core/src/core_tools.rs:388-449 | a delegate call spawns such children, narrowed to what the delegating run may use in that iteration, and none where it may not delegate or its input is malformed |
| Delegation.ChildrenDoNotSpawn | src-app/agent-core/src/core_tools.rs:388-410 | over a whole run that may not delegate, however it ends: nothing it executed spawned a child, each delegate call in its journal was answered with an error, a clean run journalled every executed call, and its tree of model calls is its own |
| Delegation.TreeBound | src-app/agent-core/src/core_tools.rs:388-449 | the tree makes at most S + D * max(1, max_children) * S main-loop model calls |
| Delegation.SummaryIsLastSaid | src-app/agent-core/src/fanout.rs:444-465 | a child's summary is what its assistant said last in text, all text blocks of that message, or nothing if it said nothing |
| Delegation.DelegateReply | src-app/agent-core/src/core_tools.rs:408-449 | the parent reads, verbatim and under numbered labels after the note, one text per spec in order: what the child's assistant said last, neutralized, or the named error; in text without markers |
| InheritedCompaction.LoopAdds | src-app/agent-core/src/compaction.rs:682-698 | a run that spawns nothing writes over foreign heads exactly the summaries that its own iterations complete, in order, and where its extension writes elsewhere its transcript only grows |
| InheritedCompaction.LoopSummarises | src-app/agent-core/src/compaction.rs:585-608 | each of these writes is a summary whose text answers the request made of the messages that the run itself had at that iteration |
| InheritedCompaction.DelegateWrites | src-app/agent-core/src/fanout.rs:300-326 | a delegate call replaces no head if and only if none of its children completes a summary; each write is some child's summary of its own messages, over the head of the extension's run |
| InheritedCompaction.ParentUntouched | src-app/agent-core/src/fanout.rs:300-326 | a delegating run's own transcript is untouched if and only if its children are isolated, or there is no extension, or no child completes a summary; else exactly the messages that the writes take are gone, behind a child's summary |
| LossyRuns.ParentLosesQuestion | src-app/server/src/modules/workflow/agent_dispatch.rs:895-911 | a delegating run, in a world where nothing fails, whose transcript has a summary in the place of the question after one iteration |
| InheritedCompaction.DelegatingRunPairing | src-app/agent-core/src/core.rs:345-741 | with isolated children, or without an extension of its own run, a delegating run keeps its tool calls paired |
| Extraction.StepInv | src-app/server/src/common/embedded.rs:110-173 | every step of any caller keeps the invariant, and the payload once it is there |
| Extraction.AlwaysSound | src-app/server/src/common/embedded.rs:110-173 | at every moment the target is what it was or the executable payload, and the payload once a caller returned Ok |
| Extraction.OkIsForGood | src-app/server/src/common/embedded.rs:110-173 | after an Ok the target holds the payload whatever follows |
| Extraction.NoTempLeft | src-app/server/src/common/embedded.rs:139-170 | every temp file is an untouched leftover, or its pid's caller writes it, crashed, or failed to remove it; so a returned caller with a pid of its own leaves none but for the last reason or an untouched leftover |
| Extraction.SomeStepEnabled | src-app/server/src/common/embedded.rs:56-99 | while a caller is under way some caller can go on without a fault: the lock never wedges |
| Extraction.EveryScheduleEnds | src-app/server/src/common/embedded.rs:110-173 | every schedule ends; without I/O errors and crashes every caller, locked or not, returns Ok |
| ExtractionOnce.RenamedOnce | src-app/server/src/common/embedded.rs:56-108 | where no lock fails the target is replaced exactly once if it is intact in the end and was not to begin with, and else never |
| Extraction.TornRun | src-app/server/src/common/embedded.rs:50-90 | with a shared pid and a failed lock a caller can return Ok over an empty target |
| Extraction.SoundExactlyWhenSeparate | src-app/server/src/common/embedded.rs:50-173 | every run is sound if and only if callers that share a pid cannot miss the lock |
| Extraction.Directory.ExtractAtomic | src-app/server/src/common/embedded.rs:110-173 | one caller's code keeps the target whole under any fault, and Ok means the payload |
| Extraction.Directory.ExtractInSteps | src-app/server/src/common/embedded.rs:110-173 | the code takes the steps that the protocol gives a caller |
| Purity.CollectParamNames | src-app/ui/plugins/vite-plugin-module-manifest.js:33-42 | the walk adds exactly the names that the pattern binds |
| Purity.CollectFreeRefs | src-app/ui/plugins/vite-plugin-module-manifest.js:45-75 | the walk adds exactly the specified names |
| Purity.CheckPurity | src-app/ui/plugins/vite-plugin-module-manifest.js:81-101 | acceptance, the use of `Permissions`, and the exact illegal names |
| PuritySound.NothingElse | src-app/ui/plugins/vite-plugin-module-manifest.js:45-75 | every name that evaluation can look up is collected by the walk, or sits in a fallback or computed key of a pattern, or is a tag |
| PurityExact.CollectedExactly | src-app/ui/plugins/vite-plugin-module-manifest.js:45-75 | a name is collected if and only if evaluation without fallbacks, computed pattern keys and tags would look it up, or it is the property of an optional member, or a declaration binds it; with the hidden names, those are all that evaluation looks up |
| PurityExact.AcceptedExactly | src-app/ui/plugins/vite-plugin-module-manifest.js:77-101 | acceptance spelled out over these names and the eleven allowed ones |
| PurityExact.PropertiesAccepted | src-app/ui/plugins/vite-plugin-module-manifest.js:45-75 | reading any property of the parameter is accepted; reading it optionally, or through a local constant, exactly if that name is allowed |
| PurityExact.BindAddsNames | src-app/ui/plugins/vite-plugin-module-manifest.js:33-42 | the names of a pattern are exactly those that binding it makes known |
| PuritySound.EvalSame | src-app/ui/plugins/vite-plugin-module-manifest.js:45-75 | coincidence: environments that agree on an expression's free names, and on `this` where it is seen, give outcomes that cannot be told apart |
| PuritySound.AcceptedIsDetermined | src-app/ui/plugins/vite-plugin-module-manifest.js:77-101 | an accepted predicate that hides no name and uses no `this` gives the same decision in module and manifest |
| PuritySound.FallbackEscapes | src-app/ui/plugins/vite-plugin-module-manifest.js:40-57 | for every name there is an accepted predicate with a fallback whose value is that name's |
| PuritySound.KeyEscapes | src-app/ui/plugins/vite-plugin-module-manifest.js:37-57 | for every name there is an accepted predicate with a computed key whose value that name decides |
| PuritySound.TagEscapes | src-app/ui/plugins/vite-plugin-module-manifest.js:45-75 | for every name there is an accepted predicate with a JSX tag whose value is that name's |
| PuritySound.ThisEscapes | src-app/ui/plugins/vite-plugin-module-manifest.js:45-75 | an accepted predicate whose value is the `this` around it |

## Left out

- CompactionLimits.NoThrash: is about the summary tier only, as the cheap tiers of the agent preset fire below its low watermark.
- Extraction.AlwaysSound: excludes a target of the payload's length with other content, which `is_intact` cannot tell apart.
- PuritySound.AcceptedIsDetermined: covers expressions and bodies of `const` declarations and returns; assignments, loops, `try`, classes and hoisted declarations are not modelled, nor are `import()` (whose specifier is resolved against the module), member expressions as tags, the own name of a function expression, and built-ins that answer differently each time.
- Predicates: a closure in a parameter fallback keeps the scope of its creation, so it does not see parameters bound after it. A name used before its declaration in the same block reads the name outside it.
- Power loss: a crash ends a process but not the file system; `sync_all` is a step that may fail and has no further meaning here.
- A target that is a directory, or that has no parent directory.
- The f64 rounding of `threshold` and integer overflow of `usize` sums.
- Merging of System messages after the hooks, tool lists, schemas and streaming: the model's answer is arbitrary, so what it is sent matters only through compaction.
- Task and schedule tools: their replies are arbitrary answers; only `delegate` is followed into its children.
- Activity labels: a child waiting for a permit is not relabelled when it starts, so nothing is claimed about labels before a child settles.
- The parsing of classifier text and of threshold JSON: assessments and overrides are arbitrary.
- AgentRun.AgentCore.Run: what children that are not isolated append and journal under their own runs in a shared store is not part of the store's state; only their head writes are.
- Journal keys are triples of run, iteration and ordinal rather than the formatted string.
