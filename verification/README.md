# Reasonix: verified models of the session service, context compaction and the desktop indexes

A Dafny 4.11 project that models the parts of Reasonix with the most state and proves what they keep.
`dafny verify dfyconfig.toml` checks everything.

## What is modelled

**The ACP session lifecycle** (`internal/acp/service.go`). `AcpSession.dfy` is the session object: a class
with the fields kept under its mutex and one method per critical section, each proved equal to a function.
`AcpProtocol.dfy` builds a transition system from those functions. One step is one critical section, one
registry access, one channel close, or one lease acquire or release; a run interleaves any number of
prompts, client rebuilds, deferred applies, recovery commits, opens, closes and deletes, over any number of
session objects that carry the same id one after the other. Leases are exclusive, a failed recovery
callback leaves the controller on its old path, and a controller runs turns only for `session/prompt`.
Each action is the sum of its effects on the parts of the world (`AcpEffects.dfy`); the statements over all
runs are in `AcpExclusion` (turns, maintenance, controllers, done channels), `AcpQueue` (the queued config),
`AcpLeases`, `AcpPaths` and `AcpForeign` (who holds which file, hand-over, and commits from outside),
`AcpDelete`, and `AcpConfigs` (which config a session runs with). `AcpProgress` says what a thread that is left
alone gets done.

Two things that one could expect are false of the code. Both are shown with a run in `AcpScenarios.dfy`, and
`AcpQueue.StrandedExactly` and `AcpForeign.AgreesExactlyUnlessTainted` say exactly when they do hold:

- a config queued behind a client rebuild that then fails stays queued, and no prompt can start until
  somebody enters another rebuild;
- a prompt admitted on a session object after `session/close` released its lease can, through a recovery,
  move the lease and transcript of the session reopened under the same id. The history variable `tainted`
  of the protocol marks just these sessions, from that commit to the next recovery of their own; it is read
  by no step.

`AcpRedirect.dfy` models the sidecar files of one session directory, changed in place, and the redirect a
recovery leaves behind. The comment above the lookup says that it follows the session; this is proved when
the two saves of the last recovery commit succeed. The source ignores their errors, and `LookupExactly` says
what a lookup finds after any run in which some fail.

**Context compaction** (`internal/agent/compact.go`). `Messages.dfy` holds the log and the rule that every
assistant message with tool calls is followed at once by exactly its results; `CompactionPlan`,
`CompactionFold` and `CompactionPass` are the loops and functions of one pass; `CompactionFacts` and
`CompactionRuns` say what a pass and any sequence of appends, passes and tool-result maintenance keep, and
`CompactionOrder` that no sequence of them swaps two messages; `CompactionExact` tells a pass message by
message, down to tokens and texts; `CompactionAgent` is the agent with its latch.
A comment in `compact` says that the message-count guard is kept for small histories; its second attempt makes
that guard decide nothing, as `SelectPlan` states. Token ratios are reals, conversions to integers truncate
toward zero, strings are byte sequences. The text of a summary is arbitrary.

**The desktop indexes** (`vscode-extension/app.go`): prompt-history paging with its lazy cache
(`PromptTape`), backward history paging (`HistoryPaging`, `HistoryEntries`, `HistoryWalk`), checkpoint summaries with an in-place
buffer (`CheckpointPreview`), the media token store (`MediaTokens`). Every history page starts with full queues of
planner displays, so pages and whole rendering can differ when two user messages share a key;
`PagingAgreesExactly` says exactly when. It uses that planner displays hold no user bubbles, which is so for all
that `vscode-extension/tabs.go` records.

**Three step machines**: JSON-RPC reply correlation (`internal/acp/server.go`; JSON-RPC 2.0 Specification,
sections 4 and 5) in `RpcCorrelation`, `RpcRuns` and `RpcHistory`; the deferred-rebuild retry loop
(`vscode-extension/deferred_rebuild.go`) in `DeferredRebuild`; calendar scheduling
(`vscode-extension/heartbeat.go`) in `Heartbeat`, on a clock with a fixed offset. A weekly or biweekly rule whose
only day is today and whose time has not come finds no instant, and the plain interval rule takes over, so a
task can be due although it owes nothing; the panel writes such rules. `DueEarlyExactly` gives the condition.

Choices of the environment (a foreign call failing, the clock, what a disk holds, which file a recovery
writes) are parameters of steps or methods.

## Model

| member | source | states |
|---|---|---|
| AcpSession.AcpSession.Begin | internal/acp/service.go:186-202 | a turn is admitted exactly on an idle, undeleted session with no maintenance and no queued config; else nothing changes |
| AcpSession.AcpSession.Finish | internal/acp/service.go:204-214 | clears the running turn and hands back the channel to close |
| AcpSession.AcpSession.CaptureForEnd | internal/acp/service.go:225-252 | marks the session deleted if asked and captures the channels of what was in flight at that moment |
| AcpSession.AcpSession.FinishMaintenance | internal/acp/service.go:260-274 | frees the maintenance slot only for the maintenance that holds it |
| AcpSession.AcpSession.ReleaseSessionLease | internal/acp/service.go:287-295 | takes the lease out once; a second call finds none |
| AcpSession.AcpSession.Bind | internal/acp/service.go:338-348 | swaps lease and transcript together, and not on a deleted session |
| AcpSession.AcpSession.Enter | internal/acp/service.go:855-889 | refuses, queues, or claims the queue and the maintenance slot in one section |
| AcpSession.AcpSession.Commit | internal/acp/service.go:931-948 | installs the new controller and its config exactly if the session is not deleted and its controller unchanged |
| AcpSession.AcpSession.ReadPending | internal/acp/service.go:960-969 | reads the queue without claiming it, nothing on a deleted session |
| AcpSession.AcpSession.Drop | internal/acp/service.go:971-979 | drops the queue only on an idle, undeleted session |
| AcpEffects.ActSums | internal/acp/service.go:186-983 | every action changes program counter, sessions, registry, leases, controller paths and queue history by exactly its stated effects |
| AcpExclusion.StepKeepsExclusion | internal/acp/service.go:186-274 | the ownership invariant of turns, maintenance, controllers and channels is kept by every step |
| AcpExclusion.TurnAndMaintenanceExclude | internal/acp/service.go:186-214 | in every reachable state no session has a turn and a maintenance together, one thread at most works on it, no done channel was closed twice |
| AcpExclusion.ControllerChangesOnlyAtCommit | internal/acp/service.go:931-943 | the controller changes only at the commit of the maintenance in flight, and never while a turn runs |
| AcpExclusion.CommitCheckRefusesOnlyDeleted | internal/acp/service.go:931-941 | at every reachable commit the controller is still the one the rebuild started from, so only deletion refuses it |
| AcpQueue.StepKeepsCustody | internal/acp/service.go:855-893 | a parked config of the registered session always has a thread that will drain it, unless a client rebuild failed last |
| AcpQueue.NoStrandedQueue | internal/acp/service.go:956-983 | in every reachable quiet state of a registered, undeleted session a queued config means that the last maintenance was a failed client rebuild |
| AcpQueue.StrandedExactly | internal/acp/service.go:887-983 | in such a state a config is queued exactly if the last maintenance was a failed client rebuild and some queued config was neither claimed nor dropped afterwards |
| AcpQueue.StrandedForGood | internal/acp/service.go:186-193 | a config queued in a quiet state stays queued, with no turn admitted, along every continuation in which no rebuild enters |
| AcpQueue.ClientFailureStrands | internal/acp/service.go:887-893 | whenever a failed client rebuild ends over a queued config and nobody else works on the session, its two last steps leave the config so |
| AcpQueue.RunKeepsBooks | internal/acp/service.go:870-893 | queue and maintenance fields equal what the history of queueing, claiming, ending and dropping says, over every run |
| AcpQueue.DebtIsSettled | internal/acp/service.go:956-983 | in any history, a queued config that is no longer owed was dropped or claimed by an attempt that ended |
| AcpQueue.TurnsAwaitTheQueue | internal/acp/service.go:186-193 | between queueing a config and any later turn lies the end of an attempt that claimed the queue, or its drop |
| AcpConfigs.ConfigIsLastCommitted | internal/acp/service.go:855-948 | over every run a session has the config it was opened with while no rebuild of it has committed, then the config that the last attempt to commit was entered with |
| AcpConfigs.EntersWithWhatWasAsked | internal/acp/service.go:956-969 | every attempt is entered with what its own client asked for, or, deferred, with what was queued last when it read the queue |
| AcpConfigs.PendingIsLastQueued | internal/acp/service.go:870-876 | a queued config is the one carried by the last attempt that was queued |
| AcpConfigs.AttemptsWereAsked | internal/acp/service.go:855-969 | every config that enters a rebuild was asked for by a client on that session |
| AcpConfigs.ConfigWasAsked | internal/acp/service.go:855-948 | a session runs with a config it was opened with or that a client asked for on it |
| AcpConfigs.OpenedWithWhatWasAsked | internal/acp/service.go:560-675 | the config an open carries is the one it was started with |
| AcpProgress.RebuildInstalls | internal/acp/service.go:855-948 | left alone, a rebuild that enters an idle session installs its config and controller, closes its channel and goes on to the queue |
| AcpProgress.QueueIsApplied | internal/acp/service.go:956-983 | left alone, whoever is on the way to the queue makes a queued config the session's and finds the queue empty |
| AcpProgress.TurnRunsThrough | internal/acp/service.go:186-214 | a prompt on an idle session is admitted and, left alone, leaves it idle with the turn's channel closed |
| AcpScenarios.FailedClientRebuildStrands | internal/acp/service.go:887-893 | and it happens: a run of ten steps after which a config is queued, everything is quiet and no turn is admitted |
| AcpLeases.TransfersKeepCustodians | internal/acp/service.go:328-350 | a hand-over among one thread and one session keeps the lease table and its holders in agreement |
| AcpLeases.RunKeepsCustodians | internal/acp/service.go:287-350 | over every run a lease is held by exactly the session or thread that carries it |
| AcpPaths.OwnRecoveryAgrees | internal/acp/service.go:320-351 | every action of a session's own recovery keeps report and controller in agreement, or inside the commit |
| AcpPaths.RebuildCommitAgrees | internal/acp/service.go:895-943 | the commit of a rebuild installs a controller for the file the session reports |
| AcpPaths.ReportedFileIsAlwaysLeased | internal/acp/service.go:174-180 | in every reachable state the file a registered session reports is leased to it, and nothing else is |
| AcpPaths.PathAgreement | internal/acp/service.go:310-351 | outside its own recovery commit, and unless moved from outside, a registered session's lease, report and controller name one file |
| AcpPaths.HandOverWithoutGap | internal/acp/service.go:329-350 | through a recovery commit old and new file are both leased until the old lease is let go, and the new one from then on |
| AcpPaths.ExactlyOneLease | internal/acp/service.go:344-351 | when no thread of a registered session carries a lease, exactly the reported file is leased on its behalf |
| AcpProgress.RecoveryMoves | internal/acp/service.go:324-351 | left alone, a turn that meets a diverged file moves lease, report and controller to the recovery file and frees the old one |
| AcpProgress.OpenRegisters | internal/acp/service.go:560-675 | left alone, an open leases the file to the new object, registers it idle and lets its controller write that file |
| AcpPaths.OnlyForeignCommitsTaint | internal/acp/service.go:324-351 | a session is marked as moved from outside exactly when another object's recovery commits to it |
| AcpPaths.ForeignCommitBreaksAgreement | internal/acp/service.go:324-351 | and from agreement such a commit always leads to a controller that does not write the reported file |
| AcpForeign.AgreesExactlyUnlessTainted | internal/acp/service.go:324-351 | over every run whose recoveries pick unused files, a registered session outside its own commit reports what its controller writes exactly if no foreign commit moved it since its last own one |
| AcpScenarios.ForeignRecoveryBreaksAgreement | internal/acp/service.go:324-351 | a run that leaves a registered session's controller writing a file that nobody leases |
| AcpDelete.DeletedIsFrozen | internal/acp/service.go:339-343 | from the deleted flag on, controller and transcript never change, whatever runs on |
| AcpDelete.DeleteQuiesces | internal/acp/service.go:242-258 | after deleteAndWait has returned no turn or maintenance is in flight on the session, then or ever after |
| AcpProgress.EndFrees | internal/acp/service.go:225-295 | closing or deleting a session with nothing in flight frees its file, and deleting marks it |
| AcpDelete.DeleteHoldsNoLease | internal/acp/service.go:1111-1116 | once the delete has let the lease go, neither the session nor any of its threads holds a lease |
| AcpDelete.DeleteReleasesEveryLease | internal/acp/service.go:1111-1116 | every lease the session ever held was released by the time its delete is done, save one that a recovery of another object has just moved it away from, and any next action of that thread releases it |
| AcpRedirect.SessionDir.Load | internal/acp/service.go:1580-1597 | tells a missing sidecar from an unreadable one, and returns the metadata of a readable one |
| AcpRedirect.SessionDir.ResolveTranscript | internal/acp/service.go:692-714 | computes the lookup that ResolveLeadsTo characterises |
| AcpRedirect.SessionDir.SaveMeta | internal/acp/service.go:1599-1636 | replaces one sidecar with the filled-in metadata, or nothing when the write fails |
| AcpRedirect.SessionDir.BindRecovery | internal/acp/service.go:352-379 | writes the recovery sidecar, then the redirect with what the id-keyed sidecar already said |
| AcpRedirect.ResolveLeadsTo | internal/acp/service.go:692-714 | a lookup leaves the id-keyed file for exactly the one file named there that exists and claims the id, in one hop |
| AcpRedirect.CommitResolves | internal/acp/service.go:352-379 | what a lookup finds after a commit, for every directory, every recovery file, new or already there, and all four outcomes of its two saves |
| AcpRedirect.CommitKeepsTheRest | internal/acp/service.go:360-374 | a commit leaves all other sidecars alone and keeps what the id-keyed one said |
| AcpRedirect.SavedIsReadBack | internal/acp/service.go:1580-1636 | what is saved is read back, with id and times filled in where missing; other sidecars stay |
| AcpRedirect.CommitRecords | internal/acp/service.go:352-379 | after a commit the recovery file has the session's metadata and the id-keyed sidecar names it |
| AcpRedirect.StepLookup | internal/acp/service.go:352-379 | what each event does to the redirect and to a file's claim, saved or not |
| AcpRedirect.LookupExactly | internal/acp/service.go:692-714 | after any run, whichever saves failed, a lookup finds another file than the id-keyed one exactly if the last write of the id-keyed sidecar was a redirect to it and its own sidecar was made to claim the id, or did, and was not overwritten since |
| AcpRedirect.LookupFollowsLastWrite | internal/acp/service.go:344-379 | over any saves, recoveries onto new or existing files, restarts and other sessions' writes, whichever fail, a lookup finds the file last written if the last recovery's two saves succeeded |
| AcpRedirect.CrashBetweenWrites | internal/acp/service.go:352-377 | a crash between the two writes leaves the lookup on the old file; both writes move it to the new one |
| Messages.ConcatPaired | internal/agent/compact.go:401-459 | histories in which every call has its results at once concatenate |
| Messages.SplitPaired | internal/agent/compact.go:568-572 | such a history may be cut in front of any message that is no tool result |
| Messages.PairedHead | internal/agent/compact.go:490-502 | every tool result hangs below the assistant message that called it |
| CompactionPlan.TokPerChar | internal/agent/compact.go:580-592 | tokens per character of the last prompt exactly when both are positive and the ratio lies strictly between 0.05 and 2, else the fallback |
| CompactionPlan.SmallTurnPinnable | internal/agent/compact.go:387-395 | a user turn of at most half the budget in characters is pinnable whatever the ratio |
| CompactionPlan.ComputePinnedPrefixLen | internal/agent/compact.go:370-382 | the loop computes the prefix that PrefixExactly describes message by message |
| CompactionPlan.ComputeTailStart | internal/agent/compact.go:555-573 | the loop computes the tail start that TailStartOptimal characterises |
| CompactionPlan.CutFromIsLeast | internal/agent/compact.go:555-567 | an index fits the budget or the message floor exactly when it is at or after the cut |
| CompactionPlan.TailStartOptimal | internal/agent/compact.go:555-573 | the tail starts at the least fitting index, moved back over tool results only, to the nearest other message or the head |
| CompactionPlan.ComputePlan | internal/agent/compact.go:518-541 | the plan computed in the order of the source |
| CompactionPlan.PlanCutsWholeGroups | internal/agent/compact.go:518-573 | an accepted plan leaves prefix, region and tail each with whole call groups, and a region that is not empty |
| CompactionExact.PrefixExactly | internal/agent/compact.go:370-395 | the pinned prefix is the opening: a system prompt first, a brief user turn first or behind it, digests; the longest such run |
| CompactionExact.TailExactly | internal/agent/compact.go:518-573 | with a window the tail is the longest that is within 16384 tokens and half the window or as short as configured, moved back over results |
| CompactionExact.TailWithoutWindow | internal/agent/compact.go:536-541 | without one it is the configured number of messages, at least two, likewise moved back |
| CompactionExact.PinnableIsBrief | internal/agent/compact.go:387-395 | brief means at most 1500 tokens and at most fifteen hundredths of the window |
| CompactionFold.FindToolCaller | internal/agent/compact.go:490-502 | finds the nearest assistant message before a result that issued its call, or none |
| CompactionFold.KeepToolCallGroup | internal/agent/compact.go:444-459 | adds exactly the caller and the results that follow it to the marks |
| CompactionFold.SpreadToGroups | internal/agent/compact.go:428-440 | the in-place spreading loop marks exactly the wanted messages and the groups of wanted results |
| CompactionFold.KeepIndexes | internal/agent/compact.go:413-442 | the marks are exactly the kept messages, policy counting only since the latest digest |
| CompactionFold.PartitionFold | internal/agent/compact.go:401-411 | kept and folded are the two selections of the region by the keep flags |
| CompactionFacts.PositionsExact | internal/agent/compact.go:401-411 | the positions of a selection are exactly the flagged indices, increasing |
| CompactionFacts.SelectIsSubsequence | internal/agent/compact.go:401-411 | a selection is the subsequence at those positions |
| CompactionFacts.SelectConserves | internal/agent/compact.go:401-411 | kept and folded together are the region as a multiset |
| CompactionFacts.SelectKeepsDigests | internal/agent/compact.go:401-411 | no digest is folded and the kept digests stay in order |
| CompactionFacts.SmallUserTurnNeverFolded | internal/agent/compact.go:387-411 | a user turn of at most half the pin budget is in no folded part, for any ratio |
| CompactionFacts.ResultFollowsPredecessor | internal/agent/compact.go:413-459 | a tool result gets the verdict of the message before it, for every policy |
| CompactionFacts.SplitKeepsPairs | internal/agent/compact.go:401-459 | kept and folded parts of a region with whole groups have whole groups again |
| CompactionExact.RegionExactly | internal/agent/compact.go:401-459 | a message of the region stays exactly if it is a digest, a brief user turn, an error or marked turn since the latest digest that the policy keeps, or in the call group of such an error |
| CompactionExact.MarksAreSeen | internal/agent/compact.go:471-488 | results that begin with error: or blocked: and turns that begin with a keep mark are recognised, in any case and behind white space |
| CompactionExact.MarksAreExact | internal/agent/compact.go:471-488 | and nothing else is |
| CompactionExact.DigestExactly | internal/agent/compact.go:358-368 | a digest is a user message that begins with the opening tag behind line breaks and blanks |
| CompactionPass.SelectPlan | internal/agent/compact.go:201-212 | a plan is accepted exactly when anything lies between pinned prefix and tail, it is the one-message plan, and it cuts whole groups |
| CompactionPass.ComputeOutcome | internal/agent/compact.go:200-277 | the pass computed in the order of the source, including its early exits and the failed archive |
| CompactionPass.PassKeepsPairs | internal/agent/compact.go:200-277 | a pass over a well-paired history leaves one, for every policy, window, ratio and summary |
| CompactionPass.PassConserves | internal/agent/compact.go:212-277 | new log and folded part hold the old log and one digest, as multisets |
| CompactionPass.SpliceSplitsInOrder | internal/agent/compact.go:262-277 | without its new digest the new log is the kept messages in their old order; the folded part is the rest in order |
| CompactionPass.PassKeepsDigests | internal/agent/compact.go:212-277 | old digests survive in order and the new one stands where the region ended |
| CompactionPass.PassShrinks | internal/agent/compact.go:212-277 | an effective pass takes out at least one message that is no digest, and exactly the folded ones |
| CompactionPass.PassKeepsSmallUserTurns | internal/agent/compact.go:387-411 | a small user turn is never folded by a pass |
| CompactionExact.PassKeepsOpening | internal/agent/compact.go:262-277 | a pass leaves every message of the opening at its place |
| CompactionExact.PassKeepsPrompt | internal/agent/compact.go:370-382 | a pass leaves the system prompt first and a brief first user turn next to it |
| CompactionExact.PassExactly | internal/agent/compact.go:200-277 | a pass writes the messages of opening and tail and the staying ones of the region in order around its digest, and folds all others in order |
| CompactionExact.PassActsExactly | internal/agent/compact.go:212-250 | a pass acts exactly if something is to be folded and it is forced or at least 400 tokens, and fails exactly if it then cannot archive |
| CompactionExact.EstimatesAdd | internal/agent/compact.go:152-197 | the estimate adds up over messages and calls with their overheads |
| CompactionRuns.RunKeepsPairs | internal/agent/compact.go:200-277 | pairing survives every run of well-paired appends, passes and maintenance |
| CompactionRuns.RunConserves | internal/agent/compact.go:212-277 | over every run live plus folded is appended plus digests, up to tool-result contents when maintenance ran |
| CompactionRuns.RunNeverFoldsDigests | internal/agent/compact.go:358-411 | no run ever folds a digest again |
| CompactionRuns.RunNeverFoldsSmallUserTurns | internal/agent/compact.go:387-411 | no run ever folds a small user turn |
| CompactionRuns.RunAccountsForEveryMessage | internal/agent/compact.go:212-277 | message by message, how often it is live or folded, and that small user turns stay live |
| CompactionRuns.RunBoundsEffectivePasses | internal/agent/compact.go:212-277 | effective passes are at most the messages folded, which with the live ones are those appended |
| CompactionExact.PromptStays | internal/agent/compact.go:370-382 | over every continuation the system prompt stays first and a short first user turn next to it |
| CompactionOrder.RunKeepsOrder | internal/agent/compact.go:212-277 | over every run the live log is a weave of a subsequence of what was appended, in that order, and exactly the digests written |
| CompactionOrder.DigestsStayInOrder | internal/agent/compact.go:212-277 | the digests of any moment are still there at every later moment, in the same order |
| CompactionAgent.Agent.Compact | internal/agent/compact.go:200-283 | the pass in place: log, archive and events after each outcome |
| CompactionAgent.Agent.CompactAtTrigger | internal/agent/compact.go:118-145 | what a turn at the trigger does to log, latch and warnings |
| CompactionAgent.Agent.MaybeCompact | internal/agent/compact.go:85-146 | for each kind of turn what becomes of log and latch: unseen, noticed, snipped, cleared, paused, relieved by pruning, or compacted and counted |
| CompactionAgent.LatchStaysSound | internal/agent/compact.go:85-146 | over every run the latch is closed exactly when two passes ran in a row |
| CompactionAgent.AtMostTwoPassesBetweenClears | internal/agent/compact.go:134-145 | between two clears passes are counted by the latch, at most two, and the pause warning goes out once, when it closes |
| CompactionAgent.PassesExactly | internal/agent/compact.go:85-146 | between two clears exactly the first two turns that call for a pass get one |
| CompactionAgent.TriggerTurnsPass | internal/agent/compact.go:115-145 | k turns at the trigger from the open latch run k passes, at most two, with one warning at the second |
| CompactionAgent.ClearsExactly | internal/agent/compact.go:107-113 | the turns that reopen the latch and start the count anew |
| CompactionAgent.PruneClearsExactly | internal/agent/compact.go:118-132 | pruning saves a turn its pass exactly if it elided something, the turn is not forced and the estimate falls below the trigger |
| CompactionAgent.LatchOpensOnlyBelowTrigger | internal/agent/compact.go:94-113 | a closed latch opens exactly on a turn below the trigger, outside the snip band and not spent on the soft notice |
| CompactionAgent.TurnKeepsPairs | internal/agent/compact.go:85-146 | a turn of the controller leaves a well-paired log, whatever it decides |
| PromptTape.PageLimit | vscode-extension/app.go:3275-3283 | 50 for a missing limit, the maximum for one beyond it, any other limit itself |
| PromptTape.FlatSlice | vscode-extension/app.go:3369-3372 | a piece of one session is the piece of the flat list at the cursor's position |
| PromptTape.WalkedPage | vscode-extension/app.go:3360-3388 | a full page ends at its limit, one that ran off the last session at the end of the list |
| PromptTape.Tape.EntriesForSession | vscode-extension/app.go:3403-3426 | reads a session once; what the tape shows for any path is unchanged, unreadable files count as empty |
| PromptTape.Tape.ReadOlder | vscode-extension/app.go:3344-3388 | a page is the next entries of the flat list, its cursor stands right behind them, and only the last page is short |
| PromptTape.Tape.Scan | vscode-extension/app.go:3232-3248 | any client limit gives a page of a legal size that stops short only at the end |
| PromptTape.Tape.WalkAll | vscode-extension/app.go:3344-3401 | the same for pages of any positive size, along the cursors the pages return |
| PromptTape.Tape.ReadAll | vscode-extension/app.go:3390-3401 | terminates with every session once, in order, as at its first reading, even if files change meanwhile: the walk at the largest pages |
| HistoryPaging.PageTurns | vscode-extension/app.go:4113-4121 | 60 for a missing limit, the maximum for one beyond it, any other limit itself |
| HistoryPaging.VisibleHistoryUserTurns | vscode-extension/app.go:4363-4371 | counts the visible user turns |
| HistoryPaging.BeforeTurn | vscode-extension/app.go:4387-4402 | a message lies before the start of turn k exactly when at most k turns have started by then |
| HistoryPaging.ProviderMessagesForVisibleTurnRange | vscode-extension/app.go:4383-4404 | the messages of a turn range are one contiguous piece of the log, with its indexes |
| HistoryPaging.CheckpointTurnsForProviderWindow | vscode-extension/app.go:4406-4417 | re-indexes the checkpoints of the log to the page |
| HistoryPaging.PlannerTurnsByUserHash | vscode-extension/app.go:4419-4428 | queues the displayable planner turns per key |
| HistoryPaging.QueuesInOrder | vscode-extension/app.go:4419-4428 | each queue holds the turns of its key in their order |
| HistoryPaging.ToolResultsById | vscode-extension/app.go:4473-4482 | finds exactly the call ids with a result, each with the last result of that id |
| HistoryPaging.ResultsAreLast | vscode-extension/app.go:4473-4482 | the lookup used by the rendering holds exactly the last result of each id |
| HistoryPaging.RenderMessages | vscode-extension/app.go:4253-4323 | the rendering loop, with planner queues consumed from the front; what it shows at which place is WholeByPlace and PageByPlace |
| HistoryPaging.RenderIsRanked | vscode-extension/app.go:4253-4323 | any window of the log renders message by message, and a user message displays the turn of its queue that its rank among the window's messages of its key says |
| HistoryPaging.HistoryMessages | vscode-extension/app.go:4247-4251 | the whole rendering, with lookups over the whole log |
| HistoryPaging.RenderIsBlocks | vscode-extension/app.go:4253-4323 | without shared keys a window renders message by message, as in the whole log |
| HistoryPaging.HistoryPageFromProviderMessages | vscode-extension/app.go:4325-4361 | turn numbers, older flag and, for every log, the contents of a page: its messages with planner queues that are full at its edge |
| HistoryPaging.PageShowsItsTurns | vscode-extension/app.go:4325-4404 | a page shows exactly as many user bubbles as it has turns, since planner displays show none |
| HistoryEntries.OwnTells | vscode-extension/app.go:4262-4314 | the entry of a message field by field: text, checkpoint, submitted text, reasoning, citations, calls with their results, tool results, steer notices |
| HistoryEntries.PageByPlace | vscode-extension/app.go:4325-4361 | every message of a page stands at its place with the checkpoint of its index in the log, its planner display right behind it, and nothing else is shown |
| HistoryEntries.WholeByPlace | vscode-extension/app.go:4247-4323 | the whole rendering likewise |
| HistoryWalk.BlocksTellDisplays | vscode-extension/app.go:4287-4321 | two renderings of a log that are equal have equal displays under every message |
| HistoryWalk.PagingAgreesExactly | vscode-extension/app.go:4315-4361 | all pages together are the whole rendering exactly if every user message's rank in its page leads to the display that its rank in the log leads to |
| HistoryWalk.DisplayableAgrees | vscode-extension/app.go:4315-4361 | so they are when no two user messages share a key with a planner display |
| HistoryWalk.OnePageAgrees | vscode-extension/app.go:4325-4361 | and when the limit is at least the number of turns |
| HistoryWalk.WalkBack | vscode-extension/app.go:4325-4361 | walking the pages back, at any limit, gives the whole rendering exactly if every user message has the same display in its page as in the log; with no visible turn, exactly if that is empty |
| HistoryWalk.SharedKeyBreaksPaging | vscode-extension/app.go:4316-4320 | one text sent twice, paged turn by turn, renders the same exactly if its first two planner turns display the same; with a single planner turn it never does |
| CheckpointPreview.SmallestUnique | vscode-extension/app.go:1862-1882 | only one list is the ordered smallest k of a set |
| CheckpointPreview.InsertKeepsSmallest | vscode-extension/app.go:1862-1882 | inserting keeps the list the smallest k of the grown set, and never lists the empty path |
| CheckpointPreview.Preview.Search | vscode-extension/app.go:1866 | binary search for the place of a path |
| CheckpointPreview.Preview.Insert | vscode-extension/app.go:1862-1882 | the in-place insertion, its early exits and the path it pushes out |
| CheckpointPreview.Checkpoints | vscode-extension/app.go:1812-1860 | every entry lists the 60 smallest paths touched from there on, their exact number, and whether code can be rewound |
| CheckpointPreview.SummaryTells | vscode-extension/app.go:1826-1858 | a summary field by field, over its checkpoint and all later ones |
| CheckpointPreview.LessExactly | vscode-extension/app.go:1862-1882 | paths are ordered byte by byte, a prefix first |
| CheckpointPreview.TouchedIsUnion | vscode-extension/app.go:1837-1853 | the set carried backward is the union over this and all later checkpoints |
| CheckpointPreview.TruncatedExactly | vscode-extension/app.go:1857 | the truncation mark is up exactly for more than 60 named paths or an unnamed one |
| CheckpointPreview.CountsFall | vscode-extension/app.go:1837-1858 | a later entry never counts more files, nor can code where an earlier one cannot |
| MediaTokens.MediaTokenStore.Cleanup | vscode-extension/app.go:236-257 | leaves exactly the unexpired tokens in order, each with its entry |
| MediaTokens.MediaTokenStore.Trim | vscode-extension/app.go:252-256 | cuts the order to the newest maxN |
| MediaTokens.MediaTokenStore.Create | vscode-extension/app.go:259-292 | the unexpired tokens and the new one, the newest maxN of them, with entries unchanged |
| MediaTokens.MediaTokenStore.Get | vscode-extension/app.go:294-306 | the entry up to the moment of its expiry, and what goes when it is asked for later |
| MediaTokens.MediaTokenStore.UsableExactly | vscode-extension/app.go:236-306 | a token is live exactly if it has not expired and fewer than maxN were made after it |
| MediaTokens.MediaTokenStore.VisibleIsLive | vscode-extension/app.go:294-306 | what a caller can get is what is live, in spite of lazy deletion from both sides |
| MediaTokens.LiveIsTail | vscode-extension/app.go:236-251 | at any time the expired tokens are a prefix of the order |
| MediaTokens.CreateEvictsOnlyOldest | vscode-extension/app.go:286-290 | only a full store loses an unexpired token, and only the oldest |
| RpcCorrelation.Conn.Take | internal/acp/server.go:250-258 | looks a reply's channel up and takes it out in one section |
| RpcCorrelation.Conn.NewId | internal/acp/server.go:285 | a request takes the next id |
| RpcCorrelation.Conn.AddPending | internal/acp/server.go:287-289 | lists the channel under the id and changes nothing else |
| RpcCorrelation.Conn.RemovePending | internal/acp/server.go:290-294 | takes the id off the list and changes nothing else |
| RpcCorrelation.Conn.Drain | internal/acp/server.go:324-329 | every pending channel gets the closing error once, none is found full, nothing stays pending |
| RpcRuns.StepKeeps | internal/acp/server.go:250-331 | the correlation invariant of requesters, frames, channels and pending map is kept by every step |
| RpcRuns.NoSendBlocks | internal/acp/server.go:263-267 | over every interleaving no channel is sent to twice, so no send ever blocks |
| RpcRuns.RepliesMatch | internal/acp/server.go:280-308 | a returned reply bears the request's own id, and ids are never shared |
| RpcHistory.ReceivesWhatWasSent | internal/acp/server.go:250-303 | a request that received a value returns exactly the one ever sent to its channel: a frame that was read, or the closing error if the shutdown found it listed |
| RpcHistory.OneSend | internal/acp/server.go:263-267 | two sends to one channel are one |
| RpcHistory.OutcomeIsChosen | internal/acp/server.go:296-307 | every outcome comes from the request's own exit: a failed write, a received value, a cancellation, or a connection seen closed |
| RpcHistory.ReplyIsDelivered | internal/acp/server.go:250-308 | a frame with the id of a listed waiting request is taken, sent, received and returned |
| RpcRuns.NoReplyIsLost | internal/acp/server.go:255-267 | a waiting request is still listed, or has a value in its channel or on its way |
| RpcRuns.NobodyIsLeftWaiting | internal/acp/server.go:300-331 | after the close every waiting request can return, and a drained one finds its value |
| RpcRuns.LateAndRepeatedRepliesAreDropped | internal/acp/server.go:255-261 | once a value was sent or the request returned, a frame with its id changes nothing |
| DeferredRebuild.DeferredRebuildState.StartLoopLocked | vscode-extension/deferred_rebuild.go:46-56 | starts a loop exactly when armed, idle, not stopped and with work |
| DeferredRebuild.DeferredRebuildState.Enable | vscode-extension/deferred_rebuild.go:35-41 | arms the retry and starts the loop for what was already pending |
| DeferredRebuild.DeferredRebuildState.Schedule | vscode-extension/deferred_rebuild.go:61-76 | records the latest label of a named tab and starts the loop, nothing after the stop |
| DeferredRebuild.DeferredRebuildState.Stop | vscode-extension/deferred_rebuild.go:95-106 | stops for good and closes the channel at most once |
| DeferredRebuild.DeferredRebuildState.TickDone | vscode-extension/deferred_rebuild.go:130-147 | ends the loop exactly when stopped or out of work, in the section that finds it so |
| DeferredRebuild.StepSound | vscode-extension/deferred_rebuild.go:36-147 | every step keeps one loop at most, and one exactly while running is set |
| DeferredRebuild.NoLostWakeUp | vscode-extension/deferred_rebuild.go:36-147 | over every interleaving armed, unstopped pending work has a live loop, and never two |
| DeferredRebuild.PendingIsLastAsked | vscode-extension/deferred_rebuild.go:58-84 | a tab is pending with a label exactly if the last step about it, before any stop, asked for it with that label |
| DeferredRebuild.FlagsTell | vscode-extension/deferred_rebuild.go:35-106 | armed and stopped exactly if some step armed or stopped it |
| DeferredRebuild.TickRetriesEvery | vscode-extension/deferred_rebuild.go:128-147 | a tick that finds work retries every pending tab and leaves those whose attempt is not over for good |
| DeferredRebuild.NothingStartsAfterStop | vscode-extension/deferred_rebuild.go:46-106 | after the stop no loop starts, nothing is scheduled, the channel stays as it is |
| DeferredRebuild.LoopEndsAfterStop | vscode-extension/deferred_rebuild.go:108-136 | after the stop every step brings a live loop closer to its end |
| Heartbeat.PreviousHeartbeatWeeklyAt | vscode-extension/heartbeat.go:641-662 | the nested loops compute the latest asked-for instant of the window |
| Heartbeat.LatestOfIs | vscode-extension/heartbeat.go:641-662 | that instant has come, and no asked-for instant lies between it and now |
| Heartbeat.WeeklyFailsExactly | vscode-extension/heartbeat.go:641-662 | weekly finds nothing exactly when today is the only listed weekday and its time has not come |
| Heartbeat.BiweeklyFailsExactly | vscode-extension/heartbeat.go:766-777 | biweekly finds nothing exactly then, in a counting week |
| Heartbeat.WeeksAlternate | vscode-extension/heartbeat.go:766-777 | of two days a week apart exactly one is in a counting week |
| Heartbeat.WeekStartExactly | vscode-extension/heartbeat.go:766-770 | weeks run from Monday to Sunday |
| Heartbeat.BiweeklyCountsFrom | vscode-extension/heartbeat.go:682-690 | a biweekly rule runs in the week of creation, or else of the last run, and every other week from there |
| Heartbeat.AtIsClockTime | vscode-extension/heartbeat.go:615-662 | an instant is the rule's clock time on its day |
| Heartbeat.HeartbeatTaskDueAt | vscode-extension/heartbeat.go:474-515 | the due decision with its calendar path and its interval fallback |
| Heartbeat.ExchangedWindowsSplitTheDay | vscode-extension/heartbeat.go:517-549 | a time window and the one with its bounds exchanged split the day, and equal bounds leave it open |
| Heartbeat.WindowExactly | vscode-extension/heartbeat.go:517-549 | a window is the stretch of the clock face from its start forward to its end; one bound reaches to or from midnight |
| Heartbeat.PreviousIsLatest | vscode-extension/heartbeat.go:615-662 | daily, weekly and biweekly rules answer the latest asked-for instant, however far one looks back |
| Heartbeat.DueExactlyWhenOwing | vscode-extension/heartbeat.go:474-483 | on the calendar path due means that some asked-for instant has come since creation and since the last run |
| Heartbeat.DueEarlyExactly | vscode-extension/heartbeat.go:474-515 | a task is due with no instant owed exactly when today is its only listed day, in a counting week, its time is still ahead, the interval rule says due, and it was created or run since its last instant |
| Heartbeat.LongIntervalsNeverRunEarly | vscode-extension/heartbeat.go:474-515 | an interval of at least the period never runs early, unless the creation time lies after the last run |
| Heartbeat.ShortIntervalsRunEarly | vscode-extension/heartbeat.go:474-515 | every shorter interval does for a one-day weekly rule that ran at last week's instant |
| Heartbeat.DailyCycleOnMondaysRunsAtMidnight | vscode-extension/frontend/src/custom/features/heartbeat/HeartbeatPanel.tsx:632-660 | the rule the panel writes for a daily cycle on Mondays, run last Monday at nine, is due this Monday at midnight |
| Heartbeat.NeverRunTaskIsDueEarly | vscode-extension/heartbeat.go:485-515 | when nothing is found, a weekly or biweekly task with neither creation time nor run is due exactly if its interval and window allow |
| Heartbeat.InstantBetweenRuns | vscode-extension/heartbeat.go:474-483 | between any recorded run and a later calendar run lies an asked-for instant |
| Heartbeat.IntervalRunsAreSpaced | vscode-extension/heartbeat.go:485-503 | two runs of an interval task, the later not by hand, are at least the interval apart |
| Heartbeat.IntervalComesDue | vscode-extension/heartbeat.go:485-515 | and it is due exactly once the interval since its last run has passed, inside its window |

## Left out

- Config switches that race: which of two queued configs is installed last; a deferred apply can queue an older one again.
- `session/close` does not forbid a later turn or rebuild on the closed object; the protocol has such runs and no theorem excludes them.
- File removal by `session/delete`, cleanup marks and the destroy handle; after several recoveries some files of an id remain.
- The ordering of protocol notifications, prompts' texts, MCP server specs, titles; cancellation only as an earlier end of a turn.
- Snip and prune of tool results: the new texts are arbitrary, only roles, ids and calls stay; `SummarizeFrom` and `SummarizeUpTo`.
- CompactionPass.ComputeOutcome: the summary text and its retry are one arbitrary digest, because the model call is outside; hooks and frontend cards other than the two compaction events are not modelled.
- Text tests on messages are ASCII: `TrimSpace` and `ToLower` know no Unicode classes.
- AcpForeign.AgreesExactlyUnlessTainted: a recovery onto a file used before may bring report and controller together again by chance; for runs with one only the direction of AcpPaths.PathAgreement is stated.
- AcpRedirect.LookupFollowsLastWrite: recovery files are base names without blanks around them in the session directory, as the controller makes them; all transcripts end in `.jsonl`.
- JSON, base64 and hex encodings: cursors and sidecars are their decoded values; a cursor always encodes.
- Ordering of prompt-history sessions when a tape is made, and the legacy nonce request.
- The preview pages over already rendered messages (`historyPageFromMessages`): the same slicing over another list.
- Texts of rendered tool calls, display resolution and todo replay are arbitrary functions of the log.
- HistoryWalk.WalkBack: planner displays that hold user bubbles, which the recorder never writes; for them a rendering can come out equal with other displays, and only the direction that needs no such premise is stated.
- MediaTokens.MediaTokenStore.Create: randomness is a token never made before; the clock does not run backward.
- Inbound requests and notifications, framing and the size cap of the JSON-RPC connection; a write is one step that succeeds or fails.
- The rebuild attempt inside a retry: it may clear its entry or leave it; the tick interval.
- Parsing of interval strings; monthly and yearly rules; daylight-saving changes and time zones other than a fixed offset; execution of a due run except for what it records.
