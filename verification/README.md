# JulyCode: a verified model

JulyCode is a terminal coding agent. It talks to a model in turns, runs tools, keeps its
conversation within a token budget, resumes sessions from an append-only log, and can run a team
of agents whose work is merged into an internal Git branch and published to the user's branch in
one step. This project models the parts of it where a crash, an interleaving or a budget makes
correctness hard to see, and proves what they promise.

Run `dafny verify dfyconfig.toml` to check everything.

**Team integration** (`TeamModels`, `TeamTasks`, `GitGraph`, `IntegrationChain`,
`IntegrationProtocol`, `IntegrationSafety`, `IntegrationCompletion`, `IntegrationWitnesses`,
`IntegrationService`, `IntegrationFile`, `IntegrationPersistence`, `TaskOrder`). Merging a task and
publishing a round are write-ahead protocols over a JSON file, Git and the task list. A *world* is
what survives a crash; an *action* is one write, one Git change, one claim or completion of a task,
or anything that others do to the user's branch (the Lead), the members' trees and the tasks. One
inductive invariant ties the branch head, the recorded head, the accepted records, the intent, the
phase, the tasks and the log of the Lead's moves together, so it holds at every crash point of every
interleaving. The class `TeamIntegrationService` performs the operations as runs of these actions,
with Git free to fail and others free to act in between; a restart is a new object on the last world.

**Matching** (`Matching`, `MemoryExtraction`, `TextNormalizer`). The evaluation pairs extracted with
expected memories by augmenting paths over an owner map and a visited set that are updated in place.
Texts are compared after normalisation.

**Conversation history** (`ChatHistory`, `Recovery`, `Segmenter`, `LargestFirst`, `Compactor`,
`ContextManager`, `AgentLoop`, `SessionStore`, `Session`). One predicate, *safe*, says that every
message with tool calls is followed at once by exactly its results and that no result stands anywhere
else. It is carried through truncation, forking, light and heavy compaction, the agent loop and the
replay of the session log. A turn, a restore and a compaction are runs of the session's operations,
so what is proved of all runs holds for each of them.

**Delivery and approvals** (`Delivery`, `MemberSession`, `Dispatcher`, `DeliveryWitnesses`,
`Approvals`). Outboxes are flushed into mailboxes at least once and received idempotently; mailboxes
are read into the members' sessions, which are the sessions above, and acknowledged afterwards.

**Repository map** (`RepoGraph`, `Ranking`, `RankingLimit`, `Caches`, `Renderer`). A weighted
PageRank over real numbers and what it converges to, a weight-bounded cache, and greedy rendering into a budget.

Shared pieces: `Wrappers` (`Option`, `Result`), `Json`, `Seqs`.

## Where the code falls short

Where the code and what one might expect of it differ, the code is modelled, a concrete input is
given, and the exact condition is proved:

- A completed task that is not accepted: `IntegrationWitnesses.CompletedButNotAccepted`; exactly when
  the branch contains the commit already, `IntegrationCompletion.StrandedIffContained`.
- Accepted work archived as not needed: `IntegrationWitnesses.AcceptedWorkLeftBehind`; exactly when
  nothing but completed research is left of the round, and then every accepted attempt has been
  deleted or started over, `IntegrationSafety.UnneededLeavesWorkIff`,
  `IntegrationSafety.UnneededWorkWasGone`.
- A state file that its own parser refuses: `IntegrationWitnesses.UnreadableFile`; exactly when
  recovery archives and its summary then fails, `IntegrationSafety.StatesAreWellFormed`.
- Turns that a restart forgets: `Session.TruncatedRestoreForgetsTheRest`, `Session.LaterTurnsAreLost`;
  exactly without a checkpoint, and after a cut-off turn without a summary that reaches behind the
  unanswered call, `Session.TruncatedRestoreReplaysIff`, `ContextManager.SummarisingRepairsIff`.
- A message that enters a session twice: `DeliveryWitnesses.ForgottenUnreadEntersTwice`; exactly when a
  restart finds it in the session, unacknowledged and not given back by the log,
  `Delivery.EntersAgainIff`, `Delivery.ForgottenEntersTwice`.
- An acknowledged message that its session has lost: `DeliveryWitnesses.AcknowledgedThenForgotten`;
  exactly when a restart does not give it back or a heavy compaction summarises it, `Delivery.LostIff`.
- A miscounted critical memory: `MemoryExtraction.AmbiguousKeyMiscounts`; exactly when expectations
  with one key disagree, `MemoryExtraction.CountsCriticalIff`, `TextNormalizer.LoadedCountsCriticalIff`.
- A log line that is counted as skipped and wipes the messages:
  `SessionStore.HalfReadableCheckpointWipes`; exactly for a checkpoint with readable messages and an
  unreadable summary, `SessionStore.SkippedLineIsInert`.

## What is assumed

A merge either makes a commit with exactly the two parents, leaves the branch, or stops in the
middle; a fast-forward succeeds only from an ancestor; nobody else touches an integration worktree.
Others may create, change, start over and delete tasks, but only the service completes a code task,
a task keeps its kind and an id is not used again, a claim is recorded while its round is still the
current one, and a member makes one call at a time, so that its task is not claimed anew while its
merge is under way. The tool scheduler returns one result per call; hashes are injective and
random ids are new; failure texts that are persisted are not blank; a locked read-modify-write of a
file is one step; a blank takes no part in Unicode composition. Clocks, token estimators, the model
and the network are parameters or arbitrary values.

## Model

| member | source | states |
|---|---|---|
| Matching.ExpectedOwners.Augment | eval/memory_quality/matching.py:119-133 | a successful search gives one more prediction an entry and takes none away; a failing one changes no owner and leaves a visited set that is closed and fully owned |
| Matching.FailedSearchKeepsMaximum | eval/memory_quality/matching.py:31-33 | after a failing search the owners are still a maximum matching with the new prediction allowed: any rival is rerouted through the closed visited set |
| Matching.AugmentingKeepsMaximum | eval/memory_quality/matching.py:31-33 | after a successful search the owners are a maximum matching one larger |
| Matching.MaximumMatching | eval/memory_quality/matching.py:31-33 | the owner map built over all predictions is a matching that no other matching exceeds |
| Matching.MaximumOnEachSide | eval/memory_quality/matching.py:106-108 | when no prediction has edges into both parts of a split, a maximum matching is maximum on each part |
| MemoryExtraction.Match | eval/memory_quality/matching.py:21-60 | the reported pairs come from a maximum matching along the match relation, and the leftovers are exactly the unpaired predictions and expectations |
| MemoryExtraction.ReportAccountsForAll | eval/memory_quality/matching.py:34-60 | hits plus false positives are the predictions, hits plus false negatives are the expectations |
| MemoryExtraction.CriticalHitsAreMaximum | eval/memory_quality/matching.py:106-108 | no pairing along the match relation meets more critical expectations than the reported one |
| MemoryExtraction.CriticalAccounting | eval/memory_quality/matching.py:71-86 | with unambiguous keys, critical hits and misses add up to the critical predictions and expectations |
| MemoryExtraction.KeyLookupIsSound | eval/memory_quality/matching.py:73-74 | looking the critical flag up by key is right for every entry exactly when entries that share a key agree |
| MemoryExtraction.CountsCriticalIff | eval/memory_quality/matching.py:71-86 | over all predictions and pairings, the critical hits are counted rightly exactly when expectations of a case that share a key agree on whether they are critical |
| MemoryExtraction.LoadedCanBeMet | eval/memory_quality/loader.py:144-168 | some prediction meets any expectation that the loader accepts, if normalising a text keeps its parts that blanks set apart |
| TextNormalizer.NormalizingKeepsParts | eval/memory_quality/matching.py:140-143 | folding, dropping punctuation, collapsing spaces and stripping keep every part of a text that blanks set apart |
| TextNormalizer.LoadedCountsCriticalIff | eval/memory_quality/matching.py:71-86 | so for every case that the loader accepts, and all predictions and pairings, the critical hits are counted rightly exactly when expectations that share a key agree |
| MemoryExtraction.AmbiguousKeyMiscounts | eval/memory_quality/matching.py:73-74 | a case that the loader accepts, with a repeated key: the report of the best pairing counts a critical expectation that was met as none |
| MemoryExtraction.AggregateExtractionMetrics | eval/memory_quality/matching.py:63-103 | the six counts are the sums over all results, and F1 is 2tp over 2tp+fp+fn with all its zero cases |
| MemoryExtraction.HarmonicMean | eval/memory_quality/matching.py:146-151 | the harmonic mean of precision and recall, zero divisions included, is the count ratio |
| MemoryExtraction.TotalsAccount | eval/memory_quality/matching.py:63-103 | over any number of evaluated cases the totals account for every prediction and expectation, overall and critical |
| MemoryExtraction.ScoresAreBest | eval/memory_quality/matching.py:21-60 | over any number of cases no rival pairing of the same predictions scores more hits, overall or critical |
| Ranking.StepTotal | src/julycode/repo_map/graph.py:120-136 | one iteration keeps 0.15 plus 0.85 of the total rank, less what weightless edges swallow |
| Ranking.ConservedUnlessDead | src/julycode/repo_map/graph.py:120-136 | from total one the total stays one exactly when nothing is swallowed, which positive weights guarantee |
| Ranking.IteratesAreDistributions | src/julycode/repo_map/graph.py:111-138 | every iterate sums to one and gives every node at least 0.15/n |
| Ranking.StepContracts | src/julycode/repo_map/graph.py:120-136 | one iteration brings any two score assignments closer by the factor 0.85 |
| Ranking.DeltaShrinks | src/julycode/repo_map/graph.py:137-140 | the change made by iteration k+1 is at most 2 times 0.85 to the k |
| Ranking.StationaryIsUnique | src/julycode/repo_map/graph.py:120-136 | at most one assignment of scores is left alone by an iteration |
| Ranking.DistanceToStationary | src/julycode/repo_map/graph.py:120-140 | after k iterations the scores are within 2 times 0.85 to the k of any stationary distribution |
| Ranking.StoppingError | src/julycode/repo_map/graph.py:137-140 | the last change bounds the remaining error |
| Ranking.NextScores | src/julycode/repo_map/graph.py:121-136 | the loops of one iteration compute the specified step |
| Ranking.PowerIteration | src/julycode/repo_map/graph.py:120-140 | the loop returns the first iterate whose change is small, or the last allowed one |
| Ranking.PageRank | src/julycode/repo_map/graph.py:108-141 | no scores without nodes; otherwise between 1 and 50 iterations, stopping at the first small change |
| RankingLimit.StationaryExists | src/julycode/repo_map/graph.py:120-136 | every graph with positive weights has scores that an iteration leaves alone |
| RankingLimit.StationaryIsDistribution | src/julycode/repo_map/graph.py:120-136 | they are a distribution, and give every node at least 0.15/n |
| RankingLimit.IteratesConverge | src/julycode/repo_map/graph.py:120-140 | with enough iterations the scores come as close to them as one likes |
| RankingLimit.RankingQuality | src/julycode/repo_map/graph.py:108-141 | a returned ranking is a distribution, gives every node its share, and is provably close to the one stationary distribution, which exists |
| RepoGraph.ImportTargetMeans | src/julycode/repo_map/graph.py:38-46 | an import stands for a file exactly when it is the only file of that module, or the only one in the module that defines the symbol, once, or, if no single file defines it, the only submodule of that name |
| RepoGraph.AccumulatedMeans | src/julycode/repo_map/graph.py:54-72 | accumulated weights are the sums over the links with that key, and keys exist exactly for links |
| RepoGraph.LinksSound | src/julycode/repo_map/graph.py:29-72 | every link joins two different files of the input and weighs something |
| RepoGraph.CollectWeights | src/julycode/repo_map/graph.py:27-72 | the nested loops accumulate exactly the links of all files |
| RepoGraph.Build | src/julycode/repo_map/graph.py:15-79 | the edges are exactly the accumulated links, never self-loops, with endpoints among the nodes and positive weights, and the scores are a stopped iterate of them |
| TaskOrder.TopologicalTasks | src/julycode/teams/integration.py:594-611 | succeeds with every task once, dependencies inside the set first and ties in key order; fails exactly when the dependencies have a cycle |
| TaskOrder.StuckHasCycle | src/julycode/teams/integration.py:598-608 | when no remaining task is ready, walking along unfinished dependencies runs into a cycle |
| TaskOrder.Pigeonhole | src/julycode/teams/integration.py:598-608 | a walk longer than the set it stays in visits something twice |
| TaskOrder.OrderIsUnique | src/julycode/teams/integration.py:599-610 | the result does not depend on the order in which the sets are visited |
| ChatHistory.SafeIffPaired | src/julycode/memory/recovery.py:28-64 | whole units in a row, or every call answered and every result called for: the same histories |
| ChatHistory.SafeAppend | src/julycode/memory/recovery.py:28-44 | behind a safe history safety is decided by what follows |
| ChatHistory.SafeLengthIsLongest | src/julycode/memory/recovery.py:28-44 | no longer prefix than the kept one is safe |
| ChatHistory.DanglingCallEndsSafety | src/julycode/memory/recovery.py:35-40 | a call without its results ends the safe part for good, whatever follows |
| ChatHistory.ShapeDecidesSafety | src/julycode/memory/recovery.py:28-64 | contents do not matter to the rule, only roles, calls and result ids |
| ChatHistory.FullGroupIsSafe | src/julycode/memory/recovery.py:46-64 | one result for each call, in any order, completes a unit |
| Recovery.CompleteToolGroup | src/julycode/memory/recovery.py:46-64 | returns the call with its results exactly when the calls are answered right behind it, each once |
| Recovery.NextUnit | src/julycode/memory/recovery.py:31-43 | takes one unit, or says which of the two faults starts here |
| Recovery.TruncateToProtocolSafe | src/julycode/memory/recovery.py:28-44 | returns the longest safe prefix, the number of dropped messages, and a warning exactly when something is dropped, naming the fault |
| Recovery.TruncationIsBest | src/julycode/memory/recovery.py:28-44 | the kept prefix is safe, no longer one is, and truncating again changes nothing |
| Recovery.SafeForkMessages | src/julycode/subagents/runtime.py:244-248 | drops exactly the trailing messages with calls |
| Recovery.ForkIsSafe | src/julycode/subagents/runtime.py:244-248 | a fork is safe exactly when trailing calls were all that was wrong with the history |
| Recovery.RepairsDropTheDanglingCall | src/julycode/subagents/runtime.py:244-248 | both repairs remove exactly the last message of a history cut off in its tool phase |
| Segmenter.Split | src/julycode/context/segmenter.py:20-44 | each segment is one message with all the results that belong to it, with its token estimate |
| Segmenter.SplitIsPartition | src/julycode/context/segmenter.py:20-44 | joining the segments gives back the history, and no segment is empty |
| Segmenter.SegmentsAreSafe | src/julycode/context/segmenter.py:20-44 | in a safe history every segment is safe on its own |
| Segmenter.CutsAreSafe | src/julycode/context/segmenter.py:46-65 | wherever a safe history is cut between segments, both halves are safe |
| Segmenter.SelectRecent | src/julycode/context/segmenter.py:46-65 | keeps the shortest run of latest segments that meets both minimums, or everything |
| LargestFirst.HeaviestLeaveLeast | src/julycode/context/compactor.py:43-52 | taking the k heaviest items leaves no more than taking any k items |
| LargestFirst.FewestItems | src/julycode/context/compactor.py:43-52 | no smaller set of items brings the rest under a limit that k-1 heaviest items miss |
| Compactor.ToolResultGroups | src/julycode/context/compactor.py:90-110 | finds exactly the non-empty runs of results behind messages with calls, in order and apart |
| Compactor.MoveHeaviest | src/julycode/context/compactor.py:43-52 | moves the heaviest candidates one by one and stops at the first total within the limit |
| Compactor.ShrinkGroup | src/julycode/context/compactor.py:38-52 | the group fits afterwards, and no set of fewer results would have made it fit |
| Compactor.ExternalizeLarge | src/julycode/context/compactor.py:28-36 | moves exactly the results that exceed the single limit |
| Compactor.Compact | src/julycode/context/compactor.py:24-57 | moves every oversized result and, per group, a smallest further set that suffices; reports and records exactly what it moved |
| Compactor.CompactedFits | src/julycode/context/compactor.py:24-57 | afterwards no result exceeds the single limit and no group the turn limit |
| Compactor.FitsIsLeftAlone | src/julycode/context/compactor.py:24-57 | a second compaction moves nothing |
| Compactor.CompactionKeepsProtocol | src/julycode/context/compactor.py:59-76 | roles, ids and order are untouched, safety is the same before and after, and the log can still be replayed |
| ContextManager.WithOptionalContext | src/julycode/context/manager.py:148-195 | optional blocks are added only where the whole request fits, behind unchanged base blocks; the factory is asked at most twice, the second time for strictly less |
| ContextManager.CutIsSafe | src/julycode/context/manager.py:356-369 | the summarised and the kept half together are the history, and both are safe if it was |
| ContextManager.SummarizeSegments | src/julycode/context/manager.py:345-369 | on success the kept half replaces the history, the failures are forgotten and a checkpoint is written; otherwise nothing changes |
| ContextManager.PrepareRequest | src/julycode/context/manager.py:51-146 | with context management enabled, either a refusal or a request within the budget, with the session's new state given for every outcome; the return after a failed summary is unreachable |
| ContextManager.ManualCompact | src/julycode/context/manager.py:197-262 | every outcome of a compaction on demand and the session it leaves |
| ContextManager.PreparingKeepsProtocol | src/julycode/context/manager.py:51-146 | whatever comes of it, safety and replayability are kept, a granted request fits, and a summary accounts for every message |
| ContextManager.ManualCompactionKeepsProtocol | src/julycode/context/manager.py:197-262 | the same for a compaction on demand, which shortens the history when it summarises |
| AgentLoop.CountIds | src/julycode/agent.py:456-486 | a message has as many call ids as calls exactly when no id repeats |
| AgentLoop.ToolRoundIsSafe | src/julycode/agent.py:456-486 | a finished tool phase leaves a safe history exactly when the model used no call id twice |
| AgentLoop.RunIteration | src/julycode/agent.py:260-487 | every way through the loop body, from whatever session, is a run of its operations and leaves it as its outcome promises; tools run only before the last iteration |
| AgentLoop.RunTurn | src/julycode/agent.py:230-515 | whatever session it finds, a turn is a run of the session's operations; a safe session stays safe, except when the turn is cut off in the tool phase: then one message with unanswered calls is at the end; a log that replays still does |
| AgentLoop.CutOffTurnIsRepaired | src/julycode/memory/recovery.py:28-44 | restoring or forking a cut-off session drops exactly that last message |
| AgentLoop.NextTurnIsLost | src/julycode/agent.py:473-478 | after a turn that was cut off, the next turn of the same process leaves the session unsafe and a restart would keep none of it, unless a heavy compaction happens in it |
| Session.LaterTurnsAreLost | src/julycode/agent.py:473-478 | the same for any run of operations, checkpoints included |
| ContextManager.SummarisingRepairsIff | src/julycode/context/manager.py:356-369 | a summary makes such a history safe again exactly when its cut falls behind the unanswered call |
| SessionStore.MessageRoundTrip | src/julycode/memory/session_store.py:198-264 | reading a written message gives it back |
| SessionStore.SummaryRoundTrip | src/julycode/memory/session_store.py:267-285 | reading a written summary gives it back |
| SessionStore.ReadState | src/julycode/memory/session_store.py:137-173 | the loop over the lines computes the fold that the lemmas speak about |
| SessionStore.MessageReadsBack | src/julycode/memory/session_store.py:157-161 | a logged message is appended on reading |
| SessionStore.CheckpointReadsBack | src/julycode/memory/session_store.py:162-167 | a logged checkpoint replaces messages and summary on reading |
| SessionStore.SkippedLineIsInert | src/julycode/memory/session_store.py:149-172 | a skipped line has no effect but the count exactly when it is not a checkpoint with readable messages and an unreadable summary |
| SessionStore.BadLineOnlyCounts | src/julycode/memory/session_store.py:171-172 | an unreadable line inserted anywhere in a log changes nothing but the skipped count |
| SessionStore.HalfReadableCheckpointWipes | src/julycode/memory/session_store.py:166-167 | a checkpoint line that is counted as skipped although it has replaced the messages |
| Session.ChatSession.constructor | src/julycode/session.py:28-33 | a new session is empty and its log replays |
| Session.ChatSession.AppendMessage | src/julycode/session.py:35-45 | an append goes to the messages and the log together |
| Session.ChatSession.AppendAssistantMessage | src/julycode/session.py:41-45 | appends an assistant's message and refuses any other |
| Session.OpKeepsReplayable | src/julycode/session.py:35-72 | appends, light and heavy compactions keep the log able to rebuild the session |
| Session.EveryRunReplays | src/julycode/session.py:35-72 | after any run the log gives back the summary and the messages, up to results moved to files since the last checkpoint |
| Session.PlainRunReplaysExactly | src/julycode/session.py:35-72 | without light compactions it gives them back exactly |
| Session.RestoreSession | src/julycode/memory/recovery.py:126-134 | loads the session from its log and keeps the longest safe part; the log is left as it is |
| Session.TruncatedRestoreReplaysIff | src/julycode/memory/recovery.py:131-134 | after a restore that dropped something, whatever operations follow, the log rebuilds the session again exactly when one of them wrote a checkpoint |
| Session.TruncatedRestoreForgetsTheRest | src/julycode/memory/recovery.py:131-134 | after such a restore, a session that is safe survives the next restart exactly when a checkpoint was written or nothing was appended since |
| Session.RestoreKeepsAll | src/julycode/memory/recovery.py:126-134 | a safe session whose log rebuilds it is restored whole |
| TeamModels.UpdateKeepsWellFormed | src/julycode/teams/integration.py:63-67 | writing the current round back keeps the state acceptable to the strict parser |
| TeamModels.AssignKeepsWellFormed | src/julycode/teams/integration.py:123-147 | so does a new round under the next number |
| TeamModels.ArchiveKeepsWellFormed | src/julycode/teams/integration.py:365-368 | so does moving the current round to the history |
| TeamModels.ResurrectedRoundIsRefused | src/julycode/teams/models.py:514-518 | the strict parser refuses a current round that carries the number of the last archived one |
| GitGraph.AncestorTransitive | src/julycode/worktrees/git.py:129-136 | ancestry is transitive |
| GitGraph.AncestorAppend | src/julycode/worktrees/git.py:129-136 | new commits change no ancestry among old ones |
| GitGraph.MergeHasBoth | src/julycode/worktrees/git.py:161-170 | both parents of a merge are its ancestors |
| IntegrationChain.ChainIsUnbroken | src/julycode/teams/integration.py:278-296 | every accepted record starts where the one before it ended, the first at the base |
| IntegrationChain.ChainContains | src/julycode/teams/integration.py:278-296 | the head of the chain contains the base and the commit of every accepted task |
| IntegrationChain.LogIsTheRecordedMerges | src/julycode/teams/integration.py:278-296 | the first-parent history from the base to the head is exactly the recorded merges, in order |
| IntegrationProtocol.PutKeeps | src/julycode/teams/integration.py:63-67 | one write of the current round keeps the whole invariant if it fits Git and the tasks |
| IntegrationProtocol.AcceptKeeps | src/julycode/teams/integration.py:278-296 | recording a merge keeps the invariant |
| IntegrationProtocol.MergeCommitKeeps | src/julycode/worktrees/git.py:152-170 | so does the merge itself, before anything is recorded |
| IntegrationProtocol.OutsidersKeep | src/julycode/teams/integration.py:340-443 | so does anything others do to the Lead, the members' trees and the tasks |
| IntegrationProtocol.ForwardLeadKeeps | src/julycode/worktrees/git.py:138-150 | so does moving the Lead, with the record of who moved it from where |
| IntegrationProtocol.ActionKeepsInv | src/julycode/teams/integration.py:123-443 | every write but the write-back of an archived round, every Git step, task completion and outside change keeps the invariant, so every crash point satisfies it |
| IntegrationProtocol.RunKeepsInv | src/julycode/teams/integration.py:123-443 | every world of every run satisfies it, up to an archived round written back as current, which happens only where recovery does so |
| IntegrationSafety.BranchIsTheRecord | src/julycode/teams/integration.py:189-297 | in every world of every run the unpublished integration branch is the recorded merges and at most one more, with exactly the announced parents and of an attempt not accepted so far |
| IntegrationSafety.AcceptedIsAChain | src/julycode/teams/integration.py:204-234 | accepted records are an unbroken chain with unique attempts, in every round of every run |
| IntegrationSafety.PublishedContainsAcceptedWork | src/julycode/teams/integration.py:406-417 | a published head has been on the Lead and contains the base and every accepted commit |
| IntegrationSafety.LandedMergeIsKept | src/julycode/teams/integration.py:672-732 | in every run, a merge that is in Git stays announced until it is recorded, and its record is never lost, unless its round is archived as not needed; on any list of all tasks read since the merge landed, its attempt was then deleted or started over |
| IntegrationSafety.UnneededLeavesWorkIff | src/julycode/teams/integration.py:363-370 | with the list of all tasks, a round can be archived as not needed exactly when nothing but completed research is left of it; what it has accepted or announced stays recorded in the archived round, and each of these attempts was deleted or started over |
| IntegrationSafety.UnneededWorkWasGone | src/julycode/teams/manager.py:343-355 | in every run, the same when the list was read at some earlier point of the round: all that was accepted or announced then had been deleted or started over |
| IntegrationCompletion.CompletedCodeIsAccounted | src/julycode/teams/integration.py:245-296 | in every run, a completed code task of the current round is accepted, or its merge has landed and is still announced, or its merge was begun when the branch contained its commit already |
| IntegrationCompletion.AcceptedIsCompleted | src/julycode/teams/integration.py:267-296 | an accepted attempt that was not started over is completed, with the accepted commit |
| IntegrationCompletion.StrandedIffContained | src/julycode/teams/integration.py:245-296 | an attempt that is being merged can end up completed, not accepted and no longer announced exactly when the branch contains its commit before the merge begins |
| IntegrationCompletion.StrandedForGood | src/julycode/teams/integration.py:371-380 | while its round is open and the task is not started over, such an attempt is never recorded, and no snapshot that shows it lets the round be published |
| IntegrationWitnesses.CompletedButNotAccepted | src/julycode/teams/integration.py:672-700 | a run from an empty team that ends there: the second member hands in a commit that the first has handed in already, and the process stops before the record |
| IntegrationWitnesses.AcceptedWorkLeftBehind | src/julycode/teams/integration.py:363-370 | a run from an empty team after which a round with accepted work is archived as not needed: its task was started over, deleted, and no other one is in the snapshot |
| IntegrationSafety.OnlyPublishingMovesLead | src/julycode/teams/integration.py:380-443 | the service moves the Lead only while a publish intent is pending, forward, to the recorded head, from the base unless others have just moved it |
| IntegrationSafety.PendingPublishWasAnnounced | src/julycode/teams/integration.py:380-443 | in every run, a pending publish intent was written by an earlier step that saw the round complete, and neither the head nor the accepted records have changed since |
| IntegrationSafety.PublishedHeadIsNew | src/julycode/teams/integration.py:380-399 | what is announced to be published is never the base: a round without new commits is not published |
| IntegrationSafety.PublishedRoundsWereComplete | src/julycode/teams/integration.py:340-399 | every move of the Lead was preceded by a check that all tasks of the round in the snapshot were completed and all code tasks accepted, and nothing was accepted since |
| IntegrationSafety.MovesStartAtBase | src/julycode/teams/integration.py:795-809 | in every run, a round moves the Lead from its recorded base, or right behind a move by others |
| IntegrationSafety.SecondMoveNeedsOthers | src/julycode/teams/integration.py:340-443 | in every run, a round that moves the Lead twice does so only because others have moved it |
| IntegrationSafety.RoundMovesLeadOnce | src/julycode/teams/integration.py:340-443 | if others do not move the Lead while a round is open, that round moves it at most once, from its recorded base, whatever others did before and do afterwards |
| IntegrationSafety.RoundsMoveLeadOnce | src/julycode/teams/integration.py:795-809 | so if nobody else ever moves the Lead, every round moves it at most once |
| IntegrationSafety.LeadTellsWhatHappened | src/julycode/teams/integration.py:734-760 | if others leave the Lead alone while the round is open, an announced publication has moved the Lead exactly when the Lead stands at the announced head, and has not exactly when it stands at the base |
| IntegrationSafety.BackAtBaseNeedsOthers | src/julycode/teams/integration.py:745-757 | whatever others do, a round that has moved the Lead finds it at its base again only because others have moved it |
| IntegrationSafety.AtHeadWasMoved | src/julycode/teams/integration.py:745-757 | whatever others do, if the Lead stands at the announced head, its last move went there, by this round or by others |
| IntegrationSafety.StatesAreWellFormed | src/julycode/teams/integration.py:63-67 | a state that was written satisfies the strict parser's rules exactly when no archived round was written back as current so far, and the revision counts the writes |
| IntegrationWitnesses.UnreadableFile | src/julycode/teams/integration.py:331-338 | a run from an empty team to a file that the parser refuses: recovery archives a published round, and the summary that it then makes fails |
| IntegrationService.TeamIntegrationService.constructor | src/julycode/teams/integration.py:102-121 | a new process may start on any world that a run from an empty repository has left, as long as its file can be read |
| IntegrationService.TeamIntegrationService.Do | src/julycode/teams/integration.py:50-67 | every write, Git step and completion extends one run of the protocol |
| IntegrationService.TeamIntegrationService.Acquire | src/julycode/worktrees/manager.py:61-138 | an existing tree is used only if it was made for the same base |
| IntegrationService.TeamIntegrationService.AssignRound | src/julycode/teams/integration.py:123-147 | returns the current round or opens the next one |
| IntegrationService.TeamIntegrationService.CaptureTarget | src/julycode/teams/integration.py:453-492 | records the Lead's branch and head as target and base only if the Lead was idle and clean and had not moved meanwhile |
| IntegrationService.TeamIntegrationService.PrepareCodeClaim | src/julycode/teams/integration.py:149-187 | a claim leaves the member at the round's head, captured if it was not; it changes the record in no other way and refuses blocked rounds |
| IntegrationService.TeamIntegrationService.ClaimCode | src/julycode/teams/tasks.py:172-218 | a claimed code task is its member's, started at the round's head, and of the current round |
| IntegrationService.TeamIntegrationService.MergeNoFf | src/julycode/worktrees/git.py:152-183 | merged, already contained, conflicted and undone, or failed: how the branch stands in each case |
| IntegrationService.TeamIntegrationService.IntegrateCodeTask | src/julycode/teams/integration.py:189-297 | success means that the task is completed with the commit and accepted: either it was already, and nothing changed, or exactly one record was appended from the old head to the new one; failure means that nothing was recorded, and that the task is completed only if its merge is done and still announced |
| IntegrationService.TeamIntegrationService.CompleteCode | src/julycode/teams/tasks.py:220-268 | a completed task is left alone; any other code task is completed and accepted, or refused with nothing recorded |
| IntegrationService.TeamIntegrationService.RecoverMerge | src/julycode/teams/integration.py:672-732 | resolves a pending merge to the side that Git shows; an unknown merge commit and an already accepted attempt cannot occur |
| IntegrationService.TeamIntegrationService.RecoverPublish | src/julycode/teams/integration.py:734-760 | succeeds exactly with a clean Lead on the target branch at the base or at the announced head: ready again at the base, published at the announced head |
| IntegrationService.TeamIntegrationService.ArchiveRecoveredPublish | src/julycode/teams/integration.py:762-793 | archives a published round only while the Lead stands at its head; otherwise the record is untouched |
| IntegrationService.TeamIntegrationService.Recover | src/julycode/teams/integration.py:307-338 | never moves the Lead; either what was pending is resolved to the side Git shows, or the round is blocked with its evidence kept; the file can be read afterwards unless a round was archived and the summary then failed, and exactly then not |
| IntegrationService.TeamIntegrationService.WriteBack | src/julycode/teams/integration.py:332-338 | the error path after archiving writes the archived round back as current |
| IntegrationService.TeamIntegrationService.PublishPreflight | src/julycode/teams/integration.py:795-809 | passes only with the Lead at the base on its branch and the integration branch as recorded |
| IntegrationService.TeamIntegrationService.FastForwardLead | src/julycode/worktrees/git.py:138-150 | moves the Lead at most once and reports success only at the announced head |
| IntegrationService.TeamIntegrationService.Finalize | src/julycode/teams/integration.py:340-443 | publishes at most once and only a complete, accepted, unfailed round, which it then archives; a round is archived as not needed exactly when the list shows it completed and without code, keeps its accepted records, and, if the list was that of all tasks, each accepted attempt was deleted or started over; every other status leaves the record as said |
| IntegrationService.TeamIntegrationService.ReviewCompletion | src/julycode/teams/manager.py:337-365 | finalizes exactly when every task is completed; of the tasks that were there when the list was read, the round is archived as not needed exactly when no code is left of it, and all that it has accepted was deleted or started over |
| IntegrationService.RecoveryRecordsIffLanded | src/julycode/teams/integration.py:672-732 | a recovered attempt is recorded exactly when its merge is in Git |
| IntegrationService.PublicationIsRecognised | src/julycode/teams/integration.py:745-757 | in every run in which others leave the Lead alone while the round is open, recovery calls an announced publication done exactly when the round has moved the Lead |
| IntegrationFile.StateReadsBack | src/julycode/teams/models.py:502-604 | the parser inverts the dictionary form of every storable state |
| IntegrationFile.ParsedIsStorable | src/julycode/teams/models.py:502-604 | whatever the parser accepts is well formed, with full object ids |
| IntegrationFile.ReadsBackIffStorable | src/julycode/teams/models.py:502-604 | a state survives being written and read exactly when it is well formed with full object ids |
| IntegrationFile.AllParsed | src/julycode/teams/models.py:513-516 | a list is parsed exactly when each of its items is |
| IntegrationPersistence.WrittenStatesReadBack | src/julycode/teams/integration.py:89-99 | whatever the service wrote, at any point of any run, the next process reads back unchanged, exactly as long as no archived round was written back as current |
| Delivery.DeliveryIdsDiffer | src/julycode/teams/events.py:86-88 | different events or recipients get different message ids |
| Delivery.ActionKeepsInv | src/julycode/teams/events.py:25-56 | every post, delivery, mark, receipt, acknowledgement, session operation and restart keeps the invariant, in any interleaving |
| Delivery.RunKeepsInv | src/julycode/teams/events.py:25-56 | every world of every run from an empty team is in order |
| Delivery.DeliveryKeeps | src/julycode/teams/mailbox.py:117-129 | putting a message into a mailbox unless its id is there keeps ids unique and everybody's messages |
| Delivery.DeliveredExactlyOnce | src/julycode/teams/events.py:25-56 | a recipient that an event counts as delivered to holds its message, unaltered and exactly once |
| Delivery.NeverTwice | src/julycode/teams/mailbox.py:117-129 | even before it is marked, no mailbox holds two messages of one event |
| Delivery.ActionGrows | src/julycode/teams/mailbox.py:101-129 | messages stay in place and unaltered, a read one stays read, a marked delivery stays marked |
| MemberSession.WakingForgetsIff | src/julycode/teams/sessions.py:36-90 | a restart leaves exactly the messages before the first unsafe place of what the log says; when the log rebuilds the session, those before the first unsafe place of the session itself |
| Delivery.ForgetsUnreadIff | src/julycode/teams/sessions.py:36-90 | a step makes a session forget an unacknowledged message exactly when it restarts that member from a log that does not give the message back |
| Delivery.EntersAgainIff | src/julycode/teams/sessions.py:92-108 | in every run, a message has entered its member's session twice, or can do so now, exactly when some earlier restart found it in the session, unacknowledged and not given back by the log |
| Delivery.EnteredOnceIff | src/julycode/teams/sessions.py:92-108 | in every run, every message has entered at most once, and none can enter again, exactly when no such restart has happened |
| Delivery.ForgottenEntersTwice | src/julycode/teams/sessions.py:92-108 | right after such a restart the message can enter, and then it has entered twice |
| Delivery.LostIff | src/julycode/teams/runtime.py:137-148 | in every run, an acknowledged message is missing from its member's session exactly when some earlier restart did not give it back, or some heavy compaction summarised it away, after its acknowledgement |
| Delivery.AcknowledgedIsLost | src/julycode/teams/runtime.py:137-148 | in every run, an acknowledged message that is missing stays missing |
| DeliveryWitnesses.ForgottenUnreadEntersTwice | src/julycode/teams/sessions.py:36-108 | a run from an empty team in which a message enters twice: the log ends in a call cut off earlier, and the process stops between receipt and acknowledgement |
| DeliveryWitnesses.AcknowledgedThenForgotten | src/julycode/teams/sessions.py:36-108 | the same with a stop after the acknowledgement: the message is lost for the session |
| Dispatcher.TeamFiles.TryDeliver | src/julycode/teams/events.py:49-55 | success means delivered and marked; it may stop before, between or after the two without harm |
| Dispatcher.TeamFiles.FlushEvent | src/julycode/teams/events.py:33-55 | without failures the event is marked for all its recipients |
| Dispatcher.TeamFiles.Flush | src/julycode/teams/events.py:25-56 | without failures every event that was there is delivered to every recipient, with other dispatchers at work between any two steps |
| Dispatcher.FlushedExactlyOnce | src/julycode/teams/events.py:25-56 | afterwards every recipient holds the message of every such event exactly once |
| Dispatcher.TeamFiles.BeforeIteration | src/julycode/teams/runtime.py:137-148 | every unread message is in the session before it is acknowledged; if the loop stops in between, all of them are still unread |
| Approvals.RequestKeeps | src/julycode/teams/approvals.py:46-69 | a request keeps versions, pending plans and events in order |
| Approvals.DecideKeeps | src/julycode/teams/approvals.py:188-214 | so does a decision |
| Approvals.EveryRunIsOrderly | src/julycode/teams/approvals.py:46-216 | in every run a member's plans for a task are versions 1 to n, only the newest can be pending, and the outbox holds one request per approval and one fitting decision exactly if it is decided |
| Approvals.DecisionsAreFinal | src/julycode/teams/approvals.py:194-216 | a decided approval never changes again |
| Approvals.ApprovalService.HighestVersion | src/julycode/teams/approvals.py:52-53 | the highest version is the number of plans so far |
| Approvals.ApprovalService.Request | src/julycode/teams/approvals.py:35-79 | refused exactly for a caller not allowed to, a blank plan or a pending one; otherwise the next version and its event |
| Approvals.ApprovalService.Decide | src/julycode/teams/approvals.py:174-216 | refused unless the approval matches and is pending; otherwise exactly that one is decided and announced |
| Approvals.ApprovalService.MarkDelivered | src/julycode/teams/approvals.py:158-172 | a mark changes one event's recipients and no approval |
| Caches.BoundedLRU.Get | src/julycode/repo_map/manager.py:53-57 | a hit is the value last put under the key and becomes the most recent entry |
| Caches.BoundedLRU.Put | src/julycode/repo_map/manager.py:59-69 | both bounds hold afterwards, and exactly the shortest run of least recent entries that had to go is gone |
| Caches.BoundedLRU.Evict | src/julycode/repo_map/manager.py:65-69 | the loop ends, keeps the stored total equal to the sum of weights, and evicts no more than needed |
| Caches.BoundedLRU.Clear | src/julycode/repo_map/manager.py:71-73 | nothing is left |
| Caches.OverweightEmptiesTheCache | src/julycode/repo_map/manager.py:65-69 | an entry heavier than the limit leaves nothing behind, not even itself |
| Caches.EvictedAreOldest | src/julycode/repo_map/manager.py:65-69 | whatever was evicted had been used less recently than everything that stayed |
| Renderer.Select | src/julycode/repo_map/renderer.py:35-45 | the loop chooses, best first, the longest form of each symbol that still fits |
| Renderer.ChosenIsSound | src/julycode/repo_map/renderer.py:35-45 | the chosen texts show different symbols in ranking order, and together they fit |
| Renderer.Trim | src/julycode/repo_map/renderer.py:50-56 | drops symbols from the end until the map fits with its truncation marker |
| Renderer.TrimmedIsSound | src/julycode/repo_map/renderer.py:50-56 | what is left fits with the marker, and nothing longer does |
| Renderer.KeptIsSelection | src/julycode/repo_map/renderer.py:47-56 | the rendered symbols are a part of the ranking in its order, fewer than could be exactly when one is missing |
| Renderer.EverythingFits | src/julycode/repo_map/renderer.py:35-45 | when everything fits at full length, everything is shown at full length |
| Renderer.Render | src/julycode/repo_map/renderer.py:16-66 | a map exactly when something is kept, never over the budget for any token counter, marked truncated exactly when a renderable symbol is missing; the last budget check cannot fail |
| Renderer.FilesAreThePaths | src/julycode/repo_map/renderer.py:65-66 | the listed files are those of the rendered symbols, each once |

## Left out

- IntegrationService.TeamIntegrationService.Recover: without the legacy import. Tasks completed before integration records existed are merged without an intent and under an old round number, so no crash guarantee is stated for them; only their ordering is modelled (`TaskOrder`).
- Lock timing: stale-lock detection and removal are separate system calls in `teams/locking.py`; no mutual exclusion is claimed at that granularity.
- Progress of finalisation: a failed preflight is sticky and a crash between removing the worktree and archiving ends blocked, so only safety is stated.
- Timestamps other than their presence: times are opaque texts.
- Member sync status: the roster fields that report whether a member is in step are not modelled, only the member branches.
- Session bootstrap: choosing which session to restore and the time-gap notice; a member's session is loaded by the same fold over the log, without the differences between the two loaders in what they report.
- Session writes that fail half way: appending to the log is taken to succeed.
- Token anchors, prompt building, hooks, memory updates and plan mode around the agent loop.
- Message contents: rendering of external messages and of tool results is a parameter.
- Direct messages with a caller-chosen id: taken not to collide with delivery ids.
- Approval reconciliation: its outcome for tasks with several members' approvals depends on iteration order; the task and roster updates that follow a decision are not modelled.
- Rounding of edge weights and scores to eight digits, floating point (real numbers are used), the order in which edges of one node are visited, and diagnostics of the graph builder.
- Unicode: composition with case folding, and which characters are punctuation or spaces, are parameters of `TextNormalizer`; elsewhere control characters and whitespace beyond blanks, tabs and line ends are parameters or left out.
- Text syntax of JSON and JSON lines, and floating point numbers in it.
- Cached values are taken not to be `None`, and their weights not to change.
- Parse cache transparency: the cache key omits which directories are packages, so a hit can be stale when package markers change.
- Transports, providers, permissions, command and skill registries, configuration and evaluation reports: these would add easier members only.
