# Blert: verified models of stage merging, the challenge lifecycle and the chart format

Blert records raids: several game clients report the events of one challenge, a challenge server
coordinates them through a shared Redis store, merges the clients' recordings of each stage, and
charts of the result are exchanged in the Blert Chart Format. This project models the parts whose
correctness is hardest to see from one function and proves what they promise. `dafny verify
dfyconfig.toml` checks all of it; the files depend on nothing else.

**Tick alignment.** `AlignmentPaths.dfy` defines alignments of two timelines as walks through the
tick grid, without the scoring recurrence, and relates them to filled score and direction matrices.
`TickAligner.dfy` is the aligner: it fills arrays cell by cell, finds the maximum, follows the
directions back, and recurses on both sides. Its result is shown to be best, ordered, disjoint,
complete and the only one possible. Similarities are `NegInf` or a real number; NaN and +Infinity are
not inputs. The only demands on the configuration are a positive gap penalty and a positive minimum
score; the minimum length may be anything.

**Client classification.** `Classification.dfy`: the consensus tick count, the base client, the
reference count and the split into matching and mismatched clients.

**The challenge lifecycle.** `RedisStore.dfy` is the shared data and the writes on it.
`Transactions.dfy` interleaves optimistic transactions step by step (WATCH, read, conditional EXEC),
for arbitrary transaction functions, and proves every execution serialized in commit order; a pipeline
is a transaction that reads nothing and a plain read one that writes nothing, which returns without
validation and may be out of date. `TransactionClient.dfy` is the client of one such transaction with
its retry loop. `ChallengeStage.dfy` has the stage and attempt logic of updates. `ManagerJobs.dfy` cuts
the challenge manager's operations into jobs of one transaction, pipeline or read each and says which
job may follow which. `LifecycleStore.dfy`, `ManagerCommits.dfy` and `ChallengeLifecycle.dfy` let any
number of requests, client events and timers interleave, each of which may stop at any point, and prove
what every reachable state and every run keeps. `StageClaims.dfy` says exactly when a stage attempt can be
claimed, and `Ownership.dfy` how long the data of a challenge stays once its cleanup was won. `ManagerEffects.dfy` says what single operations and
pairs of them do to the store once their turn comes, and `ManagerRuns.dfy` what that comes to over whole
runs. `ManagerSpec.dfy` is the manager once more as a reference: what each job makes of the store and what may
follow it, without transactions, readings or writes; every commit of every run is shown to be exactly that.
`TimerKeeping.dfy` answers when an active challenge that nobody is connected to keeps the timer
that will end it. `SequentialRuns.dfy` and `OneClientRuns.dfy` build runs from the empty store:
`LostTimer.dfy` has three that lose the timer, `SecondMerge.dfy` one in which a challenge's data is deleted
under its owner and a stage attempt is merged twice.
`ChallengeFields.dfy` is the conversion
of challenge states to and from Redis hashes.

**The chart format.** `BcfDocument.dfy` has the documents and the declarative rules, `SemanticValidator.dfy`
the validator, and `BcfResolver.dfy` the memoising resolver, which is compared with a direct fold.

**Smaller pieces.** `CaptureLimiter.dfy` (the hourly limit on captures), `ItemDeltas.dfy` (packed item
deltas and containers), `Decimal.dfy` (the string keys built from numbers).

Where the code and its comments disagree, the models follow the code:

- The comment on packed item deltas gives the item ID bits 32-48 and the slot bits 49-52; the masks give
  them 16 bits from bit 32 and 5 bits from bit 48.
- `getConsensusTicks` says that it returns null for no clients; it throws (here: no result).
- `cleanupChallenge` says that whoever unsets the active flag owns the challenge's data alone. At most one
  attempt ever unsets it, but another that finds it unset deletes the data without owning it.
  `SecondMerge.MergedTwice` is such a run. `Ownership.dfy` proves that the owned data stays if and only if no
  such deletion commits, and that it comes only from a cleanup that read the flag unset or no state at all.
  `StageClaims.dfy` proves that a stage attempt can be claimed if and only if it was not since the last deletion.
- `update` takes itself for client activity and calls off a cleanup that is due, before it finds out that its
  client has left; when that was the last client, the challenge stays active without anybody or any timer. The
  late clearing of a stale timeout and the removal of a client that has moved on do the same: `LostTimer.dfy`
  has a run of each. `TimerKeeping.dfy` has the exact conditions; that of the late clearing of a stage end
  timeout is shown for a commit on any good store, without a run that leads there.
- The capture limit, documented as one per hour, is per fixed window: an hour can see up to twice the limit,
  and it can be reached. `CaptureLimiter.HourWithinCapIff` says exactly when every hour stays within it.

## Model

| member | source | states |
|---|---|---|
| AlignmentPaths.WalkIndices | challenge-server/merging/alignment.ts:279-319 | the MERGE and KEEP entries of a walk name exactly the consecutive base ticks between its corners, the MERGE and INSERT entries the target ticks |
| AlignmentPaths.GridBoundsWalks | challenge-server/merging/alignment.ts:322-399 | no walk of compatible pairs that ends at a cell, wherever it starts, scores more than the filled cell |
| AlignmentPaths.TraceAttains | challenge-server/merging/alignment.ts:279-319 | following the directions back from any cell gives a walk, begun by a MERGE, of compatible pairs whose similarities less gap penalties sum to exactly the cell |
| AlignmentPaths.LowMatrix | challenge-server/merging/alignment.ts:275-277 | when every cell is below the minimum score, no walk of the range reaches it |
| AlignmentPaths.MaximumIsMatch | challenge-server/merging/alignment.ts:200-202 | a positive matrix maximum is never the end of a gap, given a positive gap penalty |
| AlignmentPaths.ExtractedIsBest | challenge-server/merging/alignment.ts:256-320 | what is read off at the maximum starts and ends with MERGE, pairs only compatible ticks, stays in the range and is beaten by no walk of it |
| AlignmentPaths.GapsAreNeeded | challenge-server/merging/alignment.ts:355-394 | the walk of a best alignment never passes over a base and a target tick one after the other if their MERGE is compatible and gains more than the two gap penalties lose |
| AlignmentPaths.FilledOnce | challenge-server/merging/alignment.ts:352-395 | timelines, similarity and penalty determine every score and direction of a range |
| AlignmentPaths.TracedOnce | challenge-server/merging/alignment.ts:279-319 | and so the traceback from every cell |
| TickAligner.ScoreCell | challenge-server/merging/alignment.ts:355-394 | a cell holds the largest of 0 and its neighbours' offers, the direction names the first that attains it (never an incompatible pair), the margin is its lead over the best of the others |
| TickAligner.TickAligner.FillMatrices | challenge-server/merging/alignment.ts:322-399 | the four arrays hold the scores, directions, similarities and margins of a filled grid over the range |
| TickAligner.FindMaximum | challenge-server/merging/alignment.ts:260-273 | the scan finds the maximum and its first place in row-major order |
| TickAligner.TickAligner.Traceback | challenge-server/merging/alignment.ts:279-319 | the loop that collects and reverses entries computes the traceback |
| TickAligner.TickAligner.BacktrackBest | challenge-server/merging/alignment.ts:256-320 | without a result no walk reaches the minimum score; a result long enough is a best alignment of the range |
| TickAligner.TickAligner.AlignLocal | challenge-server/merging/alignment.ts:223-250 | returns a best alignment with the range's similarities, margins and null ticks, or nothing because the score or the length is too low |
| TickAligner.TickAligner.AlignOver | challenge-server/merging/alignment.ts:187-221 | terminates; pushes, in order, alignments that decompose the range and were extracted greedily |
| TickAligner.DecomposesSplit | challenge-server/merging/alignment.ts:204-218 | a best alignment and decompositions of the rectangles before and after it decompose the range: each rectangle left over is too small, too low or too short |
| TickAligner.GreedyOnce | challenge-server/merging/alignment.ts:187-228 | the inputs determine every alignment: two greedy decompositions of a range have the same ranges and entries |
| TickAligner.PlacedOnce | challenge-server/merging/alignment.ts:204-218 | over all alignments the placed base ticks and target ticks strictly ascend, so none is placed twice |
| TickAligner.PlacedCounts | challenge-server/merging/alignment.ts:175-182 | no more ticks are placed than there are |
| TickAligner.TickAligner.Align | challenge-server/merging/alignment.ts:146-185 | the whole timelines are decomposed; both coverages are the placed shares and lie in [0, 1]; the gap count is that of all entries; every MERGE carries what the scoring function gives its two ticks, 0 if one is absent, and never -Infinity; a KEEP stands next to an INSERT only where both ticks are there and merging them would cost at least as much as the two gaps |
| Classification.GetConsensusTicks | challenge-server/merging/classification.ts:31-49 | the most frequent count, the largest of those in a tie; none exactly for no clients |
| Classification.ConsensusUnique | challenge-server/merging/classification.ts:24-49 | the consensus does not depend on the order of the clients |
| Classification.SelectReferenceCount | challenge-server/merging/classification.ts:72-106 | precise server counts before imprecise ones before the longest recording, and the method says which |
| Classification.FirstSortedIsBest | challenge-server/merging/classification.ts:55-62 | nobody has a later final tick than the first after sorting; of those with the same it participates if any does; of those it has the lowest ID |
| Classification.SelectBase | challenge-server/merging/classification.ts:123-165 | the base and reference: the lowest ID at the accurate consensus, else the most complete client |
| Classification.ClassifyClients | challenge-server/merging/classification.ts:117-210 | base, count, method, and exactly the matching and the mismatched clients, in their order |
| Classification.ClassificationMeans | challenge-server/merging/classification.ts:117-210 | client by client: the count is the one most accurate clients, else most precise, else most imprecise server counts have, the largest of those in a tie, else the longest recording; the base is the lowest ID of the accurate clients with it, else the most complete client; a client matches exactly if it and the base are accurate and it has the count |
| Classification.PartitionIffUnique | challenge-server/merging/classification.ts:178-196 | base, matching and mismatched are the input, nothing lost or repeated, if and only if the base's ID occurs once |
| Classification.OrderIndependent | challenge-server/merging/classification.ts:117-210 | for distinct IDs, base, reference count, method and both sets are the same for every order of the input |
| Transactions.InvHolds | challenge-server/redis-client.ts:538-672 | in every execution, a transaction's reads are its own, watched, and current as long as no watched key was touched |
| Transactions.CommitReadsCurrent | challenge-server/redis-client.ts:935-946 | a transaction that commits has read only values still current at its EXEC, as if it ran alone |
| Transactions.Serializable | challenge-server/redis-client.ts:1174-1213 | for every interleaving, the store is the result of running the committed transactions and pipelines one at a time in commit order, each reading and writing what it did |
| Transactions.RunsAloneOnce | challenge-server/redis-client.ts:1192-1203 | a transaction function that runs alone has one outcome |
| Transactions.PipelineNeverConflicts | challenge-server/redis-client.ts:846-857 | a pipeline reads and watches nothing, so its EXEC is unconditional |
| TransactionClient.TransactionClient.Get | challenge-server/redis-client.ts:544-552 | a read watches its key and records what it found |
| TransactionClient.TransactionClient.Watch | challenge-server/redis-client.ts:935-940 | a WATCH is sent exactly for a key not watched before |
| TransactionClient.NothingQueued | challenge-server/redis-client.ts:942-946 | writes that queue no command would change nothing under any key, so skipping EXEC loses nothing |
| TransactionClient.Attempt | challenge-server/redis-client.ts:1194-1202 | one attempt reads what its function asks for and ends as the function, the queue and the conflict decide: what it finds determines its readings and its end |
| TransactionClient.AttemptsAgree | challenge-server/redis-client.ts:1194-1202 | two attempts that find the same at every read read the same and end the same |
| TransactionClient.RetryTransaction | challenge-server/redis-client.ts:1185-1213 | the result is that of the first attempt without conflict, every attempt starts from nothing, and what is committed over unchanged readings is what the function, run alone on the store its EXEC found, leaves |
| TransactionClient.CommittedRanAlone | challenge-server/redis-client.ts:1185-1213 | an attempt that commits over unchanged readings leaves what running alone leaves |
| ChallengeStage.ChallengeProcessor.StartStage | challenge-server/event-processing/challenge-processor.ts:239-253 | a new stage starts at attempt 1 if it can be retried and without an attempt otherwise; the same stage moves to the next attempt if it can be retried and else stays; exactly those fields are marked as changed |
| ChallengeStage.ChallengeProcessor.FinalizeUpdates | challenge-server/event-processing/challenge-processor.ts:402-427 | hands over the pending updates and forgets them |
| ChallengeStage.UpdateStarted | challenge-server/challenge-manager.ts:1091-1146 | a STARTED update carried out through a processor, its changes and its pending updates, is the stage update as specified |
| ChallengeStage.PatchLeadsToStart | challenge-server/event-processing/challenge-processor.ts:239-253 | the updates handed over lead the stored challenge exactly to where the processor moved |
| ChallengeStage.UpdateAdvances | challenge-server/challenge-manager.ts:1004-1146 | no accepted stage update moves a challenge to an earlier stage or attempt |
| ChallengeStage.AttemptRisesOnce | challenge-server/challenge-manager.ts:1091-1132 | when all clients are at the current attempt of a retriable stage and each sends STARTED once, in any order, the attempt rises by one and every client ends at it |
| LifecycleStore.QuietKeepsStore | challenge-server/redis-client.ts:714-773 | writes about clients, timeouts, processing and processed stages keep a good store good and every challenge's state, stage, attempt and party as they were |
| LifecycleStore.TurnKeepsStore | challenge-server/redis-client.ts:696-712 | a write that creates, activates, advances, retires or deletes a challenge keeps the store good and moves the challenge along one edge of its life |
| LifecycleStore.ProcessedKept | challenge-server/redis-client.ts:751-757 | unless writes delete the challenge's data, exactly the stage attempts processed before and those they mark are processed after them |
| ManagerSpec.StartsAre | challenge-server/challenge-manager.ts:436-560 | in any run, a start that commits joins the party's last challenge if and only if that one is ACTIVE, not completed, not ending, and the requested stage is unknown or not before its stage; under the same conditions it waits for one that is INITIALIZING; otherwise its own challenge comes last, in place of the last one exactly if that has no state, is being cleaned up, or lacks its completion or stage |
| ManagerSpec.JobIs | challenge-server/challenge-manager.ts:412-1989 | what any job that runs alone makes of the whole store is the reference's change for it |
| ManagerSpec.NextIs | challenge-server/challenge-manager.ts:412-2045 | what follows it is what the reference says for that store: which stage and attempt are completed, which timeouts lead to a cleanup, who owns the challenge afterwards |
| ManagerSpec.FailsIs | challenge-server/redis-client.ts:544-552 | its transaction throws exactly where the reference says: a full read of a challenge without a party, or a deferred join of one that is gone |
| ManagerSpec.StepsAre | challenge-server/challenge-manager.ts:412-2045 | over every run, each commit changes the store exactly as the reference says for its job and the store it finds, and is followed as the reference says; no other step changes it |
| ManagerCommits.StartCommits | challenge-server/challenge-manager.ts:412-596 | a start creates a new challenge last in its commit, or only adds the client to an active one |
| ManagerCommits.UpdateCommits | challenge-server/challenge-manager.ts:938-1151 | an update's writes leave the life of the challenge alone but for a stage or attempt that does not fall |
| ManagerCommits.CleanupCommits | challenge-server/challenge-manager.ts:1760-1853 | a cleanup's writes retire an active challenge or only its timeout changes |
| ManagerCommits.CommitKeeps | challenge-server/challenge-manager.ts:412-1989 | every commit of every job keeps the store good, and moves a challenge still being created only if the job is its creator |
| ManagerCommits.ClaimsAreNew | challenge-server/challenge-manager.ts:1600-1615 | a stage attempt is marked processed only by a claim that did not find it there |
| ManagerCommits.RetiresOnce | challenge-server/challenge-manager.ts:1836-1844 | a commit that retires a challenge found it active and leaves it retired |
| ManagerCommits.NextOk | challenge-server/challenge-manager.ts:1549-2045 | what a job read, even if out of date by now, is enough for the job that follows it |
| ChallengeLifecycle.SystemOkHolds | challenge-server/challenge-manager.ts:412-2045 | the invariant of store, jobs, transactions in flight and log holds in every reachable state |
| ChallengeLifecycle.LifeMovesForward | challenge-server/challenge-manager.ts:549-560 | in every step of every run, a challenge's state only moves INITIALIZING, ACTIVE, CLEANUP, deleted, or from INITIALIZING to deleted |
| ChallengeLifecycle.NeverGoesBack | challenge-server/challenge-manager.ts:1004-1018 | over every run a challenge never returns to an earlier phase, and while it lives its stage and attempt never fall |
| ChallengeLifecycle.CleanupWonOnce | challenge-server/challenge-manager.ts:1760-1853 | at most one commit in a whole run gets a challenge's cleanup OK, and at most one job at a time is finishing it |
| ChallengeLifecycle.ClaimedOnce | challenge-server/challenge-manager.ts:1600-1624 | whatever interleaving of update, timer and cleanup completions, a stage attempt passes the processed check twice only if the challenge's data was deleted in between |
| ChallengeLifecycle.MergedOnce | challenge-server/challenge-manager.ts:1617-1653 | over every run, two jobs that go on to merge the same stage attempt have a deletion of the challenge's data between them |
| ChallengeLifecycle.OriginsHold | challenge-server/challenge-manager.ts:1600-1653 | in every reachable state each merge under way has its claim of that stage attempt in the log, and each job that owns a challenge's data has the commit that won its cleanup |
| StageClaims.ProcessedIffClaimed | challenge-server/challenge-manager.ts:1600-1615 | in every reachable state a stage attempt is among the processed ones if and only if it was claimed since the challenge's data was last deleted, or was there at the start and nothing deleted |
| StageClaims.ClaimsIffNotOutstanding | challenge-server/challenge-manager.ts:1600-1624 | so in any run a claim whose reading is still current goes on to commit if and only if its stage attempt was not claimed since that last deletion, nor left from before |
| Ownership.OwnershipBegins | challenge-server/challenge-manager.ts:1756-1844 | whoever comes to own a challenge does so by the commit that unsets the active flag, and the data is there then |
| Ownership.StepKeepsRetired | challenge-server/challenge-manager.ts:1855-1989 | a step takes the data of a challenge whose flag is unset away if and only if it commits a deletion of it, by the owner or by another |
| Ownership.OwnedDataStays | challenge-server/challenge-manager.ts:1756-1758 | over every stretch of a run in which a job owns the challenge, the data stays all the time if and only if no other job commits its deletion: exactly when the sole ownership the comment claims holds |
| Ownership.DeletionsFoundTaken | challenge-server/challenge-manager.ts:1774-1787 | over every run, a deletion by another job follows a cleanup of the same chain that read the flag unset or no state at all |
| SecondMerge.MergedTwice | challenge-server/challenge-manager.ts:1600-1892 | from the empty store, for any client, party and known stage, a run ends with two jobs about to merge the same stage attempt, one of which owns the challenge, whose data another has deleted |
| ChallengeLifecycle.TimeoutsAreEntered | challenge-server/redis-client.ts:759-773 | in every reachable state a challenge whose timeout state is set has an entry among the timeouts, and one still being created has neither clients nor a timeout |
| ChallengeLifecycle.PointersAreListed | challenge-server/redis-client.ts:714-740 | in every reachable state a client's pointer names a challenge that lists the client, or one whose state is gone |
| ChallengeLifecycle.DeletedStaysDeleted | challenge-server/challenge-manager.ts:1960-1989 | late pipelines may write to a deleted challenge's hash, but never again a state, stage, attempt or party |
| ChallengeLifecycle.ManagerIsSerial | challenge-server/redis-client.ts:1174-1213 | the store of every reachable state is that of the committed jobs run one at a time in commit order |
| SequentialRuns.RunsToEnd | challenge-server/redis-client.ts:1185-1213 | conversely, a job that can run alone on the store of a quiet system does so in some continuation of the run, with the writes and the next job it would have |
| TimerKeeping.CommitKeepsTimer | challenge-server/challenge-manager.ts:913-1989 | a commit leaves an active challenge that nobody is connected to without its timer if and only if it is an update while nobody is connected and a cleanup is due, the clearing of a stage end or stale timeout while nobody is connected, or the removal of the last client, gone to another challenge, while no timer runs |
| TimerKeeping.TimerKeptUnlessDropped | challenge-server/challenge-manager.ts:913-1989 | over every run, such a challenge keeps its timer all the time if and only if none of those commits happens |
| TimerKeeping.CheckRestoresTimer | challenge-server/challenge-manager.ts:1960-1989 | in any reachable state, a check for active clients that commits leaves the timer kept, even where it was lost |
| LostTimer.TimerLost | challenge-server/challenge-manager.ts:965-1031 | from the empty store, for every client, party, stage and update: when the last client disconnects between its update's pointer check and the update's transaction, the challenge ends up active, with nobody connected, no timer and nothing under way |
| LostTimer.TimerClearedLate | challenge-server/challenge-manager.ts:1991-2045 | from the empty store, for every client, party and stage: when the client comes back after the timer has listed its challenge, so that its timeout looks stale, and leaves again before that is cleared, the challenge ends up in the same way |
| LostTimer.TimerNeverSet | challenge-server/challenge-manager.ts:1417-1475 | from the empty store, for every client, stage and two parties: when a client heard to be idle starts another challenge before that is handled, the first, where it was the last client, ends up in the same way |
| ManagerRuns.JoinersAreListed | challenge-server/challenge-manager.ts:174-212 | from any reachable state, however a client comes to a challenge, the commit leaves it listed where the challenge is, points at it and keeps its last completed stage, and the others stay |
| ManagerRuns.RetriesUsedUp | challenge-server/challenge-manager.ts:1817-1852 | over every stretch of a run in which the challenge stays active and its timeout is not set anew, cleanups tried and retries left add up to the retries at its start |
| ManagerRuns.RetriesRunOut | challenge-server/challenge-manager.ts:1817-1852 | so clients that stay connected defer a cleanup no more often than it has retries, and the next try retires the challenge |
| ManagerRuns.AttemptRisesOnceInRuns | challenge-server/challenge-manager.ts:1091-1132 | in any run in which every client at the current attempt of a retriable stage starts it once more, in any order and with other steps in between that leave the challenge's position and clients untouched, the attempt rises by one and every client ends at it |
| ManagerRuns.StartedClientsInStep | challenge-server/challenge-manager.ts:1091-1146 | from any reachable state, the commit of a client's STARTED update leaves its stored stage and attempt those of the challenge |
| ManagerRuns.FinishedStagesAreFollowed | challenge-server/challenge-manager.ts:1040-1180 | from any reachable state, the commit of a client's finished stage records it; if every client is past the challenge's stage, or has finished at no earlier attempt than the challenge's, the job goes on to complete that stage and attempt, otherwise the stage end timer runs; so another client that has entered or started the challenge's stage always holds the completion back |
| ManagerEffects.StartTwice | challenge-server/challenge-manager.ts:436-560 | of two starts of a party for the same or a later stage only the first creates a challenge: the second changes nothing and waits for it |
| ManagerEffects.AddThenRemove | challenge-server/challenge-manager.ts:1225-1351 | adding a new client and removing it restores the clients; if others were there it restores everything else, but for a cleanup that was due while all of them were inactive, which it calls off; if nobody was, the reconnection timer runs |
| ManagerEffects.IdleThenActive | challenge-server/challenge-manager.ts:1364-1475 | going idle and coming back restores client and challenge |
| ManagerEffects.LastCompletedIsLatest | challenge-server/challenge-manager.ts:1707-1723 | the stage to complete when its time is up is the latest any client completed, with the latest of its attempts, in whatever order the clients come |
| ManagerEffects.EveryCommitIsSent | challenge-server/redis-client.ts:942-946 | whatever a job commits queues a command, so its EXEC is not skipped |
| ChallengeFields.SetChallengeFields | challenge-server/redis-client.ts:696-712 | the queued commands set every non-null field and delete exactly the null ones |
| ChallengeFields.WriteThenRead | challenge-server/redis-client.ts:98-180 | writing any partial state over a stored one and reading the whole hash gives the old state overridden field by field, null clearing, if and only if the party is not empty and its names have no comma |
| ChallengeFields.AbsentField | challenge-server/redis-client.ts:145-180 | a hash can be read if and only if it has party and players; a missing field reads as null exactly if it may be null, and the flag as unset |
| ChallengeFields.NullableFields | challenge-server/redis-client.ts:145-180 | the attempt, the reported tick counts, the processing time and the custom data, and no other fields, may be null |
| ChallengeFields.FlagIsDigit | challenge-server/redis-client.ts:118-119 | a flag is stored as 1 or 0 |
| ChallengeFields.SplitJoin | challenge-server/redis-client.ts:98-126 | joining names by commas and splitting returns them if and only if there is a name and none has a comma |
| ChallengeFields.ReadFields | challenge-server/redis-client.ts:128-140 | reading some fields gives those that are not null |
| Decimal.ParseShow | challenge-server/redis-client.ts:145-180 | parsing a printed number gives the number |
| Decimal.StageAttemptKeyInjective | common/db/redis.ts:239-241 | distinct stage attempts have distinct identifiers among the processed stages |
| Decimal.CellKeyInjective | bcf/src/resolver.ts:367-369 | the keys of distinct actor and tick pairs never collide, whatever the IDs |
| SemanticValidator.SemanticValidator.ValidateActors | bcf/src/validator.ts:258-304 | reports exactly the repeated IDs and illegal lifetimes, each at its actor, and fills the maps |
| SemanticValidator.SemanticValidator.ValidateTickIndexedArray | bcf/src/validator.ts:355-389 | reports exactly the repeated, descending and out-of-bounds numbers, each at its item |
| SemanticValidator.SemanticValidator.ValidateCells | bcf/src/validator.ts:407-427 | reports exactly the violations in a tick's cells, each at its cell |
| SemanticValidator.SemanticValidator.ValidateActions | bcf/src/validator.ts:465-529 | reports exactly the violations in a cell's actions, each at its action |
| SemanticValidator.SemanticValidator.Validate | bcf/src/validator.ts:241-248 | the errors are exactly the violations anywhere in the document |
| SemanticValidator.WellFormedWithoutErrors | bcf/src/validator.ts:241-529 | a document meets the declarative rules if and only if no rule is violated anywhere |
| SemanticValidator.ValidateSemantics | bcf/src/validator.ts:241-529 | no errors are reported if and only if the document is well-formed |
| BcfResolver.BcfResolver.constructor | bcf/src/resolver.ts:83-127 | the indexes hold exactly the document's actors, cells and phases |
| BcfResolver.BcfResolver.GetCell | bcf/src/resolver.ts:205-207 | the cell of an actor at a tick, or none |
| BcfResolver.BcfResolver.GetNpcPhases | bcf/src/resolver.ts:281-286 | the phases of an actor that is one of the document's NPCs, at strictly ascending ticks; none for anything else |
| BcfResolver.PhasesAscend | bcf/src/resolver.ts:103-119 | in a well-formed document the phases of an actor come at strictly ascending ticks |
| BcfResolver.BcfResolver.GetActorState | bcf/src/resolver.ts:340-357 | after any earlier queries, nothing exactly for an actor the document does not have or a tick out of bounds, else the direct fold of that actor's cells up to the tick with that tick's cooldown; that is, a player is dead as the last cell up to the tick says that has a death action or the flag, alive if none has, has the special energy last set, and is off cooldown as the tick's own cell says |
| BcfResolver.AnswerMeans | bcf/src/resolver.ts:466-527 | the fold for a player, in terms of its last cells up to the tick that mark its death and that set its energy, and of the tick's own cell |
| BcfResolver.BcfResolver.FindCached | bcf/src/resolver.ts:377-392 | finds the most recent earlier tick with a cached state, if there is one, and that state is the fold up to it |
| BcfResolver.BcfResolver.ResolveState | bcf/src/resolver.ts:371-433 | resolves to the fold and leaves only correct states in the cache |
| BcfResolver.ExtractAnswer | bcf/src/resolver.ts:449-466 | from a cached state the persistent part is recovered exactly |
| BcfResolver.FoldTick | bcf/src/resolver.ts:395-421 | the state cached at an intermediate tick is that tick's answer |
| CaptureLimiter.CaptureLimiter.TryReserveCapture | challenge-server/merge-service/service.ts:415-428 | updates the window as the specified reservation does |
| CaptureLimiter.GrantsByWindow | challenge-server/merge-service/service.ts:415-428 | a window never holds more grants than the cap, and what an interval sees is bounded by its windows |
| CaptureLimiter.AtMostTwiceTheCap | challenge-server/merge-service/service.ts:415-428 | with a nondecreasing clock no half-open interval one window long sees more than twice the cap |
| CaptureLimiter.TwiceTheCapIsReached | challenge-server/merge-service/service.ts:415-428 | twice the cap is reached |
| CaptureLimiter.FitsHourIff | challenge-server/merge-service/service.ts:415-428 | an attempt can tell from the window and the grants before it whether one more keeps the hour that ends with it within the cap |
| CaptureLimiter.HourWithinCapIff | challenge-server/merge-service/service.ts:36-40 | with a nondecreasing clock, every hour sees at most the cap if and only if that held at each attempt that was granted |
| CaptureLimiter.WindowCountsGrants | challenge-server/merge-service/service.ts:415-428 | the counter is the number of captures granted since the window started, and the window covers every attempt since |
| CaptureLimiter.RefusedAfterCapGrants | challenge-server/merge-service/service.ts:415-428 | an attempt is refused exactly if the current window saw as many grants as the cap (or the cap is 0); then at least that many were granted within the last hour |
| ItemDeltas.UnpackPacked | common/item-delta.ts:59-69 | packing gives a 53-bit number, and unpacking it the delta, if and only if every field is in range |
| ItemDeltas.PackUnpacked | common/item-delta.ts:19-30 | unpacking gives fields in range, and packing them the number, if and only if it is a 53-bit one |
| ItemDeltas.ApplyItemDeltas | common/item-delta.ts:111-156 | the loop over the deltas is the fold from the occupied slots |
| ItemDeltas.ApplyConcatenation | common/item-delta.ts:127-153 | applying concatenated lists is applying them in turn |
| ItemDeltas.OtherSlotsKept | common/item-delta.ts:127-153 | a delta changes no slot but its own |
| ItemDeltas.SlotAfter | common/item-delta.ts:127-153 | after one more packed delta its slot holds that item alone, as much as before of it plus what was added or less what was removed, and is empty if nothing is left; the other slots are as before |
| ItemDeltas.AddThenRemove | common/item-delta.ts:132-153 | adding and then removing the same delta restores the container if and only if the slot was empty or held a positive quantity of the item |
| ItemDeltas.RemoveThenAdd | common/item-delta.ts:132-153 | removing and then adding restores it if and only if the slot held at least that much of the item |

## Left out

- The manager's operations are transaction functions of what has been read rather than methods, because their steps interleave; the client records they assign to are values here.
- A retried transaction reads the clock and draws a new identifier again; here both belong to the job. As a conflicting attempt leaves nothing behind, every run that commits is covered.
- Timestamps, intervals and key expiry: a timeout is its number of retries, and the timer may take any of the entries at any time.
- Sessions, player keys, stage streams, the activity feed and published updates; of a challenge's fields the lifecycle keeps state, timeout state, stage, attempt, completion, processing and party.
- Changing the mode or noting a changed party in an update, and all database work of the processor: neither touches the fields above.
- Merging and processing a stage: a job may end with any completion status, or fail as the code lets it.
- `deleteChallengeData` beyond its final atomic write: its party comes from outside, as its unwatched read may be out of date.
- Read-only transactions are not part of the serial order: they skip EXEC, and their readings may be from different moments. The lifecycle results hold in spite of that.
- A read-only transaction leaves its connection's watches behind, so that the next one there may conflict for no reason; here every transaction starts with nothing watched. This only adds conflicts.
- Liveness: that timers fire, that a deferred join finds its challenge, that retries end.
- A crash of the server is any of its jobs stopping for good; key expiry and loss of the Redis data are not modelled.
- Connection errors of the Redis client, and its retry of anything but a conflict.
- Floating-point rounding in the aligner and in the coverages: scores are real numbers.
- `DEFAULT_ALIGNMENT_CONFIG` and optional configuration: the configuration is a parameter.
- The aligner hands out its similarity and margin arrays; here the alignment holds their rows as values.
- TickAligner.TickAligner.SplitAround: one half of the source's `alignOver`, separated to keep the two recursive calls together.
- The `details` of the reference selection, one of which keeps the input order.
- Schema validation, version selection and the text of the messages: an error is the violated rule with the indices of its place, and the order in which errors are reported is not stated.
- The resolver's getters that only return a document field, and the tick iterator.
- JSON is an abstract pair of inverse functions; a number with trailing text or in another base is not parsed as JavaScript would.
- An undefined value in a partial state is an absent key.
- `createItem` of the container fold is the plain item stack.
- The ledger, the socket server, the web site, the Rust server and the event tables: not part of this model.
