# x402-mesh: a verified model

A Dafny 4.11 model of the parts of the x402-mesh repository that hold state or money: the payout
engine with its durable store, crash and boot recovery; the node registry and its Redis mirror; the
streaming parser and printer; the canonical JSON that operators sign; and the smaller stateful pieces
around them. `dafny verify dfyconfig.toml` checks everything.

Every lemma carries `{:induction false}`: each proof is what its body says, and nothing is left to
automatic induction.

## The payout engine

`AccrualStore`, `Settlement`, `SettlementService`, `PayoutLoop` and `Owing` model the code;
`SettlementTheorems` says what single turns promise, and `FlushTheorems` when a flush leaves nothing accruing;
`WriteChain`, `PayoutLine`, `PayoutWorld`, `PayoutSteps`, `PayoutAccrue`, `PayoutSettle`,
`PayoutRecover`, `PayoutBoot`, `PayoutTheorems`, `PayoutRuns` and `PayoutBalance` prove what holds over every run;
`PayoutExact` and `PayoutWitness` say exactly when a transfer may commit.

`SettlementService.DoubleSettlementService` is the service as an object. Each of its methods is proved
to have exactly the effect of the function of the same name in `Settlement`, which describes one
synchronous turn on the service's maps, its queued writes and its payout jobs. `PayoutWorld` places that
service over one Redis store and one chain and lets it take any step at any time: choose a node, settle,
flush, run the next Redis command of one operator's queue, submit, commit, report a payout settled or
given up, crash, recover. A `DelOpen` and the `SremOpen` after it are two steps, with a crash possible
between them. An accrual's record array is shared with the writes queued for it, as in the program, so a
queued write stores what the array holds when it runs.

The program does not enforce everything its safety rests on. These are assumptions, stated as guards of
the steps in `PayoutWorld`:

- a batch transfer does not commit while one of its requests is loadable, or will be at some point of
  its operator's queue, from the open row alone; nor, if the batch is neither listed nor loadable any
  more, once another batch has taken one of its requests (`PayoutWorld.MayCommit`). The program queues
  the row and starts the payout in one turn without waiting, so nothing enforces this;
- the chain commits at most one transfer per payout id (the lease);
- a payout is reported settled only once its transfer has committed, which
  `PayoutLoop.Runner.RunPayout` proves of the retry loop;
- queued commands run in order and do not fail, short of a crash;
- boot recovery reads the whole store, and nothing else runs before it;
- minted batch ids are new, and a request id is routed only by the process that minted it;
- the ids a restored audit ledger claims were routed by an earlier process.

The main results, each over every run with any interleaving and any number of crashes: no request is
covered by two committed transfers; a request a boot would find stays findable after every single command
until a transfer covering it has committed; a payout id stands for one receiver, amount and set of
requests for ever; and draining an operator's queue always leaves exactly what memory holds.

`PayoutRuns` says what the running process promises an operator. A request it routed is admitted when it
settles in time, for the node and operator it was routed to (`PayoutRuns.RoutedIsAdmitted`); what accrues
is always less than would be paid out (`PayoutRuns.AccrualsStayShort`); what is owed cannot be settled
again (`PayoutRuns.OwedIsClaimed`); the report shows each debt with its age and failures
(`PayoutRuns.BatchReported`); and a payout asks the chain before it pays exactly if an earlier process may
have paid it (`PayoutRuns.AsksFirstIff`).

Money is accounted for twice. Within one process, what it owed at boot plus what it accepted since is
margin, settled or owed (`PayoutTheorems.Conservation`), and what it owes at boot is exactly what the store
held, each request once (`PayoutBalance.BootOpensWithTheStore`). Over whole runs with any number of
crashes, everything ever accepted is margin, sent by the chain, outstanding or lost
(`PayoutBalance.WholeRunBalance`); in batching mode only a crash loses anything
(`PayoutBalance.LossOnlyAtCrash`), and it loses exactly what was owed, unpaid and not yet stored
(`PayoutBalance.CrashLosesExactly`), so nothing is lost if every crash finds the queues empty
(`PayoutBalance.NothingLost`).

### When a transfer may commit

The assumption on commits is the weakest one there is. For every reachable world and every submitted
batch, `PayoutExact.CommitSafeIff` shows that `MayCommit` holds if and only if no run that goes on from the
commit ever covers a request by two transfers. A batch whose row is loadable may always commit
(`PayoutSteps.LoadableMayCommit`), and so may one whose operator has no open row, stored or queued
(`PayoutExact.NeverOpenMayCommit`): that is an operator whose first request already fills the batch.

The failing input is short (`PayoutWitness.EarlyCommitPaysTwice`). Boot on an empty store; choose a node
for request `r`; settle 5 units with a batch minimum of 100; run the two commands of the open row; flush;
submit. If the transfer commits now, before the batch row is written, then a crash, a boot, the queue and
the payout of the batch recovered from the open row cover `r` a second time.

## The other components

- `NodeHealth`, `Registry`, `RegistryRedis`, `RegistryLifetime`, `RegistryRace`: health derived from a window of a
  hundred outcomes; the in-memory store; the Redis store that mirrors into it. `RegistryRedis.Serve`
  runs any sequence of calls with a failure, or a lost reply, at any command and returns the answers of
  a plain in-memory store. The two backends agree exactly on proper use (`Registry.CommandsAgreeIff`):
  a request counted in on an unregistered node, or a first registration that is not idle, makes them
  differ.
- `Sse`, `SseStream`, `SseFields`: the frame parser with its carry-over of a trailing CR and its sentinel,
  the daemon's frame printer, and what a frame of any lines is read as. The format is the WHATWG HTML standard, sections 9.2.5 (parsing) and 9.2.6
  (interpretation), except that an unterminated last frame is dispatched.
- `CodeUnits`, `CanonicalJson`, `CanonicalText`, `CanonicalMeaning`, `SignedPayloads`: JSON per RFC 8259
  with keys in UTF-16 code unit order, section 3.2.3 of RFC 8785. Values that are `undefined`, not
  finite or not JSON are modelled with the program's behaviour for each.
- `Ledger`: the bounded audit ledger in memory and in Redis. The two agree exactly when the cap is at
  least one (`Ledger.RememberAgreesIff`); with a cap of zero `LTRIM 0 -1` keeps the whole list.
- `Score`, `Selector`, `SelectorTheorems`: scoring and the weighted draw, in exact real arithmetic.
- `RateLimit`, `NonceCache`, `Semaphore`, `Money`, `Pricing`: the token bucket, replay defence, permits,
  decimal amounts and the price split.

Places where the code does less than its comments say:

- `packages/gateway/src/services/nonceCache.ts:12-14` calls forgetting an expired nonce safe. At exactly
  240000 ms both windows touch, and the payload is accepted again (`NonceCache.ReplayedOnlyAtTheEdge`;
  in numbers, `NonceCache.AcceptedAgainAtTheEdge`).
  The cap also forgets one claim earlier than its size suggests, because the replay itself prunes first:
  `NonceCache.ClaimedAgainIff` gives the exact condition, and with room for one entry an immediate replay
  succeeds (`NonceCache.NoRoomNoMemory`). While there is room, no replay succeeds inside the window however
  often it is tried (`NonceCache.NoReplayInside`).
- `packages/gateway/src/middleware/rateLimit.ts:35` promises that keys past the cap are evicted. Eviction
  happens only on admission: every run stays within the cap if and only if the capacity is at least one
  (`RateLimit.SizeBounded`), and below one every number of entries is reached (`RateLimit.Grows`).
- `packages/registry/src/store/redis.ts:318-336` pushes outcomes atomically but writes the record back as it
  was read. `RegistryRace` runs two reports for one node under any schedule of their commands. Both
  requests are counted if and only if one report reads the record after the other has written it, and
  otherwise exactly one is lost (`RegistryRace.BothCountedIff`). The window always ends with both outcomes;
  the stored health is that of the whole window if the report that writes last read the window after the
  other's push, and otherwise of a window without the other's outcome (`RegistryRace.ScoredOnWhatItSaw`).
  `RegistryRace.BothGoWrong` is a schedule on which both go wrong.
- `packages/settlement/src/service.ts:574-585` loops until nothing is accruing, and then waits once more
  without looking. A call that returns can leave something accruing if and only if it is made with
  nothing accruing and something in flight, and some charge can accrue: the batch minimum and the request
  cap both exceed one and the margin is below the whole (`FlushTheorems.ReturnsEmptyIff`).
  `PayoutWitness.FlushReturnsAccruing` is a run and a call on which it happens.

## Model

| member | source | states |
|---|---|---|
| `AccrualStore.RedisAccrualStore.PutOpen` | packages/registry/src/store/accruals.ts:117-120 | key then index; a load then finds the accrual, and batch rows are as before |
| `AccrualStore.RedisAccrualStore.RemoveOpen` | packages/registry/src/store/accruals.ts:122-125 | key then index; a load no longer finds the accrual |
| `AccrualStore.RedisAccrualStore.PutBatch` | packages/registry/src/store/accruals.ts:127-130 | exactly one batch row is added or replaced; open rows are as before |
| `AccrualStore.RedisAccrualStore.RemoveBatch` | packages/registry/src/store/accruals.ts:132-135 | exactly one batch row goes |
| `AccrualStore.RedisAccrualStore.LoadAll` | packages/registry/src/store/accruals.ts:137-156 | from any store: the row of every indexed operator whose key is there and of every indexed batch whose row names a batch, each once, and nothing else |
| `AccrualStore.LoadedIsLoad` | packages/registry/src/store/accruals.ts:137-156 | when rows sit under the keys they name, that is one open row an operator and one row a batch, none missing |
| `Pricing.ComputeSplit` | packages/shared/src/pricing.ts:178-214 | accepted exactly for legal inputs; payout and margin are non-negative and sum to the charge; the margin is the floor of the exact share |
| `Pricing.FlooringLoss` | packages/shared/src/pricing.ts:178-214 | over n requests the margins total at most the margin of the total, and at most n-1 units less |
| `SettlementService.DoubleSettlementService.EnqueueWrite` | packages/settlement/src/service.ts:324-345 | writes join the end of the operator's own queue, and no other queue changes |
| `SettlementService.DoubleSettlementService.RecordRouting` | packages/settlement/src/service.ts:628-632 | the loop leaves the notes that `SettlementTheorems.RoutingRecorded` describes |
| `SettlementTheorems.RoutingRecorded` | packages/settlement/src/service.ts:628-632 | the new note is found; any other note is found unchanged while younger than ten minutes, and after that unchanged or gone |
| `SettlementTheorems.PruneDrops` | packages/settlement/src/service.ts:1155-1160 | exactly the longest run of expired notes at the head goes |
| `SettlementTheorems.ExpiredGone` | packages/settlement/src/service.ts:1155-1160 | with notes in time order every expired one is gone, and a new note keeps them in order |
| `SettlementService.DoubleSettlementService.SettleInbound` | packages/settlement/src/service.ts:635-694 | the whole effect of one settlement on routing, claims, accruals, batches, queue and jobs, on every path including unrouted, duplicate and unsplittable |
| `SettlementService.DoubleSettlementService.Accrue` | packages/settlement/src/service.ts:703-752 | the service after one accrued record, of which `SettlementTheorems.AccrueCarvesIff` says when it pays |
| `SettlementTheorems.AccrueCarvesIff` | packages/settlement/src/service.ts:703-739 | a batch is carved off exactly when the operator's records, this one included, add up to the minimum or reach the cap on their number; it is all of them, else all go on accruing; no other operator's accrual changes |
| `SettlementService.DoubleSettlementService.FlushAccrual` | packages/settlement/src/service.ts:755-825 | the accrual becomes one listed, queued and submitted batch whose amount is the sum of its records |
| `SettlementService.DoubleSettlementService.FlushAll` | packages/settlement/src/service.ts:579-581 | one pass flushes every operator that is accruing, once, and leaves nothing accruing |
| `SettlementService.DoubleSettlementService.WhenIdle` | packages/settlement/src/service.ts:841-846 | turns are taken while a payout or a write is in flight, and none once nothing is |
| `SettlementService.DoubleSettlementService.FlushPayouts` | packages/settlement/src/service.ts:574-585 | passes over everything accruing alternate with waits until nothing is accruing, then one more wait; a call that returns leaves nothing accruing unless it found nothing to flush and something in flight |
| `FlushTheorems.ReturnsEmptyIff` | packages/settlement/src/service.ts:574-585 | from which states a call that returns never leaves anything accruing, whatever lands while it waits |
| `FlushTheorems.TurnsKeepEmptyIff` | packages/settlement/src/service.ts:703-738 | with which settings no turns ever start an accrual where there is none |
| `PayoutWitness.FlushReturnsAccruing` | packages/settlement/src/service.ts:574-585 | a run with one payout in flight and a request routed, after which a flush returns with that request accruing |
| `SettlementService.DoubleSettlementService.GetPendingPayouts` | packages/settlement/src/service.ts:600-625 | oldest first; one line per accrual and one per unpaid batch; the lines add up to what is owed |
| `SettlementService.DoubleSettlementService.DropRecovered` | packages/settlement/src/service.ts:553-561 | the stale row is unlisted and its removal queued |
| `SettlementService.DoubleSettlementService.RecoverRow` | packages/settlement/src/service.ts:462-549 | one stored row: what is still unhandled is claimed, listed, queued and paid under its old id or a new one |
| `SettlementService.DoubleSettlementService.RecoverAccruals` | packages/settlement/src/service.ts:444-549 | batches before open rows, no request taken twice |
| `SettlementService.DoubleSettlementService.FinalizeSettled` | packages/settlement/src/service.ts:1059-1079 | the batch is unlisted and the removal of its row queued |
| `SettlementService.DoubleSettlementService.FinalizeFailed` | packages/settlement/src/service.ts:1081-1112 | the batch stays listed and stored, with one more attempt and the error |
| `PayoutRuns.AccrualsStayShort` | packages/settlement/src/service.ts:720-731 | over every run an accrual is below the minimum and below the cap, with at least one record, all its operator's; without batching nothing accrues |
| `PayoutRuns.RoutedIsAdmitted` | packages/settlement/src/service.ts:628-668 | a request this process routed, settled before a later routing finds its note ten minutes old, opens exactly one record: for its node and operator, at the split of what came in, whatever happens in between |
| `PayoutRuns.OwedIsClaimed` | packages/settlement/src/service.ts:462-490 | over every run, boots included, a request that is accruing or in an unpaid batch is claimed, and settling it again admits nothing |
| `PayoutRuns.AsksFirstIff` | packages/settlement/src/service.ts:537-549 | since a boot, a payout asks the chain first exactly if its batch was minted before that boot |
| `PayoutRuns.SubmittedBeforeAsksFirst` | packages/settlement/src/service.ts:886-902 | whatever an earlier process submitted asks the chain first when it is paid again |
| `PayoutRuns.AccrualReported` | packages/settlement/src/service.ts:601-608 | over every run an accrual is reported with the sum and number of its records, since the first one's time, due that long after it |
| `PayoutRuns.BatchReported` | packages/settlement/src/service.ts:610-622 | over every run an unpaid batch is reported with what its id was minted for, and its failures since the boot: none while its payout is under way, then one, with its reason up to 256 characters |
| `PayoutLoop.Runner.RunPayout` | packages/settlement/src/service.ts:883-1022 | settled only with a committed transaction id, on all records alike; with truthful lookups failed means nothing had committed; at most `attempts` submissions, none if a resumed batch had landed; nothing is submitted again once it has committed, except the first submission of a payout that is not resumed |
| `PayoutLoop.Payer.FindLanded` | packages/settlement/src/service.ts:1035-1042 | what it reports has committed; a silent lookup reports nothing |
| `PayoutLoop.Runner.Mark` | packages/settlement/src/service.ts:1059-1130 | the loop over a job's records gives each one that is still in the ledger the same status, brings none back and changes no other entry |
| `WriteChain.SafeAfterCommit` | packages/settlement/src/service.ts:807-825 | paying a loadable batch that nothing queued removes keeps the queue safe |
| `WriteChain.SafeGrown` | packages/settlement/src/service.ts:564-572 | appending to an array that queued writes share keeps the queue safe, and what it ends in grows at most by that record |
| `PayoutLine.PromoteIsSafe` | packages/settlement/src/service.ts:807-814 | from open row to batch row, no request is uncovered at any of the four commands |
| `PayoutLine.MidTurnPutOpen` | packages/settlement/src/service.ts:735-739 | queueing the open row makes the queue end in memory's view again |
| `PayoutLine.LineSettled` | packages/settlement/src/service.ts:386-390 | removing a paid batch's row keeps the queue safe and in step with memory |
| `PayoutLine.ResumeIsSafe` | packages/settlement/src/service.ts:529-536 | writing a loaded batch again under its own id changes nothing |
| `PayoutLine.RecoverOpenIsSafe` | packages/settlement/src/service.ts:529-536 | an open row is handed to a new batch for what is left of it, uncovering nothing |
| `PayoutLine.DropOpenIsSafe` | packages/settlement/src/service.ts:465-482 | an open row whose requests are all in batch rows can go |
| `PayoutRecover.HandledIsHeld` | packages/settlement/src/service.ts:462-482 | what recovery skips of an open row sits in a batch of the same operator |
| `PayoutRecover.PayableIsFresh` | packages/settlement/src/service.ts:462-490 | what recovery pays of an open row is in no listed, loadable or paid batch |
| `PayoutWorld.InitInv` | packages/settlement/src/service.ts:274-311 | an empty store and a new process satisfy the invariant |
| `PayoutSteps.RouteInv` | packages/settlement/src/service.ts:628-632 | routing keeps the invariant |
| `PayoutSteps.ApplyInv` | packages/registry/src/store/accruals.ts:117-135 | any single queued command keeps the invariant |
| `PayoutSteps.SubmitInv` | packages/settlement/src/service.ts:883-960 | submitting keeps the invariant, and submitting again changes nothing |
| `PayoutSteps.CommitInv` | packages/settlement/src/service.ts:883-960 | a commit the guard allows keeps the invariant, whether or not the batch is still listed or loadable |
| `PayoutSteps.PaidOutInv` | packages/settlement/src/service.ts:1059-1079 | reporting a payout settled keeps the invariant |
| `PayoutSteps.GaveUpInv` | packages/settlement/src/service.ts:1081-1112 | giving a payout up keeps the invariant, and the debt |
| `PayoutSteps.CrashInv` | packages/settlement/src/service.ts:403-424 | losing the process at any point keeps the invariant |
| `PayoutAccrue.FlushInv` | packages/settlement/src/service.ts:755-825 | carving a batch off keeps the invariant, and what is owed |
| `PayoutSettle.SettleInv` | packages/settlement/src/service.ts:635-752 | a settlement keeps the invariant on every path |
| `PayoutBoot.RecoverAll` | packages/settlement/src/service.ts:444-549 | recovery, row after row, lists every batch once with its own records and leaves the queues safe |
| `PayoutBoot.RecoverInv` | packages/settlement/src/service.ts:409-549 | recovery re-establishes the invariant from whatever a crash left |
| `PayoutTheorems.StepInv` | packages/settlement/src/service.ts:324-1112 | every step of every kind keeps the invariant |
| `PayoutTheorems.RunInv` | packages/settlement/src/service.ts:324-1112 | the invariant holds throughout every run |
| `PayoutTheorems.AtMostOnce` | packages/settlement/src/service.ts:444-549 | no request is covered by two committed transfers, nor twice by one; the amount is the sum of the records |
| `PayoutTheorems.FixedForEver` | packages/settlement/src/service.ts:497-549 | a payout id stands for one receiver, amount and set of requests, across crashes |
| `PayoutTheorems.NeverUncovered` | packages/settlement/src/service.ts:807-814 | a request a boot would find stays findable after every command, crash and recovery until paid |
| `PayoutTheorems.QueueDrainsToMemory` | packages/settlement/src/service.ts:324-345 | draining one operator's queue leaves exactly memory's open row and its owed batches |
| `PayoutTheorems.QuietStoreIsMemory` | packages/settlement/src/service.ts:235-252 | with nothing queued the store is memory |
| `PayoutTheorems.FoundIsOwedOrPaid` | packages/settlement/src/service.ts:409-549 | nothing a boot would find is forgotten by the running process |
| `PayoutTheorems.Conservation` | packages/settlement/src/service.ts:600-825 | per process, in batching mode: what it owed at boot and what it accepted since is margin, settled or owed; an accrual's running total is always the sum of its records |
| `PayoutBalance.OwedIsPayouts` | packages/settlement/src/service.ts:600-625 | what is owed is the sum of the accepted payouts of the requests it stands for, each once |
| `PayoutBalance.SentIsPayouts` | packages/settlement/src/service.ts:883-960 | what the chain sent is the sum of the accepted payouts of the requests it covered, each once |
| `PayoutBalance.BootOpensWithTheStore` | packages/settlement/src/service.ts:444-549 | a process owes at boot exactly the requests its boot found in the store, each once at its accepted payout |
| `PayoutBalance.WholeRunBalance` | packages/settlement/src/service.ts:600-825 | over every run and any crashes: what was ever accepted is margin, sent, outstanding or lost |
| `PayoutBalance.LossOnlyAtCrash` | packages/settlement/src/service.ts:324-345 | in batching mode no step but a crash loses a request, and a crash loses only what is owed and not stored |
| `PayoutBalance.CrashLosesExactly` | packages/settlement/src/service.ts:324-345 | a crash loses exactly the requests that are owed, not paid and not in the store |
| `PayoutBalance.NothingLost` | packages/settlement/src/service.ts:324-345 | if every crash finds the queues empty, nothing is ever lost |
| `PayoutSteps.LoadableMayCommit` | packages/settlement/src/service.ts:807-825 | once its row is loadable a batch may commit, whatever is queued |
| `PayoutExact.NeverOpenMayCommit` | packages/settlement/src/service.ts:721-738 | a batch carved off before any open row was written may commit before its own row is stored |
| `PayoutExact.MayCommitIsSafe` | packages/settlement/src/service.ts:807-825 | from a commit the guard allows, no run ever covers a request by two transfers |
| `PayoutExact.UnsafeIsPaidTwice` | packages/settlement/src/service.ts:444-549 | from a commit the guard refuses, queued writes, a crash, a boot and one payout cover a request twice |
| `PayoutExact.CommitSafeIff` | packages/settlement/src/service.ts:807-825 | the guard on commits is exact: it holds if and only if no run that goes on from the commit pays a request twice |
| `PayoutWitness.EarlyCommitPaysTwice` | packages/settlement/src/service.ts:807-825 | a concrete run of seven steps after which a commit leads to a request paid twice |
| `NodeHealth.NormalizeTwice` | packages/registry/src/store/memory.ts:57-61 | a normalized outcome survives being stored and read back |
| `NodeHealth.NearestRank` | packages/registry/src/store/memory.ts:43-49 | the percentile is an observed sample; at least p percent are at most it, fewer are at most anything smaller |
| `NodeHealth.ComputeHealth` | packages/registry/src/store/memory.ts:71-108 | the two loops compute the health of which `NodeHealth.DerivedFields` says every field |
| `NodeHealth.DerivedFields` | packages/registry/src/store/memory.ts:71-108 | p50 and p95 are observed latencies that half and 95 percent of the window reach, and nothing smaller does; uptime is the share of successes; the trailing failures cost a third of the quality each; the last sign of life is the latest of the base's and the successes' times |
| `NodeHealth.HealthyIff` | packages/registry/src/store/memory.ts:84-98 | routable exactly while the last three outcomes are not all failures |
| `NodeHealth.QualityZeroIff` | packages/registry/src/store/memory.ts:91-104 | quality is zero exactly for a tripped node or one that never succeeded |
| `Registry.MemoryNodeStore.Upsert` | packages/registry/src/store/memory.ts:190-196 | the new contents of both maps |
| `Registry.MemoryNodeStore.List` | packages/registry/src/store/memory.ts:203-205 | every node once |
| `Registry.MemoryNodeStore.RecordOutcome` | packages/registry/src/store/memory.ts:212-225 | the window slides, the record is re-derived from it; unknown nodes are ignored |
| `Registry.UpsertAgreesIff` | packages/registry/src/store/redis.ts:259-276 | the backends agree on a registration exactly if the node is known or starts idle |
| `Registry.OutcomeAgrees` | packages/registry/src/store/redis.ts:318-336 | newest-first in Redis, reversed, is the sliding window |
| `Registry.BeginAgreesIff` | packages/registry/src/store/redis.ts:338-346 | counting in agrees exactly on registered nodes |
| `Registry.EndAgrees` | packages/registry/src/store/redis.ts:348-359 | counting out always agrees, below zero included |
| `Registry.RemoveAgrees` | packages/registry/src/store/redis.ts:307-316 | removal leaves nothing behind in either |
| `Registry.StrayCountShows` | packages/registry/src/store/redis.ts:338-346 | a count left by an unregistered node shows once it registers |
| `RegistryRace.BothCountedIff` | packages/registry/src/store/redis.ts:318-336 | two reports under any schedule of their commands: both are counted, as in memory, if and only if one reads the record after the other wrote it; otherwise exactly one is lost |
| `RegistryRace.ScoredOnWhatItSaw` | packages/registry/src/store/redis.ts:318-336 | under any schedule the window holds both outcomes in push order, and the stored record is scored on it, or on a window without the other's outcome, by when the last writer read it |
| `RegistryRace.BothGoWrong` | packages/registry/src/store/redis.ts:318-336 | on one given schedule a count is lost and the stored health ignores an outcome that the window holds |
| `Registry.CommandsAgreeIff` | packages/registry/src/store/redis.ts:259-359 | an operation keeps the backends in agreement exactly when it is a proper use |
| `RegistryRedis.RedisNodeStore.Degrade` | packages/registry/src/store/redis.ts:200-212 | one warning, and the mirror from then on |
| `RegistryRedis.RedisNodeStore.Upsert` | packages/registry/src/store/redis.ts:259-276 | the mirror always follows; Redis follows unless a command fails |
| `RegistryRedis.RedisNodeStore.Get` | packages/registry/src/store/redis.ts:278-283 | the mirror's answer, whatever fails |
| `RegistryRedis.RedisNodeStore.List` | packages/registry/src/store/redis.ts:285-305 | the mirror's nodes, each once, whatever fails |
| `RegistryRedis.RedisNodeStore.Remove` | packages/registry/src/store/redis.ts:307-316 | the node goes from both, or from the mirror alone after a failure |
| `RegistryRedis.RedisNodeStore.RecordOutcome` | packages/registry/src/store/redis.ts:318-336 | six commands, any of which may fail, agree with the mirror |
| `RegistryRedis.RedisNodeStore.BeginRequest` | packages/registry/src/store/redis.ts:338-346 | the counter and the mirror move together |
| `RegistryRedis.RedisNodeStore.EndRequest` | packages/registry/src/store/redis.ts:348-359 | the counter is clamped at zero as the mirror is |
| `RegistryRedis.Serve` | packages/registry/src/store/redis.ts:215-359 | every run of proper calls made one after another, with failures at any command, answers as a plain in-memory store, and Redis stays in use while every command answers |
| `RegistryLifetime.HeartbeatCannotForge` | packages/registry/src/store/memory.ts:160-180 | a heartbeat cannot change measured health, nor make a tripped node healthy |
| `RegistryLifetime.RegistrationBrings` | packages/registry/src/store/memory.ts:160-180 | a registration is stored with its own terms, opt-in and cap; counts, payments and last sign of life only go forwards |
| `RegistryLifetime.Lifetime` | packages/registry/src/store/memory.ts:190-237 | over any run a node keeps its registration time and lifetime counts, has its unfinished requests in flight, and is judged on its last hundred outcomes |
| `RegistryLifetime.LatestRegistration` | packages/registry/src/store/memory.ts:160-220 | over any run a node shows what it last registered, and its request count grows by one an outcome unless a registration knows of more |
| `SseStream.SseParser.Push` | packages/node-daemon/src/sse.ts:57-70 | the loop consumes every complete frame, and stops at the sentinel |
| `SseStream.SseParser.Append` | packages/node-daemon/src/sse.ts:98-110 | line ends are normalized and a trailing CR is held back |
| `SseStream.SseParser.Flush` | packages/node-daemon/src/sse.ts:77-89 | the rest of the buffer is one last frame |
| `Sse.ChunkInvariance` | packages/node-daemon/src/sse.ts:57-110 | however the text is cut, events and `done` are those of a whole-text parse |
| `SseFields.FrameReads` | packages/node-daemon/src/sse.ts:117-158 | a frame of any lines in any order is read as all its data joined by newlines, its last event name and its last id; comments and other fields are nothing, and no data is no event |
| `SseFields.StreamReads` | packages/node-daemon/src/sse.ts:57-70 | the same inside a stream: the frame and its blank line are consumed and reading goes on after them |
| `SseFields.LineEndsNormalized` | packages/node-daemon/src/sse.ts:98-110 | lines ended by LF, CR or CR LF, in any mixture, become the same lines ended by LF |
| `SseStream.Response.StreamCompletion` | packages/node-daemon/src/server.ts:279-322 | the frames written, on success, on failure and when the client leaves |
| `SseStream.PrintThenParse` | packages/node-daemon/src/server.ts:279-370 | what the daemon prints, followed by anything and cut anyhow, parses back to exactly the payloads |
| `SseFields.StoppedEarly` | packages/node-daemon/src/server.ts:297-321 | a response found ended before its k-th chunk parses to the chunks before it, without the sentinel |
| `CodeUnits.Utf16Injective` | packages/shared/src/signing.ts:18-19 | different strings are different code units |
| `CodeUnits.Utf16Decodes` | packages/shared/src/signing.ts:18-19 | a string's code units stand for exactly its characters |
| `CodeUnits.LessIff` | packages/shared/src/signing.ts:53-53 | less exactly at a first difference, by the smaller unit or the earlier end |
| `CodeUnits.AscendingUnique` | packages/shared/src/signing.ts:50-53 | entries with distinct keys have one sorted order |
| `CanonicalJson.EscapedAs` | packages/shared/src/signing.ts:28-29 | which characters stand for themselves, which get a backslash, and which are written as four lower-case hexadecimal digits |
| `CanonicalText.StringRoundTrip` | packages/shared/src/signing.ts:28-29 | an escaped string is read back exactly, from any longer text |
| `CanonicalText.RoundTrip` | packages/shared/src/signing.ts:25-58 | parsing a printed tree gives it back, and reads exactly its part of any longer text |
| `CanonicalMeaning.CanonicalWrites` | packages/shared/src/signing.ts:25-58 | the serializer accepts exactly the values that mean a tree, and writes that tree |
| `CanonicalMeaning.AcceptedIff` | packages/shared/src/signing.ts:25-58 | accepted exactly if nothing in the value is not finite, unsupported or undefined, undefined items and members aside |
| `CanonicalMeaning.ObjectText` | packages/shared/src/signing.ts:50-55 | an object's text is its defined entries, each once, comma separated, with strictly ascending keys |
| `CanonicalMeaning.SmallerKeyFirst` | packages/shared/src/signing.ts:50-55 | of two defined keys the one with the smaller unit at the first difference, or the shorter, is written first |
| `CanonicalMeaning.SameTextIff` | packages/shared/src/signing.ts:25-58 | same text exactly for the same meaning |
| `CanonicalMeaning.NoProperPrefix` | packages/shared/src/signing.ts:25-58 | no text continues another, except a number's by more digits |
| `CanonicalMeaning.KeyOrderIgnored` | packages/shared/src/signing.ts:50-55 | the order of an object's keys does not show |
| `CanonicalMeaning.SameMembers` | packages/shared/src/signing.ts:50-55 | objects with one text give every key one meaning |
| `CanonicalMeaning.CanonicalIsClean` | packages/shared/src/signing.ts:25-58 | no control character and no lone surrogate is written, so UTF-8 loses nothing |
| `SignedPayloads.SameCapability` | packages/shared/src/signing.ts:61-69 | the projection determines the capability, quantization included |
| `SignedPayloads.RegistrationReads` | packages/shared/src/signing.ts:89-101 | a registration on a known network is always signed, as its domain line and JSON that parses to its eight fields under their names, and no others |
| `SignedPayloads.HeartbeatReads` | packages/shared/src/signing.ts:141-151 | a heartbeat is always signed, as its domain line and JSON that parses to its seven fields under their names, and no others |
| `SignedPayloads.DomainsApart` | packages/shared/src/signing.ts:119-121 | signed text fixes both the domain and the meaning of the payload |
| `SignedPayloads.RegistrationIsNoHeartbeat` | packages/shared/src/signing.ts:104-151 | no registration is ever read as a heartbeat |
| `SignedPayloads.RegistrationTextIff` | packages/shared/src/signing.ts:89-101 | two registrations sign the same text exactly when all eight fields agree, the network up to normalization |
| `SignedPayloads.HeartbeatTextIff` | packages/shared/src/signing.ts:141-151 | two heartbeats sign the same text exactly when they are equal |
| `Ledger.RedisLedgerStore.Put` | packages/registry/src/store/ledger.ts:81-101 | the commands of one put and their effect on rows and order |
| `Ledger.RedisLedgerStore.Recent` | packages/registry/src/store/ledger.ts:103-118 | the newest rows, newest first |
| `Ledger.AuditLedger.Remember` | packages/settlement/src/service.ts:1144-1152 | the eviction loop, and the put it queues |
| `Ledger.AuditLedger.Update` | packages/settlement/src/service.ts:1122-1130 | an evicted row is neither rewritten nor stored |
| `Ledger.AuditLedger.HydrateLedger` | packages/settlement/src/service.ts:357-378 | rows are inserted oldest first, and every restored request is claimed |
| `Ledger.RememberAgreesIff` | packages/registry/src/store/ledger.ts:81-101 | memory and Redis stay in agreement and within the cap exactly when the cap is at least one |
| `Ledger.UpdateAgrees` | packages/settlement/src/service.ts:1122-1130 | an update keeps them in agreement and resurrects nothing |
| `Ledger.RunsAgree` | packages/settlement/src/service.ts:1122-1152 | over every run they hold the same rows in reverse order, with no leaked key |
| `Ledger.RowsAreLatest` | packages/settlement/src/service.ts:1122-1152 | over every run a request's row is the last one written for it, or it has been evicted |
| `Ledger.OldestEvicted` | packages/settlement/src/service.ts:1144-1152 | a new row goes last and evicts only the oldest, and only beyond the cap; a known one keeps its place |
| `Ledger.HydrateRestores` | packages/settlement/src/service.ts:357-378 | restoring rebuilds the identical map |
| `Ledger.RestartIsInvisible` | packages/settlement/src/service.ts:357-378 | after any run a restart loses and reorders nothing |
| `Score.ScoreIsComposite` | packages/registry/src/selector/score.ts:149-164 | with normalized weights the score is a ratio before it is clamped |
| `Score.WeightsSumToOne` | packages/registry/src/selector/score.ts:65-84 | accepted weights are rescaled to sum to one |
| `Score.BetterScoresHigher` | packages/registry/src/selector/score.ts:149-164 | no slower, no dearer and no worse never scores lower |
| `Score.WeightsAreWorth` | packages/registry/src/selector/score.ts:149-164 | each weight is what its own term is worth: the fastest, the cheapest and the best score it when last in the other two; where all are alike only quality tells |
| `Score.LatencyTermMeasures` | packages/registry/src/selector/score.ts:93-98 | the latency term falls by the distance from the fastest as a share of the range |
| `Score.PriceTermMeasures` | packages/registry/src/selector/score.ts:107-114 | the price term falls by the distance from the cheapest as a share of the range, in whole millionths |
| `Score.NoPriceNoCredit` | packages/registry/src/selector/score.ts:149-164 | a node without a price scores no more than at any price |
| `Score.NumberScales` | packages/registry/src/selector/score.ts:93-98 | the latency term does not depend on its unit |
| `Score.AtomicExchanged` | packages/registry/src/selector/score.ts:107-114 | the truncated price term does not depend on the unit of account |
| `Selector.WeightedChoice` | packages/registry/src/selector/index.ts:247-271 | the first candidate whose cumulative weight exceeds the threshold, or the last |
| `Selector.WinningInterval` | packages/registry/src/selector/index.ts:247-271 | each candidate wins on one interval of the draw, as long as its share of the total weight |
| `SelectorTheorems.EligibleWinsItsShare` | packages/registry/src/selector/index.ts:127-271 | each eligible node is selected exactly on one interval of the draw, of length its score plus the floor over the total of all eligible nodes |
| `Selector.Filter` | packages/registry/src/selector/index.ts:141-193 | one pass keeps or tallies each record as `SelectorTheorems.JudgeIff` says |
| `SelectorTheorems.JudgeIff` | packages/registry/src/selector/index.ts:141-193 | a record is a candidate exactly if it is not excluded, on the network, fresh, healthy, offers the model, opted in, below its cap and priceable, and is else turned away for the first of these it fails |
| `SelectorTheorems.TallyIs` | packages/registry/src/selector/index.ts:141-193 | each tally counts the records whose first failed test it is |
| `Selector.ExtremaBound` | packages/registry/src/selector/index.ts:207-217 | every candidate's latency and price lie between the extrema, and each extremum is some candidate's |
| `Selector.Measure` | packages/registry/src/selector/index.ts:207-217 | one pass finds bounds of the candidate set that are attained in it |
| `Selector.Select` | packages/registry/src/selector/index.ts:127-240 | the whole selection, errors included |
| `SelectorTheorems.SelectsAnEligibleNode` | packages/registry/src/selector/index.ts:127-240 | a node is selected exactly when one is eligible, and it is one of those |
| `SelectorTheorems.SelectsIff` | packages/registry/src/selector/index.ts:127-240 | a node is selected exactly if the weights are usable and some record passes every test, and it is one of those; otherwise the error says which |
| `SelectorTheorems.CandidatesInIdOrder` | packages/registry/src/selector/index.ts:203-205 | the walk goes in ascending code unit order of node ids |
| `SelectorTheorems.OutermostDraws` | packages/registry/src/selector/index.ts:247-271 | a draw of one or more takes the last candidate; below zero or not finite counts as zero |
| `SelectorTheorems.EveryRecordCounts` | packages/registry/src/selector/index.ts:130-193 | candidates and tallies add up to the listing |
| `SelectorTheorems.ListingOrderIrrelevant` | packages/registry/src/selector/index.ts:203-205 | permuting the listing changes nothing |
| `SelectorTheorems.UnitsIrrelevant` | packages/registry/src/selector/index.ts:207-240 | rescaling all prices and all latencies changes neither winner nor score |
| `RateLimit.RateLimiter.Handle` | packages/gateway/src/middleware/rateLimit.ts:67-106 | the answer and the new buckets of one request |
| `RateLimit.WindowBound` | packages/gateway/src/middleware/rateLimit.ts:71-96 | in any window, whoever asks first in it, at most capacity plus rate times its length is admitted for a key not evicted after its first request there |
| `RateLimit.FreshKeyGetsBurst` | packages/gateway/src/middleware/rateLimit.ts:71-96 | a key without a bucket gets at least the capacity, rounded down, of its requests admitted, whatever else happens |
| `RateLimit.BurstIsExact` | packages/gateway/src/middleware/rateLimit.ts:71-96 | in one instant and without being evicted it gets exactly that many |
| `RateLimit.RemainingIsExact` | packages/gateway/src/middleware/rateLimit.ts:95-104 | a client told how many requests remain can make exactly that many more in that instant |
| `RateLimit.HandledSolvent` | packages/gateway/src/middleware/rateLimit.ts:71-96 | no bucket is ever overdrawn |
| `RateLimit.EvictedOnlyPastTheCap` | packages/gateway/src/middleware/rateLimit.ts:98-101 | a key is evicted only after at least `maxKeys` other keys were seen since its last request |
| `RateLimit.SizeBounded` | packages/gateway/src/middleware/rateLimit.ts:81-101 | every run from an empty map stays within `maxKeys` if and only if the capacity is at least one |
| `RateLimit.Grows` | packages/gateway/src/middleware/rateLimit.ts:81-101 | below a capacity of one some run reaches any number of entries |
| `RateLimit.WaitingSuffices` | packages/gateway/src/middleware/rateLimit.ts:81-93 | waiting the advertised time gets the next request admitted, eviction or not |
| `RateLimit.WaitIsLeast` | packages/gateway/src/middleware/rateLimit.ts:82-82 | one second less would not do |
| `NonceCache.NonceCache.Claim` | packages/gateway/src/services/nonceCache.ts:39-46 | the answer and the new cache of one claim |
| `NonceCache.NonceCache.DoPrune` | packages/gateway/src/services/nonceCache.ts:59-69 | expired entries at the head go, then the oldest down to the cap |
| `NonceCache.ClaimedAgainIff` | packages/gateway/src/services/nonceCache.ts:39-69 | a nonce is accepted again exactly after the window of its last acceptance, or once the claims accepted since fill the cache; refused replays in between change nothing |
| `NonceCache.ExpiredIsClaimable` | packages/gateway/src/services/nonceCache.ts:39-46 | whatever the cache holds and in whatever order, a nonce never seen, or accepted 240000 ms ago, can be claimed |
| `NonceCache.NoReplayInside` | packages/gateway/src/services/nonceCache.ts:39-69 | while the cap has room, no replay succeeds inside the window, however often it is tried |
| `NonceCache.ReplayedOnlyAtTheEdge` | packages/shared/src/signing.ts:177-192 | whatever is claimed in between, its own replays included, a payload is accepted again exactly at 240000 ms with the latest allowed timestamp, and there once |
| `NonceCache.AcceptedAgainAtTheEdge` | packages/shared/src/signing.ts:177-192 | stamped 120000, accepted at 0, and accepted again at 240000 |
| `NonceCache.NoRoomNoMemory` | packages/gateway/src/services/nonceCache.ts:59-69 | with room for one entry a replay succeeds at once |
| `Semaphore.Semaphore.TryAcquire` | packages/node-daemon/src/semaphore.ts:65-69 | a permit and its release, or nothing when saturated |
| `Semaphore.Semaphore.Acquire` | packages/node-daemon/src/semaphore.ts:77-96 | granted, refused by its signal, or queued last |
| `Semaphore.Semaphore.Abort` | packages/node-daemon/src/semaphore.ts:85-89 | a queued request leaves the queue; any other is untouched |
| `Semaphore.Semaphore.Release` | packages/node-daemon/src/semaphore.ts:113-127 | single use; the permit goes to the first waiter or back |
| `Semaphore.NeverOverLimitNeverOvertaken` | packages/node-daemon/src/semaphore.ts:65-127 | over every run: permits held are the unused releases, within the limit; waiting only when saturated; no later request is granted before a waiting one |
| `Semaphore.GrantedExactlyWhenFree` | packages/node-daemon/src/semaphore.ts:65-96 | after any run a request is granted at once exactly if a permit is free, and is otherwise refused, turned away by its signal, or queued last |
| `Semaphore.AbortTakesOut` | packages/node-daemon/src/semaphore.ts:85-89 | a signal takes its waiting request out of the queue and changes nothing for any other |
| `Semaphore.NoReleaseShared` | packages/node-daemon/src/semaphore.ts:112-127 | over every run no two requests are given the same release |
| `Semaphore.SecondReleaseIsIdle` | packages/node-daemon/src/semaphore.ts:113-117 | a second release has no effect, whatever happened in between |
| `Semaphore.FirstWaiterIsServed` | packages/node-daemon/src/semaphore.ts:118-124 | a freed permit reaches the longest waiting request and no other |
| `Money.ExactValue` | packages/shared/src/money.ts:29-54 | every decimal with at most six places is accepted at exactly its value times a million, and longer fractions are refused |
| `Money.AcceptedIsRead` | packages/shared/src/money.ts:29-54 | nothing else is accepted |
| `Money.SignsRefused` | packages/shared/src/money.ts:33-39 | a sign before or after the dollar is refused as negative whatever follows, and nothing at all as empty |
| `Money.TrimIs` | packages/shared/src/money.ts:33-33 | trimming takes all the space at both ends and nothing else |
| `Money.RoundTrip` | packages/shared/src/money.ts:62-70 | printing and reading is lossless; negatives are refused |
| `Money.PrintedForm` | packages/shared/src/money.ts:62-70 | an amount is always shown with six decimals, without superfluous zeros in front |
| `Money.WireRoundTrip` | packages/shared/src/money.ts:79-107 | the wire form is lossless |
| `Money.WireAndDecimalAgree` | packages/shared/src/money.ts:102-107 | a wire integer read as a decimal is worth a million times more |

## Left out

- Store-less mode, timers, backoff delays, tracing, logging and the deadline timer as such: a timer firing is a `Flush` step at any time.
- Clock readings within one turn are one reading; a selection reads the clock once rather than once per record.
- Batch id strings: minting is a fresh id, because `now36-rSEQ` and `now36-SEQ` can in principle coincide within a millisecond.
- Malformed stored rows and records without usable ids: rows are values that were written by the program.
- A `loadAll` that fails at boot, a Redis command of the accrual store that fails without a crash, and `loadAll` running beside other commands: assumed away above.
- The audit ledger inside the payout world: it has its own model, and appears there only as the ids a boot claims.
- Conservation in unbatched mode: a failed unbatched payout has no batch id and is listed nowhere; `PayoutBalance.WholeRunBalance` counts an unbatched payout as lost until its transfer commits.
- Ledger puts of different requests interleaving command by command: puts run one after the other.
- RegistryRedis.Serve: calls run one after another and properly. `RegistryRace.BothCountedIff` is what overlapping reports do, and `Registry.CommandsAgreeIff` what improper use does.
- SettlementService.DoubleSettlementService.FlushPayouts: a wait with nothing in flight ends at once; a turn already due in the instant it takes to return counts as coming after the call.
- Three or more overlapping reports for one node, and reports overlapping other operations on it: `RegistryRace` has two reports.
- SettlementService.DoubleSettlementService.EnqueueWrite: a failed write is not swallowed and logged, because commands are assumed not to fail short of a crash; a finished queue stays as an empty one instead of being dropped.
- Several gateway instances over one Redis, for the registry as for the payout engine.
- `JSON.parse` and `JSON.stringify` of stored rows, schema validation and UTF-8: rows are values, canonical text is code units.
- Numbers that are not integers, or of magnitude 10^21 and above, in canonical JSON: `Number` stands for an integer printed in plain decimal.
- Ed25519, SHA-256, Algorand addresses, the network normalizer and case folding: the last two are parameters.
- Floating-point rounding in scores, draws and buckets: exact reals, so the fallback after the last subtraction is reached only by a draw of one.
- The order of an in-memory listing, and the wording of error messages and selection reasons.
- `parseModelPrices`, price tiers, HTTP and Express wiring, x402 middleware, the address classifier and configuration: easy members or I/O.
- Settlement.FlushAccrual: its mismatch alert is not a branch of the model, because `PayoutTheorems.Conservation` shows the running total is the sum of the records.
- Selector.Measure: starts from the first candidate instead of infinities; the candidate set is never empty there.
- `packages/node-daemon/src/canonical.ts`: a textual copy of the shared serializer.
