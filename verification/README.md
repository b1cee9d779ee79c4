# Verified model of the probes and services around the event pipeline

The project models, in Dafny 4.11, the programs of the repository that hold its protocols, and
proves what their code and tests promise. `dafny verify dfyconfig.toml` checks all of it.

| part | files | source |
|---|---|---|
| Kubernetes reconciliation target | `TargetTables`, `TargetHistory`, `TargetTheorems`, `TargetStore` | `tools/subscriptions/kubernetes_target_probe.py` |
| Document converter, docling and Office | `ConverterState`, `ConverterSystem`, `ConverterSafety`, `ConverterTheorems`, `ConverterLink`, `ConverterLimits`, `ConverterStore` | `tools/ai-document-converter/server.py` |
| Oracle over the ingress target | `TargetOracle`, `Manifest`, `Decimals` | `tools/ingress/workload.py` |
| Reference adapter | `AdapterTarget`, `AdapterStore`, `AdapterBatch` | `tools/ingress/reference_adapter.py`, `tools/ingress/target.sql` |
| HTTP sender | `SenderSystem`, `SenderSafety`, `SenderTheorems`, `SenderStore`, `RetryAfter` | `tools/ingress/workload.py` |
| AMQP publisher | `Publishing` | `tools/ingress/workload.py` |
| Management probe | `ProbeVerdict`, `ProbeSampler`, `Sorting` | `tools/ingress/management_probe.py` |
| Framing | `Framing`, `FaultProxy`, `LineSplitter` | `tools/subscriptions/probe_kafka_ack_fault.py`, `tools/subscriptions/probe_clients.py` |
| Migration chains | `Migrations` | `tools/local-preview/migrations.py` |
| shared by several parts | `Wrappers`, `Sets` | |

How the parts are built:

- A concurrent program is a transition system whose steps are the blocks that run under its lock,
  between two awaits, or as one SQL statement; an environment chooses what fails, what is lost and
  when time passes. Theorems speak of every finite sequence of steps.
- A program that updates fields or tables in place is also a class, or a method with its loops,
  proved equal to those steps, so that the theorems hold of the imperative form too.
- Where the code does less than one would expect, a lemma gives the exact limit and another an input
  that goes past it: a completed publisher can still fail (`Publishing.CompleteAndFailed`,
  `LateTimerFails`), the splitter's error depends on how bytes arrive (`LineSplitter.ReadChunks`,
  `NamedLimitDependsOnCut`), a reused correlation id is misclassified
  (`FaultProxy.ClassifiedByOwnRequest`, `ReuseMisleads`), a prepare request that registers after its
  tombstone has gone is converted although docling has released the job (`ConverterLink.LateRequest`,
  `ConverterLimits.LateRequestRuns`), and a batch report is honest only about a target that does what
  `AdapterBatch.Trusted` says (`InvocationHonest`, `UntrustedTargetMisleads`).

Assumptions that the theorems name: a COMMIT error that is not retryable, or has SQLSTATE 40001
or 40P01, means that nothing was committed (`AdapterBatch.Trusted`); a sample shows the state at
some instant of its request and the accepted count never falls (`ProbeVerdict.AllReflect`,
`ProbeVerdict.Monotone`); a successful Office reply to docling is one that the Office supervisor
gave to that very call (`ConverterLink.ReplyPossible`); the broker answers the requests of one
correlation id in the order in which they reached it (`FaultProxy.OwnRequest`).

## Model

| member | source | states |
|---|---|---|
| `TargetStore.Target.StartBatch` | tools/subscriptions/kubernetes_target_probe.py:208-221 | a started batch is refused when its id is known; otherwise it raises the scope's generation by one and is stored active at it |
| `TargetStore.Target.FailBatch` | tools/subscriptions/kubernetes_target_probe.py:222-229 | a completed batch is refused; any other becomes failed and keeps its generation, an unknown one is stored failed |
| `TargetStore.Target.CompleteBatch` | tools/subscriptions/kubernetes_target_probe.py:230-252 | the batch, generation, completeness and member-count tests, the deletion of older objects and its count |
| `TargetStore.Target.PresentObject` | tools/subscriptions/kubernetes_target_probe.py:253-301 | the stale-watch, member and member-conflict tests, then the member row and the object's upsert or deletion |
| `TargetStore.Target.ApplyEvent` | tools/subscriptions/kubernetes_target_probe.py:144-306 | the five in-place branches, scope test and replay together are the one function that the run theorems speak of, with every table rolled back on a rejection |
| `TargetStore.Target.Post` | tools/subscriptions/kubernetes_target_probe.py:144-306 | one request: what the tables and the ghost log of accepted events are afterwards, and that they stay consistent |
| `TargetHistory.Step` | tools/subscriptions/kubernetes_target_probe.py:144-306 | accepting one event keeps the five tables a function of the log of accepted events |
| `TargetHistory.AcceptedEffect` | tools/subscriptions/kubernetes_target_probe.py:193-306 | an accepted event changes its scope, its batch, its members and its objects in the stated rows and no other row of any table |
| `TargetTheorems.RunIsConsistent` | tools/subscriptions/kubernetes_target_probe.py:144-306 | after every run of requests, accepted or not, generations, events, batches, members and objects are what the accepted log says they are |
| `TargetTheorems.LogRebuildsTables` | tools/subscriptions/kubernetes_target_probe.py:144-306 | all five tables, scope attributes included, are those of a run of the accepted events alone, in order |
| `TargetTheorems.OthersChangeNothing` | tools/subscriptions/kubernetes_target_probe.py:145-191 | a request that is rejected or replayed leaves every table as it was |
| `TargetTheorems.ObjectTableIsHistory` | tools/subscriptions/kubernetes_target_probe.py:241-301 | an object is present with a payload exactly when its last accepted event carried that payload and no accepted completion has swept it since; the row's hash, name, namespace and generation are that event's |
| `TargetTheorems.WritesAreAccepted` | tools/subscriptions/kubernetes_target_probe.py:281-301 | the `writes` of an object number its accepted presents since it was last deleted |
| `TargetTheorems.RedeliveriesAreInvisible` | tools/subscriptions/kubernetes_target_probe.py:149-191 | any number of redeliveries of accepted events, inserted anywhere later in a run, change neither the tables nor the answer to any other event |
| `TargetTheorems.RedeliveryAnswer` | tools/subscriptions/kubernetes_target_probe.py:183-191 | a redelivery is answered with the stored result and `applied` false, and changes nothing |
| `TargetTheorems.ReplayOfEntry` | tools/subscriptions/kubernetes_target_probe.py:168-191 | the replay of any logged event passes the scope test: scope attributes never change once inserted |
| `TargetTheorems.SyncCounts` | tools/subscriptions/kubernetes_target_probe.py:149-152 | an event that differs from an accepted one in `sync` alone is a redelivery of it exactly when it is a watch event; a listed or a control event is not |
| `TargetTheorems.GenerationCountsStarts` | tools/subscriptions/kubernetes_target_probe.py:208-221 | a scope's generation is the number of its accepted starts, and no batch or object is beyond it |
| `TargetTheorems.OneLiveBatchPerGeneration` | tools/subscriptions/kubernetes_target_probe.py:208-252 | two batches of a scope that are active or completed at one generation are the same batch |
| `TargetTheorems.BatchMoves` | tools/subscriptions/kubernetes_target_probe.py:208-252 | batch states only move none to active or failed and active to failed or completed, and a batch keeps its generation |
| `TargetTheorems.BatchStateIsHistory` | tools/subscriptions/kubernetes_target_probe.py:193-252 | a batch is completed, or failed, exactly when an accepted completion, or failure, names it |
| `TargetTheorems.CompletionIsOfLatestStart` | tools/subscriptions/kubernetes_target_probe.py:230-232 | an accepted completion is of the batch opened by the scope's latest accepted start: a superseded or failed batch never cleans up |
| `TargetTheorems.CompletionDeletesExactlyOlder` | tools/subscriptions/kubernetes_target_probe.py:243-247 | a completion deletes exactly the objects whose last write precedes its batch's start in the log |
| `TargetTheorems.CleanedCountsDeletions` | tools/subscriptions/kubernetes_target_probe.py:243-247 | the reported `cleaned` is the number of objects of the scope that disappear |
| `TargetTheorems.CompletionCountsMembers` | tools/subscriptions/kubernetes_target_probe.py:233-242 | `item_count` is the number of distinct objects listed for the batch in the log |
| `TargetTheorems.CompletionKeepsMembers` | tools/subscriptions/kubernetes_target_probe.py:233-252 | every member survives the completion with its listed payload at the current generation |
| `TargetTheorems.SurvivorsAreNewer` | tools/subscriptions/kubernetes_target_probe.py:243-252 | every object that survives was written after the batch's start |
| `ConverterSafety.RunIsOk` | tools/ai-document-converter/server.py:103-329 | every interleaving of run, cancel and recovery keeps the supervisor's invariants, whatever termination, Popen and the Office calls do |
| `ConverterTheorems.OnePermit` | tools/ai-document-converter/server.py:118-134 | free permits and permit-owning jobs make one; a registered job owns the permit, so `jobs` has at most one entry and none while the permit is free |
| `ConverterTheorems.PermitOutlivesWork` | tools/ai-document-converter/server.py:118-134 | a permit is back only when the run has ended, its process group is confirmed gone and its Office call, if it made one, is reaped |
| `ConverterTheorems.ResultFollowsRelease` | tools/ai-document-converter/server.py:311-329 | a run that returns a result has given its permit back first |
| `ConverterTheorems.SettledForGood` | tools/ai-document-converter/server.py:118-301 | over any continuation of any run: a released permit is not released again, however many threads finalise; a reaped group never lives again, because Popen is guarded by `cancelled` under the lock; a finished run never resumes |
| `ConverterTheorems.JobsOnlyAdvance` | tools/ai-document-converter/server.py:89-329 | every step of every thread leaves a job's identity and set flags as they are |
| `ConverterTheorems.RefusedRunEvictsNobody` | tools/ai-document-converter/server.py:231-237 | no step of a run that is not registered, or is refused, changes `jobs`, its finalisation included |
| `ConverterTheorems.CancelIsFinal` | tools/ai-document-converter/server.py:182-209 | a cancel that succeeds finds its job over; every job registered under the id when it took the lock is over, whatever the tombstones; as long as its tombstone is kept no other job of the id is registered or has a process |
| `ConverterTheorems.BeforeIsHistory` | tools/ai-document-converter/server.py:182-199 | the jobs that a cancel counts as registered before it are all that were registered under its id at any moment before it took the lock |
| `ConverterTheorems.CancelEndsEarlierJobs` | tools/ai-document-converter/server.py:182-209 | any job registered under an id before a cancel of that id took the lock has released its permit and has no process once that cancel has succeeded, over any run |
| `ConverterTheorems.ServedUnlessBuried` | tools/ai-document-converter/server.py:231-301 | in every interleaving, a request that registers while a tombstone of its id stands is never registered and never has a process; one that registers without it has had its process after two more good steps of its own, or a cancel has marked it |
| `ConverterTheorems.ReceiptsBounded` | tools/ai-document-converter/server.py:111-116 | tombstones and stop receipts never exceed 512 entries |
| `ConverterTheorems.CourseKept` | tools/ai-document-converter/server.py:150-180 | a recovery whose own external actions succeed comes closer to the release at each of its steps, and no step of another thread sets it back |
| `ConverterTheorems.QuarantineIsRecoverable` | tools/ai-document-converter/server.py:225-231 | a quarantined job that a new request has picked releases the permit within seven of that request's own steps, in every interleaving with other threads, when its external actions succeed |
| `ConverterLink.LinkRunIsOk` | tools/ai-document-converter/server.py:136-148 | every run of the docling and the Office supervisor keeps the pair's invariants: requests may be lost or delivered late, each DELETE makes a cancel of its own at Office or is lost, and a success reply needs that very cancel to have succeeded |
| `ConverterLink.EvidenceIsQuiet` | tools/ai-document-converter/server.py:136-148 | an Office success reply, or the success of an Office cancel sent for this job, proves its request quiet: its run returned and is over; or every Office run of the id registered before that cancel took the lock is over without any further condition, and any other is refused while that cancel's tombstone stands |
| `ConverterLink.ReleaseMeansOfficeQuiet` | tools/ai-document-converter/server.py:121-131 | docling gives its permit back only when the job's request is quiet at Office in that sense |
| `ConverterLink.ReleaseEndsOfficeRun` | tools/ai-document-converter/server.py:136-148 | an Office run of a request that was registered before any DELETE for its job took the Office lock is over, with its process gone, once docling has released the job; no tombstone is needed |
| `ConverterLink.OverForGood` | tools/ai-document-converter/server.py:118-134 | an Office run that is over stays over in every continuation of the composed run |
| `ConverterLink.LateRequest` | tools/ai-document-converter/server.py:231-301 | the same at Office in every composed run, for a prepare request that arrives at any time, whatever has become of its docling job: the tombstone at its registration decides |
| `ConverterLimits.LateRequestRuns` | tools/ai-document-converter/server.py:182-209 | a run of the two services in which docling has released its job after a successful DELETE, and the job's prepare request, arriving when the tombstone has been pruned, has a live process at Office |
| `ConverterLink.CancelQuietsBoth` | tools/ai-document-converter/server.py:182-209 | after a successful docling cancel every docling job of the id registered before it is over and quiet at Office; a cancel that found no job and had to ask Office has had its own Office cancel succeed; while docling keeps the tombstone every Office run, waiting request and request on its way with the id is quiet |
| `ConverterStore.Forget` | tools/ai-document-converter/server.py:113-113 | the retention comprehension keeps the recent entries in insertion order |
| `ConverterStore.Service.RememberStoppedLocked` | tools/ai-document-converter/server.py:111-116 | pruning, eviction of the oldest when full, insertion in place or at the end |
| `ConverterStore.Service.SettleLocked` | tools/ai-document-converter/server.py:118-134 | the guard, the removal of the job's own entry only, the release, the receipt and `done`, as one update of all fields |
| `ConverterStore.Service.RegisterLocked` | tools/ai-document-converter/server.py:233-237 | refusal of a used or buried id, otherwise the entry and the registered flag |
| `ConverterStore.Service.StartOfficeLocked` | tools/ai-document-converter/server.py:249-253 | a cancelled job does not start an Office call |
| `ConverterStore.Service.SpawnLocked` | tools/ai-document-converter/server.py:290-301 | a cancelled job does not start a child |
| `ConverterStore.Service.FinishLocked` | tools/ai-document-converter/server.py:318-329 | the end of run under the lock, with the finalisation that it triggers |
| `ConverterStore.Service.PickLocked` | tools/ai-document-converter/server.py:154-166 | recovery picks a finished, permit-owning job that nobody recovers, or there is none |
| `ConverterStore.Service.BuryLocked` | tools/ai-document-converter/server.py:184-188 | the tombstone with its pruning and eviction |
| `ConverterStore.Service.CancelLocked` | tools/ai-document-converter/server.py:183-198 | the first block of cancel: the tombstone, the mark, the kill and the decision to call Office |
| `TargetOracle.VerifyRows` | tools/ingress/workload.py:248-329 | the three passes with their tallies: counts and examples summarise exactly the failures of the rows, attempts and keys, in that order; it passes when there are none |
| `TargetOracle.PassMeans` | tools/ingress/workload.py:266-325 | a pass means, and is meant by: rows in bijection with the inputs, with matching content and one write; attempts with matching content, a permutation of 1 to the row's count, at most 64, ordinal 1 alone an insert |
| `TargetOracle.Pigeonhole` | tools/ingress/workload.py:310-319 | a count and a set of ordinals, as the oracle keeps them, decide whether each ordinal occurs exactly once |
| `TargetOracle.GroupSummarises` | tools/ingress/workload.py:283-293 | what the streaming group holds of a key's attempts |
| `TargetOracle.PassCountsWrites` | tools/ingress/workload.py:272-274 | on a pass `effective_writes` is the number of distinct inputs |
| `Manifest.MessageIdsDistinct` | tools/ingress/workload.py:136-150 | the six-digit numbering never gives two entries one identity, beyond six digits included |
| `Manifest.GeneratedAgrees` | tools/ingress/reference_adapter.py:68-109 | the checks and values with which the adapter reads a generated body, from either source, give exactly the entry that the oracle expects under its key |
| `Manifest.GeneratedWrites` | tools/ingress/workload.py:248-329 | on a pass over a generated manifest the effective writes number its entries |
| `AdapterStore.Target.Transaction` | tools/ingress/reference_adapter.py:182-250 | the statements of the transaction in place, with rollback: what is stored, which refusal is given exactly when, and the ordinal and outcome of a commit |
| `AdapterTarget.WriteKeepsTables` | tools/ingress/reference_adapter.py:198-235 | a transaction keeps attempts equal to the number of attempt rows, numbered 1 to it, ordinal 1 alone inserted |
| `AdapterTarget.ReplayAccounts` | tools/ingress/reference_adapter.py:190-235 | after any log of commits a key's attempts number its commits, at most 64, with exactly those attempt rows |
| `AdapterTarget.ContentNeverChanges` | tools/ingress/reference_adapter.py:204-214 | every commit under a key carried the content of its row |
| `AdapterTarget.Serialisable` | tools/ingress/reference_adapter.py:182-250 | whatever the interleaving of statements of concurrent transactions, lost connections and commits, the tables are those of the committed transactions run whole in commit order |
| `AdapterTarget.ConstraintsNeverFire` | tools/ingress/target.sql:2-25 | no statement of the adapter is ever refused by the CHECKs or the attempts' primary key, and the row is always there to lock |
| `AdapterTarget.CommitIsWrite` | tools/ingress/reference_adapter.py:235-240 | what COMMIT publishes is the whole transaction applied to the tables as they are then |
| `AdapterTarget.OracleAcceptsAdapter` | tools/ingress/workload.py:248-329 | for every interleaving of transactions on manifest inputs and any listing of the tables, the oracle passes exactly when every input has committed |
| `AdapterBatch.WriteMember` | tools/ingress/reference_adapter.py:466-552 | the retry loop of one member equals its specification: doubt, classification, shared retries and deadline |
| `AdapterBatch.RunBatch` | tools/ingress/reference_adapter.py:431-566 | one result per member in order, each what the members' runs up to it give; after a member that did not succeed, not_run |
| `AdapterBatch.InvocationShape` | tools/ingress/reference_adapter.py:443-566 | results are succeeded members, then at most one failed or unknown, then not_run; at most members + 19 write attempts |
| `AdapterBatch.MemberBounds` | tools/ingress/reference_adapter.py:466-552 | a member takes at most one attempt more than the retries it uses, and retries never exceed 19 |
| `AdapterBatch.MemberHonest` | tools/ingress/reference_adapter.py:494-544 | the doubt flag covers every attempt that took effect unseen |
| `AdapterBatch.InvocationHonest` | tools/ingress/reference_adapter.py:431-566 | succeeded implies committed; failed, not_run and execution_timeout imply that this invocation committed nothing for the member; a commit not reported succeeded is reported unknown |
| `AdapterBatch.UntrustedTargetMisleads` | tools/ingress/reference_adapter.py:494-503 | the honesty needs its assumption: a refused COMMIT with a non-retryable error that did take effect is reported failed |
| `AdapterTarget.EffectIsCommit` | tools/ingress/reference_adapter.py:182-250 | a transaction of the interleaving whose COMMIT takes effect is, with its own item, the entry of the target's log right behind what had been committed before it |
| `AdapterBatch.ReportsMatchTarget` | tools/ingress/reference_adapter.py:431-566 | with each attempt a transaction of the interleaved target: a member reported succeeded is a commit there, and none of the transactions of a member reported failed took effect |
| `AdapterBatch.ReportedSuccessesPass` | tools/ingress/reference_adapter.py:431-566 | when every input was reported succeeded by some invocation whose attempts are transactions of the target, the oracle passes on the tables that all interleaved transactions left |
| `RetryAfter.HonouredExactly` | tools/ingress/workload.py:375-381 | the decimal notation of a number, with leading zeros, raises above 4300 digits, is honoured when the number is 1 to 30, and asks for one second otherwise, as no header does |
| `RetryAfter.HonouredOnly` | tools/ingress/workload.py:375-381 | a header that is honoured is such a notation of at most 4300 digits, and one that raises is such a notation of more |
| `SenderSafety.NextKeeps` | tools/ingress/workload.py:384-744 | every step of the loop and its workers keeps the sender's invariants |
| `SenderTheorems.ExactlyOnePlace` | tools/ingress/workload.py:643-744 | every manifest index is in exactly one of unsent, active, deferred and decided |
| `SenderTheorems.AtMostTwentyPosts` | tools/ingress/workload.py:550-555 | no identity is POSTed more than twenty times |
| `SenderTheorems.RetriesAreTimely` | tools/ingress/workload.py:550-555 | an item that waits to be tried again has been POSTed before, is POSTed again only below twenty times and before the deadline or has a receipt to ask for, and is due at most 30 s ahead |
| `SenderSafety.RetryFits` | tools/ingress/workload.py:550-555 | _retry schedules a POST that is allowed, a second or more ahead and before the deadline, or reports the item exhausted with no receipt, and then its attempts are used up or the deadline is at most 30 s away |
| `SenderTheorems.InFlightBounded` | tools/ingress/workload.py:460-504 | requests in flight and active items never exceed the concurrency |
| `SenderTheorems.FollowUpsWaitForFirsts` | tools/ingress/workload.py:475-483 | a retry or query starts only when every first POST is accounted for; a first POST only before the first deadline and before any follow-up |
| `SenderTheorems.FirstsPrecedeFollowUps` | tools/ingress/workload.py:432-441 | in the record of a run no first POST follows a retry or query |
| `SenderTheorems.FollowUpRate` | tools/ingress/workload.py:443-473 | any window of w seconds holds at most 500 w + 1 follow-up starts |
| `SenderTheorems.FinalReport` | tools/ingress/workload.py:744-781 | at the end every input has its outcome, `accepted` numbers the accepted ones, and the four kinds of first answer and `first_not_sent` add up to the inputs |
| `SenderTheorems.Amplification` | tools/ingress/workload.py:490-490 | `post_requests` is the sum of the POSTs of all identities, at most twenty each |
| `SenderTheorems.StepsMakeProgress` | tools/ingress/workload.py:643-744 | every step but waiting lowers a measure on attempts left and stage |
| `SenderTheorems.RunsAreBounded` | tools/ingress/workload.py:643-744 | a run takes at most 423 steps an input and one more, besides waiting |
| `SenderTheorems.NeverStuck` | tools/ingress/workload.py:674-744 | once the deadline has passed some step is possible until the loop is over |
| `SenderStore.HttpSender.MarkFirst` | tools/ingress/workload.py:432-441 | an item is accounted for once, as started or as not sent, and the last one opens the follow-ups |
| `SenderStore.HttpSender.CutFirstRound` | tools/ingress/workload.py:676-684 | the two loops at the first deadline amount to one update: unsent items decided, unsent and active ones marked |
| `SenderStore.HttpSender.FlushDeferred` | tools/ingress/workload.py:685-689 | at the deadline every deferred item is decided as exhausted and no other changes |
| `SenderStore.HttpSender.StartRequest` | tools/ingress/workload.py:461-492 | admission: slot, pacing, first accounting and counters in one segment |
| `SenderStore.HttpSender.FinishRequest` | tools/ingress/workload.py:557-641 | what an answer or failure makes of the item, its counters and its next stage |
| `SenderStore.HttpSender.Take` | tools/ingress/workload.py:731-744 | a finished item is decided or deferred |
| `Publishing.RunIsOk` | tools/ingress/workload.py:917-1094 | under any order of callbacks pending, acked and nacked partition 1 to next, at most 32 are pending, and what is complete is fully acked |
| `Publishing.ReportAddsUp` | tools/ingress/workload.py:1128-1158 | acked, nacked, unknown and not published make up the inputs; a complete run has acked them all |
| `Publishing.CompleteExactly` | tools/ingress/workload.py:1083-1094 | a callback sets `complete` exactly when it is a recognised ack after which all tags are acked with nothing returned and no failure before |
| `Publishing.CompleteAndFailed` | tools/ingress/workload.py:1045-1126 | a run that is complete and has not failed stays complete, and fails later exactly when a confirmation, a return, the total timer, an open error or a raising callback follows |
| `Publishing.LateTimerFails` | tools/ingress/workload.py:1108-1110 | such a callback exists: the unconditional 15 s timer can fire while `close` lets the loop run on, and marks a complete run as failed |
| `Publishing.MultipleSettlesUpTo` | tools/ingress/workload.py:1065-1080 | a confirmation with `multiple` settles every outstanding tag up to its own, all for tag 0, and no tag beyond; without it only its own |
| `Publishing.ClosingIsFinal` | tools/ingress/workload.py:948-956 | a closing publisher publishes nothing more, and the first failure code stays |
| `Publishing.Publisher.Pump` | tools/ingress/workload.py:1012-1043 | the publishing loop against its specification, with a call that raises |
| `Publishing.Publisher.OnConfirmation` | tools/ingress/workload.py:1058-1094 | a confirmation's whole effect, unrecognised tags and kinds included |
| `Publishing.Publisher.OnReturn` | tools/ingress/workload.py:1045-1056 | a returned message fails the run, known or not |
| `Publishing.Publisher.Fail` | tools/ingress/workload.py:948-956 | the first failure is kept and the publisher closes |
| `Sorting.PercentileMeans` | tools/ingress/management_probe.py:562-563 | the 95th percentile is one of the values, at least 95% of them do not exceed it, and no smaller bound has that |
| `ProbeVerdict.FindFirst` | tools/ingress/management_probe.py:690-696 | the first sample in end order that qualifies, or none |
| `ProbeVerdict.FindLast` | tools/ingress/management_probe.py:695-695 | the last one that qualifies |
| `ProbeVerdict.CheckCoverage` | tools/ingress/management_probe.py:679-683 | the counter test holds exactly when each endpoint was sampled once in each slot and nothing else was |
| `ProbeVerdict.PassIsSound` | tools/ingress/management_probe.py:690-715 | on a pass, if each sample shows the state at some instant of its request and the accepted count never falls: the one instant of acceptance lies in the reported interval, at most 60 s after the first request, and all was done at most 600 s after it |
| `ProbeSampler.RunCovers` | tools/ingress/management_probe.py:520-556 | each endpoint has one sample, one missed row or one open request per slot, at every moment |
| `ProbeSampler.CoverageMatchesSampler` | tools/ingress/management_probe.py:542-548 | the verdict finds the sampling incomplete exactly when the sampler wrote a missed row |
| `ProbeSampler.CompletionMatchesSampler` | tools/ingress/management_probe.py:508-513 | sorting the sampler's log changes nothing, and the verdict goes by the completion that the sampler saw |
| `ProbeSampler.Sampler.PassOnce` | tools/ingress/management_probe.py:526-548 | one pass of the loop: reap, then a request or a missed row per endpoint |
| `ProbeSampler.Sampler.FinishOne` | tools/ingress/management_probe.py:498-518 | the end of a request: its row, counters, completion and readiness |
| `Framing.PackThenRead` | tools/subscriptions/probe_kafka_ack_fault.py:129-129 | big-endian signed 32-bit integers round-trip |
| `Framing.ReadThenPack` | tools/subscriptions/probe_kafka_ack_fault.py:97-97 | and so do their four bytes |
| `Framing.EmitThenParse` | tools/subscriptions/probe_kafka_ack_fault.py:96-129 | frames that were written are read back, followed by whatever follows |
| `Framing.ParseThenEmit` | tools/subscriptions/probe_kafka_ack_fault.py:96-103 | reading loses nothing: frames and remainder make up the stream |
| `Framing.Relay` | tools/subscriptions/probe_kafka_ack_fault.py:77-131 | whatever way the stream is cut into chunks, the relay sends on what handling the frames of the whole stream gives, stops included, for whatever its frames meet in the table |
| `Framing.RelayedIsFramed` | tools/subscriptions/probe_kafka_ack_fault.py:104-129 | what it sends is read by the other side as the handled frames, none changed in size by the port rewrite |
| `FaultProxy.RelaysMakeSession` | tools/subscriptions/probe_kafka_ack_fault.py:60-131 | both relays over the one correlation table, in any interleaving: each sends exactly what `Relay` sends for its stream with what its frames really met |
| `FaultProxy.ClassifiedByOwnRequest` | tools/subscriptions/probe_kafka_ack_fault.py:104-128 | in every interleaving and fault mode, a response is classified by the API key and arming of its own request exactly when its id was last used by a request of that kind; the entry is its own request's exactly when the last request with the id was forwarded and is the only forwarded one unanswered |
| `FaultProxy.ReuseMisleads` | tools/subscriptions/probe_kafka_ack_fault.py:104-122 | two forwarded requests under one id, a Metadata and an OffsetCommit one: the answer to the first is taken for one to the second, and its ports are not rewritten |
| `FaultProxy.NoReuseClassifies` | tools/subscriptions/probe_kafka_ack_fault.py:104-129 | with a client that never reuses an outstanding id every response pops its own request's key and arming, and is dropped, rewritten or forwarded as that request asks for, dropped requests or not |
| `LineSplitter.ReadChunks` | tools/subscriptions/probe_clients.py:164-190 | the outcome is that of reading the whole body at once, however it is cut; the buffer never exceeds the cap and one read; the body limit is the one named exactly when some read ended with too much of the line but not its newline |
| `LineSplitter.ReturnedAreLines` | tools/subscriptions/probe_clients.py:172-190 | what is returned are non-empty JSON lines within the cap, no more than wanted |
| `LineSplitter.NothingIsLost` | tools/subscriptions/probe_clients.py:172-190 | fewer lines than wanted are the whole body but for its newlines |
| `LineSplitter.NamedLimitDependsOnCut` | tools/subscriptions/probe_clients.py:174-185 | one body, cut in two ways, names two different limits |
| `Migrations.Graph` | tools/local-preview/migrations.py:6-48 | it accepts exactly the directories that declare one linear history, names its head, and otherwise says which test failed |
| `Migrations.Walk` | tools/local-preview/migrations.py:39-47 | the walk ends because `seen` grows inside the revisions; it succeeds exactly on a chain |
| `Migrations.ChainIsUnique` | tools/local-preview/migrations.py:35-47 | a history has one chain only |
| `Migrations.Compatible` | tools/local-preview/migrations.py:51-61 | it accepts exactly when both histories are linear, the old one is preserved and the database's revision is in the new one |
| `Migrations.PreservedIsTail` | tools/local-preview/migrations.py:54-58 | preserving every revision with its parent is the same as being the root-side end of the new chain |
| `Migrations.AcceptedMeans` | tools/local-preview/migrations.py:51-61 | after an acceptance the old chain is the root-side end of the new one, and the database's revision is an ancestor of the head or the head |
| `Migrations.AcceptanceComposes` | tools/local-preview/migrations.py:51-61 | where a second directory is accepted over a first and a third over the second, the third is accepted over the first |

## Left out

- Hashes, canonical JSON, base64, UUIDs and regular expressions are abstract values that are equal only when their content is.
- HTTP servers and clients, sockets, subprocesses, signals, PostgreSQL, pika and psycopg are steps of the environment that succeed, fail or lose their answer.
- Envelopes of a wrong JSON type are outside the typed envelope of the Kubernetes target; `validate` rejects them all with the same 422 answer. Batch ids are given as the text that `str` makes of them.
- The HTTP handlers, authorisation and fault modes of the Kubernetes target.
- ConverterState.Settle: numbers every change, and the entries of the two dictionaries of times, with serial numbers that the program does not have; the theorems use them to tell one tombstone from a later one.
- In the converter: the contents of conversions, the temporary directory, the deadline arithmetic (any step may time out instead), and the processor, Office and sandbox programs.
- In `verify_rows`: the LIMIT clauses of the two queries. Timestamps of the target tables.
- In the adapter: the text of the log lines, the 512-byte and 64 KiB result limits, `_batch_members` (a batch is given with at least one member), and connection options. A batch member's input is readable or fails with some error; `Manifest.Payload` has the checks.
- AdapterTarget.Serialisable: locks are taken and statements see the latest commits as READ COMMITTED does; deadlocks between transactions, which have one key each, do not occur.
- In the HTTP sender: time is an integer of microseconds that passes between steps only; the private event log (`_emit`), status tallies, sink errors and cancellation of the whole run. More interleavings are allowed than the event loop produces.
- In the publisher: connection set-up, timestamps, the burst verdict and callbacks made from inside `basic_publish`.
- In the probe: clock domains, private files, process identity and producer supervision; the producer's evidence is given as its first request time or none. The comparison of `elapsed_ms` with the two timestamps and the binary rounding of `0.95 * n`, which does not change the rank.
- FaultProxy.ClassifiedByOwnRequest: a response's own request is the next forwarded one with its id; an acknowledgement-free produce request, which gets no response, is not told apart.
- In the relay: the empty chunk that ends a stream, `response_seen` and the other events that only report, and threads closing each other's sockets.
- In `bounded_raw_k8s`: the call with `lines=False`, the deadline and the response headers.
- In the migration checker: the reading of Python source; a file is given as its four assigned fields.
- Exploratory and smoke scripts, the web interface, measurement drivers and the earlier duplicates under `tools/ingress_b0`.
- The Control and Worker runtime described in the READMEs, whose source is not part of this model.
