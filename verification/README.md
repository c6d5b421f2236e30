# A verified model of the PQC risk assessment backend

The backend discovers endpoints, scans them for cryptographic assets, scores the risk of those assets,
plans their migration and evaluates performance. This project models its most involved parts in Dafny
and proves what they keep, over all inputs and all interleavings.

| modules | what they model |
|---|---|
| JobRows, JobInvariants, JobRuns, JobCoherence, JobPipeline, JobTermination, JobEffects, JobDatabase | jobs, queued tasks and discoveries, moved by create, claim, complete, fail and cancel transactions from the API and any number of workers |
| Ike, IkeRoundTrip | the IKEv2 SA_INIT builder and the parser of sections 3.1 to 3.3.5 of RFC 7296, with the marker of section 2.2 of RFC 3948 |
| Ssh | the key blob reader of section 5 of RFC 4251 and section 6.6 of RFC 4253 |
| SniWorklist | the worklist of server names in a TLS scan |
| OrderedDict, Candidates, Dedupe | deduplication of scan candidates |
| ScanAccounting | run logs, progress and findings of a scan |
| Endpoints, FollowUp | storing discovered endpoints, promoting them to targets, and the scan of those targets |
| Json, Metrics, MetricValues, Ascii, Evaluation, CommutativeFold, FailurePaths | metric normalisation, evaluation and failure paths |
| Rounding, Risk, Dhs | the two risk scores, over reals with half-even rounding |
| Migration | the recommendation and the guard around a language model's choice |

Each `transaction.atomic()` block is one step. The work between a claim and the completion or failure is
an outcome that the worker's slot holds until one of them happens. Methods and classes follow the code's
loops and row updates; each is proved against a function, and the lemmas state what that function promises.

Four results differ from what a reader of the code might expect:

- A worker that fails after its discovery was cancelled and requested again overwrites the newer
  request's row. `JobCoherence.StepCoherent` says exactly when rows and jobs disagree, and
  `JobCoherence.StepOneActive` exactly which request then gives a scope two active jobs;
  `JobCoherence.LateFailureBreaks` shows such a run.
- Without the non-ESP marker, an SPI that starts with four zero bytes makes the parser drop every
  transform. `IkeRoundTrip.UnmarkedExactly` gives the exact condition, `IkeRoundTrip.LookalikeIsLost` an input.
- The branch of a claim for a cancelled job is never taken (`JobInvariants.ClaimFindsPending`).
- A recommendation never has alternatives (`Migration.NoAlternatives`), so a language model can change only
  the wording and the confidence.

`dafny verify dfyconfig.toml` checks everything.

## Model

| member | source | states |
|---|---|---|
| JobRows.LatestFor | system/backend/apps/discoveries/api.py:158-168 | the newest discovery row of a scope, or none exists |
| JobRows.RowOfJob | system/backend/apps/jobs/services.py:118-121 | the row whose current job is this one, or no row has it |
| JobInvariants.StepInv | system/backend/apps/jobs/scan_worker.py:37-67 | every transaction keeps the whole invariant: links between rows, one task per job, task and job agreeing, at most one attempt, workers holding different tasks |
| JobInvariants.ClaimFindsPending | system/backend/apps/jobs/scan_worker.py:37-67 | a queued task's job is always pending and nobody holds the task, so the claim's branch for a cancelled job is dead |
| JobInvariants.CancelInv | system/backend/apps/jobs/services.py:73-134 | cancellation moves a job and its task together and keeps the invariant |
| JobInvariants.CreateDiscoveryInv | system/backend/apps/discoveries/api.py:157-213 | creating or re-attaching a discovery keeps scopes distinct and every row's job its own |
| JobInvariants.CompleteDiscoveryInv | system/backend/apps/discoveries/services.py:441-526 | completing a discovery and queueing its scan keeps the invariant |
| JobInvariants.CompleteOtherInv | system/backend/apps/jobs/scan_worker.py:355-407 | so do the completions of scans (with the run they queue), recomputes and performance runs |
| JobInvariants.FailInv | system/backend/apps/jobs/scan_worker.py:410-420 | failing keeps the invariant although it checks nothing |
| JobRuns.Exec | system/backend/apps/jobs/scan_worker.py:26-67 | the state after any list of events satisfies the invariant |
| JobRuns.RunsAgree | system/backend/apps/jobs/scan_worker.py:355-420 | in every run from empty tables each task shows its job's status (queued for pending), no task is tried twice, and every job has its task |
| JobRuns.StepMoves | system/backend/apps/jobs/services.py:73-101 | in one step a job moves only along the allowed transitions, keeps its other fields, and leaves cancelled only by a late failure, never if it is a recompute |
| JobRuns.FinishedForGood | system/backend/apps/risk/services.py:270-297 | over every run: completed and failed are never left, cancelled leads to nothing but failed, and a recompute never leaves cancelled |
| JobCoherence.StepCoherent | system/backend/apps/discoveries/services.py:529-552 | from a coherent state a step keeps rows and jobs coherent if and only if it is not a failure whose row has moved on to another job that has not failed |
| JobCoherence.GuardedRunsCoherent | system/backend/apps/discoveries/services.py:441-552 | coherence over every run without such a failure |
| JobCoherence.CoherentOneActive | system/backend/apps/discoveries/api.py:157-170 | coherence gives at most one active discovery job per scope |
| JobCoherence.NoLateFailureGuarded | system/backend/apps/discoveries/services.py:131-167 | a worker that fails only jobs nobody cancelled never fails over a newer job |
| JobCoherence.DiscoveriesStayCoherent | system/backend/apps/jobs/services.py:112-134 | in every run without a late failure each discovery shows its current job's status, every active discovery job is its row's current one, and a scope has at most one active job |
| JobCoherence.StepOneActive | system/backend/apps/discoveries/api.py:157-170 | from a state with at most one active discovery job per scope a step keeps that if and only if it is not a request that finds its scope's row inactive while a job on that row is active |
| JobCoherence.RunsOneActive | system/backend/apps/discoveries/api.py:157-213 | over every run without such a request, late failures included, no scope ever has two active jobs |
| JobCoherence.CoherentNeverReopens | system/backend/apps/discoveries/api.py:157-170 | no request does that while rows and jobs are coherent |
| JobCoherence.LateFailureBreaks | system/backend/apps/discoveries/services.py:529-552 | a five-step run with a late failure that breaks coherence, after which one request gives a scope two active jobs |
| JobPipeline.StepSpawns | system/backend/apps/discoveries/services.py:475-526 | every step keeps the records that tie each spawned scan and run to the job that spawned it, in both directions |
| JobPipeline.OneScanPerDiscovery | system/backend/apps/discoveries/services.py:454-526 | over every run a completed discovery with auto-scan and promoted targets has exactly one scan; otherwise none |
| JobPipeline.OneRunPerScan | system/backend/apps/jobs/scan_worker.py:381-407 | over every run a completed scan has at most one performance run, the one its result names |
| JobPipeline.CompletionRecordsTargets | system/backend/apps/discoveries/services.py:475-526 | the follow-up record counts the promoted targets and the new scan has them |
| JobPipeline.CompletionQueuesRun | system/backend/apps/jobs/scan_worker.py:355-407 | completing a scan that nobody cancelled queues one run exactly when a check was asked for and a snapshot exists, and adds no job |
| JobTermination.WorkerStepDecreases | system/backend/apps/performance/worker.py:23-78 | every worker event that changes anything lowers the weighted sum over tasks and busy workers |
| JobTermination.PipelineTerminates | system/backend/apps/jobs/scan_worker.py:26-67 | without new requests any run has at most as many effective worker events as that sum, cancellations included |
| JobTermination.PipelineProgresses | system/backend/apps/performance/worker.py:11-20 | while the sum is positive some worker can complete or claim, so it cannot stall |
| JobTermination.PayloadRunsOnce | system/backend/apps/discoveries/services.py:120-167 | over every run a task's payload is started at most once, however many workers pick the same queue head |
| JobEffects.CancelTakes | system/backend/apps/jobs/services.py:73-134 | for every state: a finished job or a running recompute refuses and nothing changes; for every other job it, its task and the row attached to it become cancelled and nothing else changes |
| JobEffects.CreateDiscoveryTakes | system/backend/apps/discoveries/api.py:157-213 | for every state: a scope under way changes nothing; otherwise one job with exactly the request's flags, its task, and the scope's row, found or new, attached to it |
| JobEffects.OtherRequestsTake | system/backend/apps/jobs/api.py:61-80 | a scan has exactly the requested targets; recomputes, runs and run tasks are added as requested |
| JobEffects.ClaimTakes | system/backend/apps/jobs/scan_worker.py:37-67 | an idle worker's claim of a queued task sets task, job and discovery row running and counts the attempt; any other claim changes nothing |
| JobEffects.CompleteTakes | system/backend/apps/jobs/scan_worker.py:355-378 | a completion only frees the worker if the job was cancelled, otherwise it completes task, job and row; other rows stay |
| JobEffects.FailTakes | system/backend/apps/discoveries/services.py:529-552 | a failure fails task, job and row whatever the job's status, frees the worker, and touches nothing else |
| JobEffects.RequestDecidesScan | system/backend/apps/discoveries/services.py:475-526 | over every run in which a worker completes a request's job uncancelled, and every run after it: the job has a scan in its name if and only if the request asked for one and targets were promoted; it is the only one, has those targets, and asks for an availability check if and only if the request did |
| JobDatabase.Database.constructor | system/backend/apps/jobs/services.py:63-70 | empty tables and idle workers satisfy the invariant |
| JobDatabase.Database.CreateDiscovery | system/backend/apps/discoveries/api.py:148-216 | the class's rows change as the step says; the returned job is the current job of a row of that scope, and a new one has the request's flags |
| JobDatabase.Database.CreateScanJob | system/backend/apps/jobs/api.py:61-80 | a pending scan job and its queued task are added |
| JobDatabase.Database.CreateRecomputeJob | system/backend/apps/risk/services.py:65-74 | a pending recompute job and its queued task are added |
| JobDatabase.Database.CreatePerformanceRun | system/backend/apps/performance/api.py:67-79 | a run is added, without a task |
| JobDatabase.Database.EnqueueRun | system/backend/apps/performance/services.py:38-39 | the run's queued task is added, by a client's request in a transaction of its own or by a scan's completion |
| JobInvariants.QueueTaskInv | system/backend/apps/performance/api.py:73-79 | queueing a run that has no task keeps the invariant, whether or not it is ever queued |
| JobDatabase.Database.CancelQueuedTasks | system/backend/apps/jobs/services.py:104-109 | the loop over tasks changes exactly the job's queued and running ones |
| JobDatabase.Database.SyncCancelledResource | system/backend/apps/jobs/services.py:112-134 | the discovery row still attached to the job becomes cancelled, nothing else moves |
| JobDatabase.Database.RequestCancel | system/backend/apps/jobs/services.py:73-101 | refused if and only if the job was completed, failed or a running recompute, and then nothing changes; otherwise it ends cancelled |
| JobDatabase.Database.ClaimTask | system/backend/apps/jobs/scan_worker.py:37-67 | a task starts only if it was queued, and the worker then holds it |
| JobDatabase.Database.CompleteDiscoveryTask | system/backend/apps/discoveries/services.py:441-472 | a cancelled job's completion only cancels the task; otherwise task, row and job complete and the scan is queued |
| JobDatabase.Database.CompleteScanTask | system/backend/apps/jobs/scan_worker.py:355-378 | the same for scans, with the performance run |
| JobDatabase.Database.CompleteRecomputeTask | system/backend/apps/risk/services.py:270-283 | completes without looking at cancellation |
| JobDatabase.Database.CompletePerformanceTask | system/backend/apps/performance/worker.py:51-56 | completes the task |
| JobDatabase.Database.FailTask | system/backend/apps/risk/services.py:286-297 | task, row and job fail, whatever the job's status |
| JobDatabase.Database.Handle | system/backend/apps/jobs/scan_worker.py:26-34 | any event takes the class's rows along the modelled step and keeps the invariant |
| Ike.AlgorithmIdentifies | system/backend/apps/jobs/network_scanner.py:874-887 | what is reported determines the transform's type and id: a name stands for one pair, and a number is given only where the tables have no name |
| Ike.KeyedExactly | system/backend/apps/jobs/network_scanner.py:874-880 | a key length is reported if and only if the cipher is AES-CBC or AES-CTR and the length is given and not zero |
| Ike.KeyLength | system/backend/apps/jobs/network_scanner.py:890-902 | the attribute loop finds the first fixed attribute of type 14, skipping variable ones by their length |
| Ike.ReportTransform | system/backend/apps/jobs/network_scanner.py:860-866 | what the transform at the cursor adds to the reading of the rest |
| Ike.ParseTransforms | system/backend/apps/jobs/network_scanner.py:852-869 | the transform loop reads what the recursive meaning of the bytes after the SPI says, for every byte string |
| Ike.ParseProposals | system/backend/apps/jobs/network_scanner.py:842-871 | the proposal loop does, numbering proposals from 1 |
| Ike.ParsePayloads | system/backend/apps/jobs/network_scanner.py:828-839 | the payload loop does, following the next-payload chain |
| Ike.ParseResponse | system/backend/apps/jobs/network_scanner.py:823-839 | terminates on every byte string with every read in bounds, and returns the recursive meaning of the message |
| Ike.CandidatesFit | system/backend/apps/jobs/network_scanner.py:823-871 | eight bytes per candidate plus 40 never exceed the message length when there is any |
| Ike.TruncationIsMonotone | system/backend/apps/jobs/network_scanner.py:823-871 | for every message and cut point the candidates of the prefix are a prefix of the candidates |
| IkeRoundTrip.AttributesRoundTrip | system/backend/apps/jobs/network_scanner.py:890-902 | fixed and variable attributes laid out and scanned give the first fixed type-14 value |
| IkeRoundTrip.TransformsRoundTrip | system/backend/apps/jobs/network_scanner.py:807-809 | laid-out transforms of any number and attributes are read back in order |
| IkeRoundTrip.ProposalsRoundTrip | system/backend/apps/jobs/network_scanner.py:842-871 | proposals with any SPI size are read back with their numbers |
| IkeRoundTrip.AfterLastIgnored | system/backend/apps/jobs/network_scanner.py:852-869 | whatever follows the transform marked as the last is ignored |
| IkeRoundTrip.MalformedTransformStops | system/backend/apps/jobs/network_scanner.py:855-858 | reading stops before a transform that is cut off or states an impossible length, and keeps what came before |
| IkeRoundTrip.MalformedProposalStops | system/backend/apps/jobs/network_scanner.py:842-850 | the same of proposals |
| IkeRoundTrip.OverlongSpiSkipped | system/backend/apps/jobs/network_scanner.py:850-855 | a proposal whose SPI reaches past its end reports nothing and the next one is read |
| IkeRoundTrip.PayloadsRoundTrip | system/backend/apps/jobs/network_scanner.py:828-839 | payload chains are read back, other payload types and trailing bytes transparent |
| IkeRoundTrip.RoundTrip | system/backend/apps/jobs/network_scanner.py:823-902 | every message of such payloads, with the non-ESP marker or with an SPI that does not look like it, gives exactly its type 1-4 transforms with indexes and key lengths |
| IkeRoundTrip.UnmarkedExactly | system/backend/apps/jobs/network_scanner.py:823-827 | without a marker the round trip holds if and only if the SPI does not start with four zero bytes or the bytes misread four places on give the same; for a message id that starts with a zero byte, as in SA_INIT, if and only if the SPI does not start so or there is nothing to report |
| IkeRoundTrip.LookalikeIsLost | system/backend/apps/jobs/network_scanner.py:771-791 | a failing input: the builder's own packet under such an SPI, sent without a marker, reads as nothing |
| IkeRoundTrip.BuilderLaysOut | system/backend/apps/jobs/network_scanner.py:771-820 | the packet the builder sends is such a message |
| IkeRoundTrip.OfferIsRecognised | system/backend/apps/jobs/network_scanner.py:771-820 | parsed back, the builder's offer is AES-CBC-256, HMAC-SHA2-256, its integrity and MODP-2048, in order |
| Ssh.MpintReads | system/backend/apps/jobs/network_scanner.py:727-729 | an RFC 4251 mpint, with its zero byte before a set top bit, reads back as its number |
| Ssh.BitLengthIsSize | system/backend/apps/jobs/network_scanner.py:698-713 | the bit length is the position of the top bit |
| Ssh.StringReads | system/backend/apps/jobs/network_scanner.py:716-724 | a length-prefixed string reads back from any position |
| Ssh.TrailingBytesIgnored | system/backend/apps/jobs/network_scanner.py:698-713 | bytes after an accepted blob change nothing, for every key type |
| Ssh.RsaRoundTrip | system/backend/apps/jobs/network_scanner.py:698-729 | every exponent and modulus encoded as an RSA blob, whatever follows, gives RSA with the modulus' bit length |
| Ssh.RsaPrefixRejected | system/backend/apps/jobs/network_scanner.py:698-729 | every strict prefix of such a blob is rejected |
| Ssh.EcdsaRoundTrip | system/backend/apps/jobs/network_scanner.py:706-708 | an ECDSA blob, whatever follows, is recognised with its curve, by the short name of the three that have one |
| Ssh.Ed25519RoundTrip | system/backend/apps/jobs/network_scanner.py:709-710 | an Ed25519 blob is recognised by its name |
| Ssh.RsaByKeyType | system/backend/apps/jobs/network_scanner.py:702-705 | under an RSA key type any ASCII name followed by two numbers gives the second one's size |
| Ssh.OtherNamesRejected | system/backend/apps/jobs/network_scanner.py:698-713 | every other name is rejected |
| SniWorklist.InitialNames | system/backend/apps/jobs/network_scanner.py:553-560 | the primary name first, then exactly the other aliases, without repeats |
| SniWorklist.Enqueue | system/backend/apps/jobs/network_scanner.py:139-144 | afterwards every given name is seen or pending, and what was appended was given, not seen and not pending |
| SniWorklist.ScanTls | system/backend/apps/jobs/network_scanner.py:126-146 | terminates when some finite set of names is closed, probes each name once, and the probed set is the least one that holds the initial names and is closed under leaf SANs and aliases |
| SniWorklist.AssetsInOrder | system/backend/apps/jobs/network_scanner.py:126-146 | the assets are those of each probe, in the order of the probes |
| OrderedDict.FoldKeys | system/backend/apps/jobs/scan_worker.py:269-277 | folding into a dictionary leaves one entry per key in first-occurrence order |
| OrderedDict.FoldGroupFrom | system/backend/apps/jobs/scan_worker.py:269-277 | each entry is its key's elements merged in order |
| OrderedDict.FoldLoop | system/backend/apps/jobs/scan_worker.py:269-277 | the loop over a mutable dictionary computes that fold |
| Candidates.MergeValues | system/backend/apps/jobs/scan_worker.py:312-327 | the values of both arguments without blanks or repeats, and nothing else |
| Candidates.MergedInOrder | system/backend/apps/jobs/scan_worker.py:312-327 | the non-blank values of both arguments, each at its first occurrence |
| Candidates.MergeFields | system/backend/apps/jobs/scan_worker.py:291-309 | fields that merging does not write are the existing candidate's or else the incoming one's, and two or more scanners are marked as multiple |
| Candidates.MergeCandidates | system/backend/apps/jobs/scan_worker.py:288-309 | the in-place merge computes the merged candidate |
| Candidates.MergeListed | system/backend/apps/jobs/scan_worker.py:288-309 | a merged candidate lists exactly the bom-refs, paths and scanners of both, the marker set aside |
| Candidates.MergeKeepsKey | system/backend/apps/jobs/scan_worker.py:280-309 | merging never changes the dedupe key |
| Dedupe.MergedExactly | system/backend/apps/jobs/scan_worker.py:269-285 | two candidates end in one entry if and only if both have a fingerprint, with equal asset types and equal rendered fingerprints, or neither has one and their bom-refs are equal |
| Dedupe.EntriesDiffer | system/backend/apps/jobs/scan_worker.py:269-285 | no two entries of the result are so related |
| Dedupe.EntriesInOrder | system/backend/apps/jobs/scan_worker.py:269-277 | entries come in the order in which their assets first occur |
| Dedupe.GroupFields | system/backend/apps/jobs/scan_worker.py:288-309 | each other metadata field of an entry has the value of the first of its candidates that has it |
| Dedupe.DedupeIdempotent | system/backend/apps/jobs/scan_worker.py:269-277 | deduplicating twice is deduplicating once |
| Dedupe.DedupeIncremental | system/backend/apps/jobs/scan_worker.py:269-277 | dedupe(xs + ys) is dedupe(dedupe(xs) + ys) |
| Dedupe.GroupsAreExact | system/backend/apps/jobs/scan_worker.py:269-327 | each result has its first member's other fields and speaks for exactly the non-blank bom-refs, paths and scanners of its group, the marker set aside |
| Dedupe.DedupeCandidates | system/backend/apps/jobs/scan_worker.py:269-277 | the loop computes the fold |
| ScanAccounting.MapAgentFindings | system/backend/apps/jobs/agent_asset_mapper.py:49-57 | the nested loops give one entry per algorithm of each finding whose scanner was selected, and only such |
| ScanAccounting.AlgorithmsExactly | system/backend/apps/jobs/agent_asset_mapper.py:76-98 | a finding's algorithms are all that its four lists name, without repeats; failing those its single algorithm, its minimum TLS version, or unknown |
| ScanAccounting.MappedExactly | system/backend/apps/jobs/agent_asset_mapper.py:49-57 | an entry is given if and only if a finding of its scanner, selected, names its algorithm |
| ScanAccounting.FateOfScanner | system/backend/apps/jobs/scan_worker.py:230-243 | an agent scanner is asked for if and only if agents are enabled and the first agent is fresh, connected and capable; otherwise it is skipped |
| ScanAccounting.LogsExactly | system/backend/apps/jobs/scan_worker.py:111-227 | the logs of a target field by field: scanner, status and count |
| ScanAccounting.CandidatesExactly | system/backend/apps/jobs/scan_worker.py:81-90 | the candidates of a target by what the network scanner and the agent's findings gave |
| ScanAccounting.Run.RunAgents | system/backend/apps/jobs/scan_worker.py:172-243 | skipped, failed and successful scanners are each logged, or the lookup raises exactly in its case after logging the skipped ones; never more logs than scanners |
| ScanAccounting.Run.RunTarget | system/backend/apps/jobs/scan_worker.py:81-90 | the logs and candidates of one target, and never more logs than scanners, raising or not |
| ScanAccounting.Run.Execute | system/backend/apps/jobs/scan_worker.py:70-100 | the count is the number of logs and never exceeds the total, also in a run that raises midway; a finished run has the logs and candidates of all targets |
| ScanAccounting.RunWithinTotal | system/backend/apps/jobs/scan_worker.py:79-90 | the logs of a run never outnumber targets times scanners |
| ScanAccounting.OneLogEach | system/backend/apps/jobs/scan_worker.py:111-243 | for distinct scanners that are network or agent ones, exactly one log per target and scanner, so the count reaches the total |
| ScanAccounting.LogsConserve | system/backend/apps/jobs/scan_worker.py:208-227 | the findings counts of the logs sum to the number of candidates before deduplication |
| Endpoints.Inventory.GetOrCreateTarget | system/backend/apps/discoveries/services.py:243-253 | the target of that key, created only if none has it; targets stay unique |
| Endpoints.Inventory.AutoPromote | system/backend/apps/discoveries/services.py:239-262 | the endpoint's row becomes promoted and linked to the target of its own key; other rows and existing targets stay |
| Endpoints.Inventory.UpsertOne | system/backend/apps/discoveries/services.py:210-234 | the endpoint ends with one row with the new values, under the oldest row's id if it had one; other endpoints' rows stay |
| Endpoints.Inventory.Upsert | system/backend/apps/discoveries/services.py:199-236 | for every list over any prior rows: each acceptable key has one row with its last values, promoted and linked; all other rows and existing targets stay; the result is the number of acceptable reports |
| Endpoints.LastValuesExactly | system/backend/apps/discoveries/services.py:203-212 | a report counts if and only if it has a host, a port from 1 to 65535 and TCP or UDP, and the last one about a key gives the values |
| Endpoints.CountExactly | system/backend/apps/discoveries/services.py:202-236 | the count is the number of positions of such reports |
| FollowUp.TargetIdsExact | system/backend/apps/discoveries/services.py:483-488 | the query's result is increasing and has exactly the targets of the discovery's promoted, linked rows |
| FollowUp.FollowUpScansPromoted | system/backend/apps/discoveries/services.py:475-526 | completing a discovery queues a scan of exactly those targets, and none if there are none or scanning is off |
| FollowUp.ReportedIsScanned | system/backend/apps/discoveries/services.py:199-236 | every acceptable report that was stored has the target of its key in the scan that follows |
| Endpoints.SaveAndPrune | system/backend/apps/discoveries/services.py:218-223 | saving a row and deleting its duplicates leaves it alone for its key and touches no other key |
| Metrics.NormalizeClientCompatibility | system/backend/performance_engine/engine.py:427-452 | the loop keeps the usable checks, each normalised, in order |
| Metrics.ChecksAreNormal | system/backend/performance_engine/engine.py:438-452 | every kept check has a non-blank stripped profile, one of the four outcomes and no blank texts |
| Metrics.ChecksIdempotent | system/backend/performance_engine/engine.py:427-471 | normalising a list of checks twice is normalising it once |
| Metrics.NormalizeRates | system/backend/performance_engine/engine.py:109-138 | the count and rate branches compute the rates |
| Metrics.RatesIdempotent | system/backend/performance_engine/engine.py:109-138 | the rates of already rated metrics are the same, in every branch |
| Metrics.CountedRatesComplement | system/backend/performance_engine/engine.py:118-126 | with counts, success and availability rates are equal and within 0 and 1, and a derived failure rate completes them to exactly 1 after rounding |
| Metrics.AvailabilityKnown | system/backend/performance_engine/engine.py:127-138 | an availability rate comes out if and only if one was given or counts, a failure rate or a success rate allow one; a derived one is within 0 and 1 |
| Metrics.NormalizeIdempotent | system/backend/performance_engine/engine.py:98-139 | normalisation is idempotent on every metrics map |
| Metrics.NormalizeAvailabilityMetrics | system/backend/performance_engine/engine.py:98-139 | the in-place steps compute the normalised map |
| MetricValues.CountedRate | system/backend/performance_engine/engine.py:109-126 | with s successes in t attempts read off the fields, success and availability rate are s / t kept within 0 and 1, to half a unit of the fourth place; the failure rate and total are the reported ones or follow |
| MetricValues.StatedRate | system/backend/performance_engine/engine.py:127-138 | without counts a reported availability stays; otherwise it is 1 minus the failure rate, or the success rate, to the same precision, or absent |
| MetricValues.NormalizedTexts | system/backend/performance_engine/engine.py:100-103 | the protocol is upper-cased, codes and reasons are stripped or dropped |
| MetricValues.NormalizedChecks | system/backend/performance_engine/engine.py:104-108 | the checks of a list or dictionary replace the field, which goes when there are none |
| MetricValues.NormalizedFrame | system/backend/performance_engine/engine.py:98-139 | every other field stays |
| MetricValues.CheckFields | system/backend/performance_engine/engine.py:442-450 | a check's profile is the first of its three names that says something; its outcome is what its status, compatibility status or success flag says; its other fields stay |
| MetricValues.ChecksKept | system/backend/performance_engine/engine.py:438-452 | the checks kept are exactly the objects with a profile |
| MetricValues.DictChecks | system/backend/performance_engine/engine.py:428-432 | a dictionary's entries as checks: own profile or else the key, a bare value as the status |
| MetricValues.Words | system/backend/performance_engine/engine.py:460-471 | the words for each outcome, aliases included |
| Json.FalsyExactly | system/backend/performance_engine/engine.py:100-112 | the six values that count as false |
| Ascii.AsciiIsSound | system/backend/performance_engine/engine.py:416-424 | stripping and upper-casing of ASCII text have the three properties that idempotence uses |
| Evaluation.CalculateDeltas | system/backend/performance_engine/engine.py:323-340 | the loops give the defined deltas in order |
| Evaluation.CollectSignals | system/backend/performance_engine/engine.py:343-394 | the loops give compatibility, rate, check and delta signals in order |
| Evaluation.DeltasExact | system/backend/performance_engine/engine.py:575-578 | a series has a delta if and only if both values exist and the baseline is positive, and it is the rounded change in percent |
| Evaluation.DeltasInOrder | system/backend/performance_engine/engine.py:323-340 | one delta per comparable series, in the fixed order |
| Evaluation.SeriesReads | system/backend/performance_engine/engine.py:560-572 | the fields each series is read from |
| Evaluation.AdviceExactly | system/backend/performance_engine/engine.py:538-545 | the advice by compatibility and status |
| Evaluation.SignalsExact | system/backend/performance_engine/engine.py:343-408 | a signal is given if and only if its threshold is crossed at its level |
| Evaluation.StatusExactly | system/backend/performance_engine/engine.py:529-535 | the status is FAIL if and only if some threshold is crossed at that level, PASS if and only if none is crossed |
| Evaluation.EvaluateNormalized | system/backend/performance_engine/engine.py:27-45 | evaluating raw or already normalised metrics, candidate or baseline, gives the same status, deltas, signals and advice |
| Evaluation.LooserIsMilder | system/backend/performance_engine/engine.py:343-408 | looser thresholds never give a worse status |
| FailurePaths.PathsAreExact | system/backend/performance_engine/engine.py:483-509 | a path exists exactly for the keys that were added, counts its entries, names their assets and has the worst of their statuses |
| FailurePaths.OwnEntryFields | system/backend/performance_engine/engine.py:282-301 | a result's path by the fields it is read from and their precedence |
| FailurePaths.CheckEntryFields | system/backend/performance_engine/engine.py:303-315 | a failing check's path likewise |
| FailurePaths.ListedExactly | system/backend/performance_engine/engine.py:288-292 | a result is listed if and only if it did not pass or gives a reason, and not both a check fails and the reason speaks of a client |
| FailurePaths.StatusReads | system/backend/performance_engine/engine.py:460-471 | a status is what its word means, and an error if it means nothing |
| FailurePaths.NoFailureLost | system/backend/performance_engine/engine.py:279-315 | each result that did not pass has its asset reference in some path |
| FailurePaths.SummaryCounts | system/backend/performance_engine/engine.py:288-315 | the path counts sum to the results listed for themselves plus the failing client checks |
| FailurePaths.SummaryIgnoresOrder | system/backend/performance_engine/engine.py:279-320 | every ordering of the results gives the same paths |
| FailurePaths.SummarizeFailurePaths | system/backend/performance_engine/engine.py:279-315 | the nested loops compute the summary |
| FailurePaths.AddFailurePath | system/backend/performance_engine/engine.py:483-509 | one update of the path map |
| CommutativeFold.OrderIrrelevant | system/backend/performance_engine/engine.py:279-315 | folding with commuting steps depends only on the multiset |
| Rounding.RoundMonotone | system/backend/risk_engine/dhs.py:62-71 | half-even rounding to 1, 2 or 4 decimals is monotone |
| Rounding.RoundBetween | system/backend/risk_engine/dhs.py:101-101 | and stays between whole-number bounds |
| Rounding.RoundIsNear | system/backend/risk_engine/dhs.py:62-71 | rounding moves a number by at most half a unit of its last place |
| Rounding.NearestIsNearest | system/backend/risk_engine/engine.py:98-98 | the nearest integer, the even one of two |
| Risk.RawValue | system/backend/risk_engine/engine.py:89-89 | four times the raw value is the algorithm's factor times the sum of the other four |
| Risk.WeightedRawValue | system/backend/risk_engine/engine.py:97-97 | the same of the weighted factors |
| Risk.WeightedEach | system/backend/risk_engine/engine.py:90-96 | each factor is weighted by its own weight |
| Risk.WeightScales | system/backend/risk_engine/engine.py:137-143 | a weight scales a factor's distance from one half up to the ends, and the ends stay |
| Risk.ScoreValue | system/backend/risk_engine/engine.py:98-98 | the score is within one half of a hundred times the weighted value |
| Risk.TierBands | system/backend/risk_engine/engine.py:122-130 | the tiers are exactly the bands from 80, 60 and 30 up |
| Risk.LifespanBands | system/backend/risk_engine/engine.py:221-236 | the bands of years |
| Risk.ScoreInRange | system/backend/risk_engine/engine.py:89-98 | for all factors and weights the score is in 0..100 and the clamp does nothing |
| Risk.RiskMonotone | system/backend/risk_engine/engine.py:89-143 | for weights in [0.5, 2] score and tier are monotone in every factor |
| Risk.WeightsMonotone | system/backend/risk_engine/engine.py:137-143 | changing weights towards each factor's side of one half never lowers score or tier |
| Risk.OneWeightRaised | system/backend/risk_engine/engine.py:137-143 | raising one weight never lowers the score if its factor is at least 0.5 and never raises it if at most 0.5 |
| Risk.UnitWeights | system/backend/risk_engine/engine.py:89-98 | unit weights give the unweighted product: the score is the nearest integer to 25 a (d + e + l + c) |
| Risk.LongerLifespan | system/backend/risk_engine/engine.py:221-236 | a longer lifespan never lowers score or tier |
| Risk.NormalizeWeights | system/backend/risk_engine/engine.py:111-119 | accepted if and only if every given weight is in range, with 1 for the others; otherwise the first offender in the fixed order is named |
| Dhs.ScoreBounded | system/backend/risk_engine/dhs.py:48-79 | through three roundings the score is within 0 and 10 |
| Dhs.ScoreMonotone | system/backend/risk_engine/dhs.py:48-88 | the score never drops and the priority never becomes less urgent when criteria rise |
| Dhs.SuppliedNeverLowers | system/backend/risk_engine/dhs.py:55-68 | supplying a missing criterion, whatever it says, never lowers either |
| Dhs.ScoreIsMean | system/backend/risk_engine/dhs.py:48-79 | the score is within 0.051 of ten times the mean of the six criteria under their weights |
| Dhs.CriterionScoreValue | system/backend/risk_engine/dhs.py:91-104 | an explicit score counts as a share or a percentage to four places, else the rating's value |
| Dhs.PriorityBands | system/backend/risk_engine/dhs.py:82-88 | P1 from 8, P2 from 5, P3 below |
| Dhs.MissingExactly | system/backend/risk_engine/dhs.py:55-60 | exactly the criteria without an assessment are missing |
| Dhs.CriterionScoreBounded | system/backend/risk_engine/dhs.py:91-104 | a criterion's score is within 0 and 1 |
| Dhs.ComputeDhsRisk | system/backend/risk_engine/dhs.py:48-79 | the loop computes score, priority, per-criterion scores and the missing list |
| Migration.NoAlternatives | system/backend/migration_engine/engine.py:227-239 | for every rule table, asset, context and capability set there are no alternatives |
| Migration.RecommendationConsistent | system/backend/migration_engine/engine.py:72-98 | the target text is its set joined, never empty, and a hybrid target is also the final set |
| Migration.StrategyExactly | system/backend/migration_engine/engine.py:122-135 | the strategy by the candidate's kind and weakness alone; the context branches change nothing |
| Migration.FirstRuleExact | system/backend/migration_engine/engine.py:101-109 | the first matching rule decides |
| Migration.SpecializedExactly | system/backend/migration_engine/engine.py:112-119 | a long-lived signature takes the rule's long-term sets where there are any |
| Migration.RecommendedSets | system/backend/migration_engine/engine.py:80-92 | target and final sets by the candidate's replacement and hybrid sets |
| Migration.BlockersExactly | system/backend/migration_engine/engine.py:138-150 | each blocker by the capability that is missing |
| Migration.ConfidenceValue | system/backend/migration_engine/engine.py:279-281 | nine tenths, or 0.82 for a change, less 0.05 for each blocker |
| Migration.ConfidenceBounded | system/backend/migration_engine/engine.py:279-281 | the policy's confidence is within 0.45 and 0.9 |
| Migration.AllowedOptions | system/backend/apps/snapshots/migration_plan.py:95-124 | the default first, then each alternative with its own algorithms |
| Migration.FindOption | system/backend/apps/snapshots/migration_plan.py:273-280 | the first option described by the answer, or none is |
| Migration.OptionById | system/backend/apps/snapshots/migration_plan.py:245-256 | the last option with the given id, or none has it |
| Migration.ParseResponse | system/backend/apps/snapshots/migration_plan.py:244-270 | whatever the text an allowed option is selected: the last with the id it names, else the first it describes, else the default; the fallback is exactly invalid JSON, unused when something matched, or not allowed |
| Migration.ConfidenceInRange | system/backend/apps/snapshots/migration_plan.py:316-321 | a confidence from the answer is within 0 and 1 |
| Migration.ConfidenceRead | system/backend/apps/snapshots/migration_plan.py:316-321 | a confidence from the answer is kept to two places between 0 and 1 |
| Migration.AlternativeFields | system/backend/apps/snapshots/migration_plan.py:104-123 | an alternative has its own strategy and algorithms and keeps the default's blockers |
| Migration.SuggestMigration | system/backend/apps/snapshots/migration_plan.py:45-79 | for every rule table and every response text the plan keeps everything of the policy default but the rationale and a confidence within 0 and 1, and those too unless the answer gives them |
| Migration.SuggestAmong | system/backend/apps/snapshots/migration_plan.py:283-299 | with any alternatives the plan is that of an allowed option except for rationale and confidence |

## Left out

- Isolation below `transaction.atomic()`: row locks, lost updates between a read and a save, and retries.
- Columns that no modelled step reads: timestamps, error texts, progress, the status column of a performance run; a worker that dies just lets go of its task.
- A client's request queues the run it created at most once, and never one that a scan created; which request that is is not tracked.
- Bulk deletion and restarts: jobs, tasks and discoveries are only added, so ids are positions.
- Qualitative risk tasks, serializers, pagination, settings, the frontend and the mock agent.
- Sockets, handshakes and subprocesses: a TLS probe is an arbitrary function of the name; aliases stay the same during a scan.
- Names in the IKE tables are constructors, not text; the text of an unlisted id is its type and number.
- The key material after the curve name or the Ed25519 name is not read, as in the code.
- The dedupe key is tagged where the code prefixes text, so an asset type spelled like the other prefix cannot collide.
- Python's equality between booleans and numbers inside lists of values.
- Scanner names are classified as network, agent or other before the run starts.
- Extraction of host, port, transport and texts from a raw endpoint report, and the defaults of a new target (a function of key and hint).
- Endpoints.Inventory: target rows are never deleted, and endpoint rows only by the upsert itself.
- Text beyond what `Metrics.Sound` asks of stripping and upper-casing; `Ascii` shows it for ASCII only. `str` of other values, a dictionary's order and the spelling of keys are arbitrary functions.
- Integers and floats of equal value are one number, and infinities and not-a-number are absent.
- Client checks that are not dictionaries in unnormalised results, on which the code raises an exception.
- The order in which failure paths are listed: as a list it follows ties in insertion order, so only the map is order-free.
- Signals carry the client's profile instead of its token in the reason text.
- Floating-point error: scores are computed over reals.
- The tables that classify algorithm names, sensitivity, exposure and criticality into risk factors; factors are arbitrary reals.
- Rule patterns and wording of recommendations: the rule table, its matching and its texts are arbitrary functions; agility scores and playbooks.
- Prompts, providers and the search for a JSON object in a response: the object is an arbitrary function of the text; the evidence list is not modelled.
