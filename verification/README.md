# Review-coupon agent: a verified model

This project models the decision core of the seckill review-coupon agent in Dafny and proves what its
design relies on. Four parts belong together.

* **The job queue over Redis** (`JobRecord`, `JobMachine`, `JobHistory`, `JobStream`, `JobRuns`, `JobHolds`,
  `JobSafety`, `JobBurial`, `JobTakeovers`, `JobService`, `Semaphore`, `Leases`). Any number of workers,
  submitters and recovery scans interleave over versioned records, a source-event index, a stream with its pending entries, two token leases
  per job and a two-level sorted-set semaphore. Each Lua script is one atomic step; a worker may crash between
  any two of its steps, and a script may be applied although its reply is lost. `JobSafety` states what holds
  over all runs, `JobBurial` which failures are dead-lettered, and `JobTakeovers` has runs that show what the
  queue does not bound. `JobService` is the service itself, a class whose methods change Redis in place; each
  step of a worker is one step of that machine, and they come in exactly the machine's order.
* **The money path** (`Guard`, `DecisionContext`, `Grants`, `Finalizer`, `Locks`, `Journal`). An arbitrary decision
  of the model and an arbitrary tool history meet the guard, the decision lock, the coupon service (a ledger that
  honours idempotency keys and may answer ambiguously) and the decision store. Ledger and store note who sent
  what, so that a finalization accounts for every call it makes.
* **The agent loop over bounded memory** (`AgentLoop`, `Memory`, `MemoryStores`, `Eviction`, `SessionScope`). An
  adversarial model drives a workflow whose stage is recomputed from a memory that forgets.
* **Budget and rate** (`Compose`, `TokenBucket`), the prompt's greedy trimming and the rate limiter over reals.

`Text` and `Options` hold what they share.

## Where the code differs from what one might expect

* Taking over a RUNNING record never consults MaxRetries, so attempts are bounded by MaxRetries + 1 + takeovers
  and by nothing else (`AttemptsHaveNoBound`: under any settings the agent can be called any number of times).
* FAILED does not imply a dead letter. It is written only by the worker that stored FAILED, after that save was
  answered; a lost answer, a crash or a failed XADD loses it for good (`DeadLetteredIff` has the exact condition,
  `LettersCanBeLost` a run).
* Under the decision lock work can outlast its lease: Acquire has no time limit, and the first renewal comes an
  interval after its answer (`WorkEndsWithinLease` has the exact bound; with the default lease of 120 s it is a
  latency of 77 s).
* Sleeping `nextWait` need not be enough, because the wait is cut to whole nanoseconds (`SleepingIsEnough` has
  the exact condition); two sleeps always are.
* The stored action of a granted decision is GRANT_COUPON only up to case (`GrantedSpelling`,
  `LowerCaseIsGranted`).
* REJECTED does not imply NO_COUPON: when no call was attempted the action stays GRANT_COUPON (`StoredAction`,
  `RejectedStandsAsGrant`).
* What the guard forces on a history without a recorded score can be lifted by a later score (`ForcedForGood`).
* The guard reads the first non-zero score of a history, the store gets the last one (`ScoresOfTwo`); in the
  agent loop there is only one report, so they agree (`DecisionsAreSafe`).
* A Redis read that fails inside AppendStep replaces the history by one step, and the write that follows clears
  the error (`RedisStore.AppendStep`).
* `docs/agent_storage_and_idempotency.md` gives the decision key as `decision:store:...`; the code stores
  `agent:store:...` and uses the former only as the lock key. `docs/agent_execution_model.md` derives the grant key
  from review and policy scene; the code derives it from store and review. The lock time is given as 30 s; the
  code's default is 120 s. The model follows the code.

## Assumptions

One clock that never goes back serves Redis and all workers, and the `now` of a script is the time of its step;
the times that workers write into records are arbitrary.
Fresh ids and tokens are distinct. A token is used with the scope it was drawn for. Scopes and keys are taken
after normalisation, and key prefixes keep the families of keys apart. Marshalling what the agent itself
produces and reading it back gives the same value. An error of the decision store has a text that is not blank.
Each caller of ledger and store is known by a name of its own, and one finalizer object serves one execution at
a time. In `Locks` a tick is served at once unless a renewal is still under way.

## Model

| member | source | states |
|---|---|---|
| `JobSafety.NoJobIsLost` | internal/job/service.go:420-457 | In every reachable state of every run a live record that is not terminal has an unacknowledged stream entry |
| `JobSafety.EachAttemptRunsOnce` | internal/job/service.go:372-393 | RunExecution is called at most once for each job and attempt number, over all workers, crashes, lost leases and lost replies |
| `JobSafety.HistoriesAreLinear` | internal/job/service.go:623-669 | The versions ever stored for a job form one path: version i+1 was computed from version i by a legal transition; every version keeps the execution log: attempts = number of executions, entry i numbered i+1, each parent the execution before it, all but the last FAILED, PENDING/RETRYING within MaxRetries, FAILED beyond it, always at most MaxRetries + 1 + takeovers |
| `JobSafety.TerminalIsForever` | internal/job/service.go:334-337 | Once a record is terminal no later event of any worker, however stale its copy, stores another version |
| `JobSafety.DeadLettersAreFinal` | internal/job/service.go:444-457 | A job is dead-lettered at most once, and only when the last version ever stored is FAILED with its retries used up |
| `JobSafety.OneLiveJobPerSource` | internal/job/service.go:575-595 | Live jobs of one source event are one job, and the index entry names it and lapses with it |
| `JobSafety.ReviewsRunAlone` | internal/job/service.go:350-359 | Two runs whose review claim was taken, or last renewed with a good answer, at most a claim's lifetime ago differ in the store or in the review of their records, whichever jobs they belong to and however late they began |
| `JobSafety.RunsWithinLimits` | internal/job/service.go:361-370 | Runs whose slot was taken or last renewed less than its lifetime ago are never more than GlobalConcurrency, nor among records of one store and scope more than ScopeConcurrency |
| `JobSafety.LapsedIsGone` | internal/job/service.go:686-688 | Once time has passed exactly the records, index entries and claims are left whose deadline has not, and an expired set of slots is empty |
| `JobSafety.TimelyRunsAreCovered` | internal/job/service.go:461-503 | A run that began within 30 s of its review claim and is within RunTimeout is such a run whether or not any renewal got through |
| `JobSafety.StepIsSafe` | internal/job/service.go:308-459 | Every step of every worker, submitter, recovery scan and the clock keeps the joint invariant, and stored histories only grow |
| `JobSafety.PlayIsSafe` | internal/job/service.go:283-306 | The joint invariant holds along every sequence of events |
| `JobHistory.SavedOverBase` | internal/job/service.go:623-638 | A compare-and-set that is won was won against the very version the new record was computed from |
| `JobHistory.StepKeeps` | internal/job/service.go:341-348 | Every step keeps: histories linear, records equal to the last version, index and live jobs in agreement, and every worker's copy derived from a stored version |
| `JobHistory.TerminalIsLast` | internal/job/service.go:795-802 | A terminal version stays the last version of its history |
| `JobStream.AckStepStream` | internal/job/service.go:741-745 | An acknowledgement drops only the entry of a job that is terminal or gone |
| `JobStream.StepStream` | internal/job/service.go:766-793 | Every step, recovery scans included, keeps an unacknowledged entry for each live job that is not terminal |
| `JobRuns.AttemptsRunOnce` | internal/job/service.go:372-393 | Two recorded runs with the same job and attempt are the same run, since each is backed by its own RUNNING version |
| `JobRuns.StepRuns` | internal/job/service.go:452-457 | Every step keeps: each run is backed by a won save of RUNNING, each dead letter by a stored FAILED that is written once |
| `JobHolds.StepHolds` | internal/job/service.go:461-503 | Every step keeps: the review claims and slots of running workers stand in Redis until their deadlines, which every answered renewal moves on |
| `JobHolds.RunsExclude` | internal/job/service.go:571-573 | Runs that hold their claim, by taking or by renewing it, and whose records agree in store and review are one worker's |
| `JobHolds.RunsFit` | internal/job/service.go:704-714 | Runs that hold their slots fit the global limit, and those of one store and scope the scope limit |
| `JobRecord.TransitionKeepsLog` | internal/job/service.go:541-549 | Starting or finishing a run keeps the execution-log invariant, takeovers counted |
| `JobRecord.HistoryFacts` | internal/job/service.go:541-549 | In a linear history version i is numbered i+1, is well logged, and only the last can be terminal |
| `JobRecord.AttemptsGrow` | internal/job/service.go:372-384 | Attempts never shrink along a history and grow strictly up to any RUNNING version |
| `JobRecord.OneRunningVersionPerAttempt` | internal/job/service.go:372-393 | An attempt number is stored as RUNNING in exactly one version |
| `JobRecord.TakeOverPrepares` | internal/job/service.go:341-348 | Taking over a RUNNING record closes its attempt as FAILED and moves on to a fresh execution id whose parent is the old one |
| `JobRecord.BeginStarts` | internal/job/service.go:372-384 | What is stored before a run is a legal start from the version read |
| `JobRecord.ConcludeFinishes` | internal/job/service.go:410-447 | What is stored after a run is a legal finish from the RUNNING version: SUCCEEDED, INCOMPLETE, RETRYING within MaxRetries, otherwise FAILED |
| `JobBurial.DeadLetteredIff` | internal/job/service.go:444-457 | For every FAILED job of every run: one step stored the failure, and the job is dead-lettered if and only if that save was answered and its worker's next step wrote the letter and reached Redis |
| `JobBurial.NeverDeadLettered` | internal/job/service.go:452-457 | A FAILED job is never dead-lettered in any continuation if and only if it is not yet and no worker stands ready to write its letter |
| `JobBurial.FailureIsBuriedIff` | internal/job/service.go:448-457 | From the step that stores FAILED on: dead-lettered if and only if the save was answered and the letter, next, gets through |
| `JobBurial.LetterFollows` | internal/job/service.go:452-457 | A worker ready to bury does so if and only if that is the next thing it gets to do and Redis applies it |
| `JobTakeovers.LettersCanBeLost` | internal/job/service.go:448-457 | For every limits and MaxRetries there is a run, with all clocks right if jobs outlive the recovery wait, in which a job is FAILED and never dead-lettered: a crash right after the save |
| `JobTakeovers.AttemptsHaveNoBound` | internal/job/service.go:341-348 | Taking over never consults MaxRetries: for every limits, MaxRetries and n there is a run, with all clocks right if jobs outlive the recovery wait, whose agent is called n times for one job as attempts 1 to n, the last stored as RUNNING |
| `JobTakeovers.AbandonedAgain` | internal/job/service.go:417-447 | After n runs whose outcomes never reached Redis the job is left RUNNING with n attempts, all leases given back and its entry free to be taken over |
| `Semaphore.CapsHold` | internal/job/service.go:690-702 | In every interleaving of acquire, renew, release, score expiry and key expiry, the global set stays within GlobalConcurrency and every scope set within ScopeConcurrency |
| `Semaphore.PlayKeeps` | internal/job/service.go:516-527 | Inductive invariant of the sets: per scope, the union of its set with its tokens in the global set stays within ScopeConcurrency |
| `Semaphore.AcquireKeeps` | internal/job/service.go:690-702 | Acquire keeps that invariant |
| `Semaphore.RenewKeeps` | internal/job/service.go:519-527 | Renew keeps it although it looks only at the global set and then writes both |
| `Semaphore.ReleaseKeeps` | internal/job/service.go:716-720 | Release keeps it |
| `Semaphore.SlotSurvives` | internal/job/service.go:519-527 | Until its deadline a slot is lost only by releasing that token |
| `Semaphore.HoldersFit` | internal/job/service.go:690-702 | Tokens whose slots have not lapsed are at most as many as the limits allow, overall and per scope |
| `Leases.StaleTokenIsInert` | internal/job/service.go:671-676 | A token that is not the holder's neither frees, prolongs nor replaces a lease |
| `Leases.LeaseSurvives` | internal/job/service.go:505-509 | Until it lapses a lease is lost only by a release with its own token |
| `Leases.LeaseSurvivesRun` | internal/job/service.go:505-517 | The same over any run of scripts by any number of clients |
| `Leases.HolderExcludes` | internal/resilience/lock.go:56-66 | From a successful SETNX until the first deadline nobody else's SETNX on the key succeeds, whatever everyone does |
| `Locks.DistributedLock.constructor` | internal/resilience/lock.go:46-54 | Defaults: prefix agent:lock: for a blank one, 120 s for a lease time that is not positive |
| `Locks.DistributedLock.Acquire` | internal/resilience/lock.go:56-66 | Returns a token exactly when SETNX took the free key and the answer arrived; a lost answer leaves the key taken |
| `Locks.DistributedLock.Renew` | internal/resilience/lock.go:22-40 | Prolongs only the lease of the given token, true exactly when it did and the answer arrived |
| `Locks.DistributedLock.Release` | internal/resilience/lock.go:68-76 | Frees the key only from the given token |
| `Locks.WorkEndsWithinLease` | internal/agent/review_coupon_finalizer.go:175-212 | With the ticker made when Acquire has answered, the renewal loop stops the work before the lease can lapse for every course of renewals if and only if latency of Acquire + renewal interval + 3 s fit into the lease, and twice 3 s do |
| `Locks.LeaseCanLapse` | internal/agent/review_coupon_finalizer.go:197-203 | Otherwise the lease can lapse while its work goes on: a first renewal given up on, or a slow one followed by one given up on |
| `JobService.Service.CreateJobScript` | internal/job/service.go:575-595 | createJobScript on the live Redis fields: refusal of a known id or of a source with a live job, otherwise record, index and stream entry together |
| `JobService.Service.SaveJobScript` | internal/job/service.go:623-638 | saveJobScript: missing, stale or saved; refreshes record and an index entry that is free or its own |
| `JobService.Service.Save` | internal/job/service.go:640-669 | The copy's version moves on only when the save is confirmed; a lost reply may have stored it |
| `JobService.Service.AcquireSlotScript` | internal/job/service.go:690-702 | acquireConcurrencyScript: both sets pruned even on refusal, then both written |
| `JobService.Service.RenewSlotScript` | internal/job/service.go:519-527 | Only a token in the global set is renewed; then both sets and both keys get the new deadline |
| `JobService.Service.ReleaseSlotScript` | internal/job/service.go:716-720 | The token leaves both sets |
| `JobService.Service.SetNXClaim` | internal/job/service.go:314-322 | The job claim is taken exactly when free, for RunTimeout + 30 s |
| `JobService.Service.SetNXReview` | internal/job/service.go:350-358 | The review claim is taken exactly when free, for RunTimeout + 30 s |
| `JobService.Service.RenewClaimScript` | internal/job/service.go:505-517 | Renewal of the job claim by token |
| `JobService.Service.RenewReviewScript` | internal/job/service.go:505-517 | Renewal of the review claim by token |
| `JobService.Service.ReleaseClaimScript` | internal/job/service.go:671-684 | Release of the job claim by token |
| `JobService.Service.ReleaseReviewScript` | internal/job/service.go:671-684 | Release of the review claim by token |
| `JobService.Service.XAck` | internal/job/service.go:741-745 | Acknowledging drops a delivered entry and no other |
| `JobService.Service.XAddDeadLetter` | internal/job/service.go:452-456 | A dead letter names the job and its last execution |
| `JobService.Service.ConcludeRun` | internal/job/service.go:409-447 | The record after a run: SUCCEEDED or INCOMPLETE by the result, another attempt under a fresh execution id while attempts are within MaxRetries, otherwise FAILED, with its error and times |
| `JobService.Service.TakeJobClaim` | internal/job/service.go:314-323 | Taking the job claim is the Claim step; a worker without it is gone |
| `JobService.Service.ReadRecord` | internal/job/service.go:326-348 | Reading the record is the Fetch step: acknowledged exactly when gone or terminal, taken up exactly when it is neither nor backing off, as it stands or, left RUNNING, closed and under a fresh execution id |
| `JobService.Service.TakeReviewClaim` | internal/job/service.go:350-359 | Taking the review claim is the ClaimReview step, under the record's store and review |
| `JobService.Service.TakeConcurrency` | internal/job/service.go:361-370 | Taking the slot is the TakeSlot step, in the record's store and scope |
| `JobService.Service.StoreRunning` | internal/job/service.go:372-388 | Storing RUNNING is the SaveRunning step: one attempt and one version more, the time of the start, the error cleared |
| `JobService.Service.RenewJobClaim` | internal/job/service.go:481-483 | The first renewal of a tick is a Heartbeat step; one that fails cancels the run |
| `JobService.Service.RenewReviewClaim` | internal/job/service.go:484-486 | The second renewal, of the review claim |
| `JobService.Service.RenewConcurrency` | internal/job/service.go:487-489 | The third renewal, of the slot |
| `JobService.Service.StoreOutcome` | internal/job/service.go:417-447 | Storing the outcome is the SaveOutcome step; only a confirmed save leads on |
| `JobService.Service.WriteDeadLetter` | internal/job/service.go:452-456 | Writing the dead letter is the Bury step; the acknowledgement comes next in any case |
| `JobService.Service.Process` | internal/job/service.go:308-459 | Handling one entry, with any other clients in between, is a run of the step machine in which every step of this worker is the one open to it (JobService.Next), with the answer that belongs to it: the three renewals of every tick in order until one fails or the ticks are over, and each release with its own answer; at the end the worker is gone |
| `JobService.Service.RunAgent` | internal/job/service.go:391-408 | The run under lease renewal, up to the saved outcome, is such a run of the machine: no renewal is skipped before the first that fails |
| `JobService.Service.RenewLeases` | internal/job/service.go:481-496 | One tick renews job claim, review claim and slot in this order; the first failure cancels |
| `JobService.Service.Settle` | internal/job/service.go:417-457 | Only a confirmed outcome leads on: FAILED to the dead letter and the acknowledgement, an end to the acknowledgement |
| `JobService.Service.ReleaseAll` | internal/job/service.go:678-684 | Slot, review claim and job claim are given back in this order, each with its own answer |
| `JobService.Service.Screen` | internal/job/service.go:775-789 | The scan of one claimed entry is the Scan step: acknowledged exactly when gone or terminal, processed exactly when not RUNNING or not updated for RunTimeout + 30 s |
| `JobService.Service.Recover` | internal/job/service.go:766-793 | After the hand-over, recovery of one claimed entry is such an exact run too |
| `JobService.Service.Submit` | internal/job/service.go:174-248 | A refused request changes nothing; an accepted one is one submission step and answers with a live job: the new one, PENDING at version 1 with its stream entry, the order and the execution ids of the request, or the one its source already has |
| `Memory.StoresAgree` | internal/memory/redis_store.go:51-138 | After every sequence of Save, AppendStep and ClearSession (no expiry, eviction or error) the Redis store and the in-memory store show the same under every key |
| `Memory.OpsAgree` | internal/memory/redis_store.go:77-124 | Each operation keeps the two equal and every record within its limits |
| `Memory.AppendsAgree` | internal/memory/redis_store.go:99-112 | Load, append, save with two normalisations equals the in-place append |
| `Memory.NormalizeBounded` | internal/memory/store.go:149-161 | Normalising keeps the last MaxRecentSteps steps, bounds the summary, changes nothing else and leaves a bounded record alone |
| `Memory.AppendsRemember` | internal/memory/store.go:105-132 | After n appends to a fresh record the recent steps are the last min(n, MaxRecentSteps), and the summary trimmed at every eviction is the first MaxSummaryChars of all evicted lines joined once |
| `Memory.LineTells` | internal/memory/summary.go:15-29 | A step's line names step, tool and action and then shows arguments, output and error, each left out when empty and cut to 120, 180 and 120 characters when longer |
| `Memory.BatchEqualsOneByOne` | internal/memory/summary.go:9-32 | Summarising several steps at once equals doing it one by one if and only if no line but the last ends in white space |
| `MemoryStores.Defaults` | internal/memory/store.go:34-46 | Limits that are not positive become their defaults, positive ones are kept |
| `MemoryStores.InMemoryStore.Load` | internal/memory/store.go:54-74 | An expired record is removed and not returned |
| `MemoryStores.InMemoryStore.Save` | internal/memory/store.go:76-92 | The normalised record is written; of the others at most one, the longest unwritten, is lost |
| `MemoryStores.InMemoryStore.AppendStep` | internal/memory/store.go:105-132 | The step is appended, overflow moves to the summary; at most one oldest record is evicted |
| `MemoryStores.InMemoryStore.ClearSession` | internal/memory/store.go:94-103 | Only the named record goes |
| `MemoryStores.InMemoryStore.Snapshot` | internal/memory/store.go:134-147 | Drops what has expired and shows the record if it is left, or an empty view named after the key |
| `MemoryStores.InMemoryStore.EvictIfNeeded` | internal/memory/store.go:170-188 | Removes one record with the oldest write exactly when there is one too many |
| `MemoryStores.RedisStore.Load` | internal/memory/redis_store.go:51-74 | A failed read and a missing record look alike but for lastErr |
| `MemoryStores.RedisStore.Save` | internal/memory/redis_store.go:77-97 | The normalised record replaces the stored one if the write gets through |
| `MemoryStores.RedisStore.AppendStep` | internal/memory/redis_store.go:99-112 | With a readable and writable Redis the append of the in-memory store; when only the read fails, the history is replaced by the one step and the error is cleared |
| `MemoryStores.RedisStore.Snapshot` | internal/memory/redis_store.go:126-138 | Shows the normalised record, or an empty view named after the key |
| `Eviction.HoldsMostRecent` | internal/memory/store.go:170-188 | With growing write times the store holds exactly the MaxSessions most recently written keys, so the key just written is never the victim |
| `AgentLoop.Agent.RunExecution` | internal/agent/agent.go:87-207 | For every sequence of replies and tool answers: each step does what its reply, its stage and the tools demand; it reports the results of its calls in order; it is completed exactly through an accepted final decision; the finalizer is called exactly for that decision, and ledger and store are touched through it alone; given room for every record and canonical tool names, the stage never goes back, the tools succeed at most once each and in order, and the decision is made after all four, on every record of the run; a completed result means its decision reached the store |
| `AgentLoop.Agent.Act` | internal/agent/agent.go:132-198 | A reply that is not an accepted final adds a correction, or one call of the tool the stage requires and after usable evidence three more records |
| `AgentLoop.Agent.ExecuteTool` | internal/agent/agent.go:218-242 | An unregistered tool leaves no record; a registered one a record of the call with what the tool said, or with its error and no output |
| `AgentLoop.Agent.RunStatsRAGAndCampaignAfterEvidence` | internal/agent/parallel_tools.go:22-69 | Evidence that names review and store adds statistics, RAG and campaign in this order, each recorded as a success with what its tool said, or with its fallback and the problem in the reported result |
| `AgentLoop.Agent.AutoObservation` | internal/agent/parallel_tools.go:83-104 | A problem is reported if and only if the tool is missing or fails, and then the fallback stands in; otherwise what the tool said |
| `AgentLoop.Agent.Conclude` | internal/agent/agent.go:137-182 | The finalizer is called once, with the history as memory shows it; a finalizer error refuses the execution |
| `AgentLoop.WorkflowStage` | internal/agent/agent.go:296-325 | The stage is the first tool without an error-free call on record |
| `AgentLoop.StageCounts` | internal/agent/agent.go:296-325 | When tools succeeded one after the other the stage is their number |
| `AgentLoop.Agent.MoveKeeps` | internal/agent/agent.go:183-198 | Whatever a reply adds, tools stay in order, at most one reports evidence, and a fallback campaign stays the last word |
| `AgentLoop.DecisionsAreSafe` | internal/agent/parallel_tools.go:76-81 | A decision of an orderly run asks for a coupon only when the grant is clear, never when any step reported a campaign that could not be had, and stores the very score the guard looked at |
| `AgentLoop.CampaignFailureShows` | internal/agent/parallel_tools.go:83-104 | A fan-out reports its campaign as failed if and only if the campaign tool is missing or failed |
| `AgentLoop.RunForgets` | internal/agent/agent.go:112-118 | MaxRecentSteps = maxSteps + 1 is too little: in every execution of a model that gathers everything in its first step and then talks nonsense, the last step is back at the first stage |
| `AgentLoop.AnswerTells` | internal/agent/agent.go:376-392 | The answer is the decision's own words, or names every text of the decision that is not blank |
| `Guard.ApplyDecisionGuard` | internal/agent/decision_guard.go:17-70 | The decision after the guard, field by field, as the history forces it: an appeal or a low-rated quality review |
| `Guard.GuardOverrules` | internal/agent/decision_guard.go:17-70 | On an appeal DISPUTE_REVIEW, on a low-rated quality review HIGH_RISK_REVIEW, with MANUAL_REVIEW, both tags and each cause named in the reasoning; otherwise only SUGGEST_COUPON is rewritten, and the suggestion follows action and scene |
| `Guard.ForcedByHistory` | internal/agent/decision_guard.go:38-48 | The guard's two causes are an appeal in some report, and a first score of at most two with a keyword in the first text or QUALITY among the retrieved aspects |
| `Guard.ExtractDecisionFacts` | internal/agent/decision_guard.go:73-123 | An appeal is noted if and only if some report has one; an aspect if and only if a retrieved chunk has it and it is not empty; score and content are those of the first report with a non-zero 32-bit score and with a text |
| `Guard.FactsAreTold` | internal/agent/decision_guard.go:73-123 | The same of the facts that the proofs speak of, for every history |
| `Guard.HasQualitySignal` | internal/agent/decision_guard.go:126-139 | True exactly when the content contains a keyword or an aspect is QUALITY |
| `Guard.AppendMissingTag` | internal/agent/decision_guard.go:142-149 | A tag is added unless present in any case |
| `Guard.GrantsAreClear` | internal/agent/decision_guard.go:26-57 | No grant passes the guard on an appeal, a low-rated quality review, or against the model's wish |
| `Guard.GuardTwice` | internal/agent/decision_guard.go:17-70 | Guarding twice changes nothing but the reasoning, and that exactly by the repeated reason when the guard overruled |
| `Guard.ForcedStays` | internal/agent/decision_guard.go:73-100 | On a longer history a forced review stays forced given an appeal or a recorded score; otherwise exactly while no higher score or an appeal arrives |
| `Guard.ForcedForGood` | internal/agent/decision_guard.go:86-92 | Being forced is final on all extensions if and only if the history has an appeal or a non-zero score |
| `DecisionContext.ExtractDecisionContext` | internal/agent/agent.go:420-469 | Review, store, user, order, SKU, SPU and evidence version are each that very field of the first evidence report in which it is positive; activity, policy version and template that of the first campaign report in which it is not blank; score, content, flags and campaign numbers those of the last report; the evidence ids are the review's own and the retrieved chunks' |
| `DecisionContext.ContextIsTold` | internal/agent/agent.go:420-469 | The same of the context that the proofs speak of, for every history |
| `DecisionContext.ConstraintsComeFromTheLastCampaign` | internal/agent/agent.go:453-466 | The grant constraints hold exactly when the last campaign report is active, eligible, stocked, funded and within the user's limit; never without a report |
| `DecisionContext.IdsAreSound` | internal/agent/agent.go:445-449 | Evidence ids are distinct and the review is one that was reported |
| `DecisionContext.IdsGrow` | internal/agent/agent.go:445-449 | Evidence ids stand in the order in which they came up: a longer history only adds to the end |
| `DecisionContext.ScoresAgree` | internal/agent/agent.go:440-441 | With at most one evidence report the stored score and content are those the guard read |
| `DecisionContext.ScoresOfTwo` | internal/agent/agent.go:440-441 | With two reports the guard reads the first non-zero score and the last one is stored |
| `Grants.GrantCouponWithRetry` | internal/agent/review_coupon_finalizer.go:262-282 | At most three calls; what the ledger gets from this caller grows by exactly these; attempts = calls, every earlier one a retryable error; success means the ledger has this review's coupon |
| `Grants.IsRetryableCouponGrantError` | internal/agent/review_coupon_finalizer.go:285-296 | Retryable exactly when a marker occurs in the lower-case text |
| `Grants.OneCouponPerReview` | internal/agent/grant_idempotency.go:8-10 | Whatever finalizations, retries and lost replies, no two coupons are for the same store and review |
| `Grants.KeyMeansReview` | internal/agent/grant_idempotency.go:8-10 | A key in the ledger stands for a coupon of this review and no other's |
| `Grants.AnswerKeepsSound` | internal/agent/review_coupon_finalizer.go:265-265 | One call keeps the ledger sound |
| `Finalizer.ReviewCouponFinalizer.CheckGrant` | internal/agent/review_coupon_finalizer.go:215-244 | A request goes out if and only if every check passes, filled in field by field from the context; otherwise message and status name the first check that failed |
| `Finalizer.GateDecides` | internal/agent/review_coupon_finalizer.go:215-244 | The same of the gate that the proofs speak of |
| `Finalizer.ContextIsComplete` | internal/agent/review_coupon_finalizer.go:109-111 | The context is what the tools reported, with the caller's activity and policy version where they reported none |
| `Finalizer.ReviewCouponFinalizer.GrantCouponIfNeeded` | internal/agent/review_coupon_finalizer.go:215-260 | The outcome agrees with the calls made: attempts, status, retryability, coupon id, error; the ledger gets exactly these calls, and none when the gate refuses |
| `Finalizer.ReviewCouponFinalizer.Finalize` | internal/agent/review_coupon_finalizer.go:103-173 | Guard, context, lock, grant, store, release: what is answered, called, stored and left locked for every answer of lock, ledger and store; ledger and store get exactly the calls and the decision of this finalization, nothing without lock or ids, and each of its at most three ledger calls is for a grant that is clear and filled in, field by field, from this review's context; both stay sound with other instances at work |
| `Finalizer.ReviewCouponFinalizer.LockIsTheReviews` | internal/agent/review_coupon_finalizer.go:117-117 | Decisions contend for one lock if and only if they are about one review of one store |
| `Finalizer.ReviewCouponFinalizer.UnderLock` | internal/agent/review_coupon_finalizer.go:117-135 | Work goes on exactly when the lock was free and said so, under a lease of its own token, which afterwards is gone unless the release never got out; without it nothing is called or stored |
| `Finalizer.AskedExactlyWhenClear` | internal/agent/review_coupon_finalizer.go:215-244 | For any decision and history the checks before a call pass if and only if: configured, model wants a grant and no review, no report has an appeal, not low-rated with a quality signal in text or aspects, last campaign report open, ids present, scene known; and then each field of the request is the context's, for the scene of the model's decision, under this review's key |
| `Finalizer.StoredStatus` | internal/agent/review_coupon_finalizer.go:137-160 | A stored decision says what was done: granted exactly when the last call succeeded, GRANTED, GRANT_FAILED, MANUAL_REVIEW and PROPOSED each exactly in their case and REJECTED otherwise, at most three calls, earlier ones retryable |
| `Finalizer.StoredSaysAll` | internal/agent/review_coupon_finalizer.go:136-160 | The answered decision is the overruled one with the outcome announced, and every field of the stored one is the context's, the decision's or the outcome's, with the reason telling how the grant went |
| `Finalizer.StoredInFull` | internal/agent/review_coupon_finalizer.go:148-160 | Every field of the request to the decision store |
| `Finalizer.OutcomeIsAnnounced` | internal/agent/review_coupon_finalizer.go:298-319 | A wanted grant gets its tag and its sentence, NO_COUPON exactly when it was turned down, and nothing else changes |
| `Finalizer.StoredAction` | internal/agent/review_coupon_finalizer.go:298-319 | A wanted grant is stored as NO_COUPON exactly when an attempt was turned down; without an attempt GRANT_COUPON stands even under REJECTED |
| `Finalizer.GrantedSpelling` | internal/agent/review_coupon_finalizer.go:152-154 | A granted decision's action is GRANT_COUPON up to case, and literally so if and only if the model wrote it so or suggested it |
| `Finalizer.LowerCaseIsGranted` | internal/agent/review_coupon_finalizer.go:152-154 | A decision and history for which grant_coupon is granted and stored in lower case |
| `Finalizer.RejectedStandsAsGrant` | internal/agent/review_coupon_finalizer.go:298-319 | A decision and history that is stored as REJECTED with the action GRANT_COUPON |
| `Finalizer.StoredIsBacked` | internal/agent/review_coupon_finalizer.go:148-157 | A decision stored as granted has its coupon in the ledger, status GRANTED and the action GRANT_COUPON up to case |
| `Compose.Compose` | internal/contextx/compose.go:12-56 | The result is the longest suffix of the compacted steps within step and token limit (nothing if none fits), truncated exactly when a step was dropped; its estimate is worth the characters of task, summary and all five texts of the kept steps to less than a token a text, so kept steps never exceed four characters a token of the limit |
| `Compose.Shorten` | internal/contextx/compose.go:18-46 | The trimming loop: the longest fitting suffix, its cost exact despite running subtraction |
| `Compose.TokensOfText` | internal/contextx/budget.go:19-24 | A text costs nothing exactly when empty, otherwise a token for every four characters and one more for the rest |
| `Compose.ResultWeighs` | internal/contextx/compose.go:26-46 | The estimate against the characters shown, for every result |
| `Compose.CompactSteps` | internal/contextx/compose.go:59-81 | Every step has its arguments and error cut to 800 and its output to the limit of its tool, and is otherwise unchanged |
| `Compose.TrimPromptText` | internal/contextx/compose.go:83-97 | Short texts are kept, long ones get exactly the limit: their beginning, with the marker after it when it fits |
| `Compose.KeptContainsEveryFittingSuffix` | internal/contextx/compose.go:34-46 | Every fitting suffix is contained in what is kept, and everything in what is kept fits |
| `Compose.ComposedOnce` | internal/contextx/compose.go:12-56 | The inputs determine the result |
| `Compose.ComposeTwice` | internal/contextx/compose.go:12-56 | Composing the result again changes neither summary, steps nor cost and truncates nothing |
| `Compose.LargerBudgetKeepsMore` | internal/contextx/compose.go:18-46 | A larger budget keeps the same steps and possibly more |
| `TokenBucket.TokenBucket.constructor` | internal/resilience/token_bucket.go:18-32 | A rate or burst that is not positive becomes one; the bucket starts full |
| `TokenBucket.TokenBucket.Allow` | internal/resilience/token_bucket.go:34-43 | Refill, then take one whole token if there is one |
| `TokenBucket.TokenBucket.Wait` | internal/resilience/token_bucket.go:45-60 | Waiting is calling Allow until admitted or the context ends |
| `TokenBucket.Conservation` | internal/resilience/token_bucket.go:79-89 | Over any calls at any clock readings: tokens left + admitted + overflow = tokens before + rate x time between the refill points; tokens stay within [0, burst]; the refill point never goes back |
| `TokenBucket.WindowBound` | internal/resilience/token_bucket.go:34-43 | In any window of any run at most burst + rate x elapsed calls are admitted |
| `TokenBucket.StandingClockMintsNothing` | internal/resilience/token_bucket.go:80-83 | Readings that do not pass the last refill mint nothing: exactly the whole tokens left can be taken |
| `TokenBucket.AdmitsOncePaid` | internal/resilience/token_bucket.go:62-77 | A short bucket admits at a reading exactly when what was owed has passed since the last refill |
| `TokenBucket.SleepingIsEnough` | internal/resilience/token_bucket.go:72-76 | Sleeping exactly nextWait is enough if and only if what is owed is a whole number of nanoseconds or at most the minimal wait |
| `TokenBucket.SleepingCanFallShort` | internal/resilience/token_bucket.go:72-72 | At three tokens a second the first sleep ends too early |
| `TokenBucket.WaitNeedsTwoSleeps` | internal/resilience/token_bucket.go:45-60 | Without rivals and with a clock that never goes back the third call of a Wait is always admitted |
| `SessionScope.SessionIdDetermines` | internal/agent/session_scope.go:15-33 | Session ids with a store are equal exactly when store, kind of scope and all sanitised parts are |
| `SessionScope.PartsFacts` | internal/agent/session_scope.go:15-33 | They consist of six parts without colons and need no trimming |
| `SessionScope.SplitJoin` | internal/agent/session_scope.go:25-32 | Splitting at colons gives the parts back |
| `SessionScope.SanitizeIdempotent` | internal/agent/session_scope.go:35-43 | Sanitising twice is sanitising once |
| `SessionScope.MemoryKeysAreDistinct` | internal/agent/agent.go:328-335 | Under scoped session ids memory keys are equal if and only if session and execution are |
| `SessionScope.CollidesIffNested` | internal/agent/agent.go:328-335 | A session id made up by a caller shares a memory key with a shorter one, for some executions, if and only if once trimmed it is a trimmed id followed by the execution marker and then nothing or text that needs no trimming |
| `SessionScope.ReviewKeyInjective` | internal/agent/grant_idempotency.go:8-10 | Different pairs of store and review never share a key |
| `Text.DecimalInjective` | internal/agent/grant_idempotency.go:9-9 | Different numbers print differently |

## Left out

- HTTP clients and handlers, the model client, logging, bootstrap, configuration loading and prompt files: input and output, or field copying.
- JSON and Lua text: scripts are their atomic effects, tool outputs are decoded values or go through an uninterpreted codec; the -3 answer of saveJobScript (a stored record that does not decode) does not occur.
- The go-redis wrapper and the gobreaker circuit breaker, which are foreign libraries.
- Messages without a job id: process and recovery acknowledge them at once.
- Reads of a job for a caller (Get) and the second read in Submit when a job already exists; JobService.Service.Submit answers with its id.
- Batches of recovery: JobService.Service.Recover handles one claimed entry, its scan time is a parameter, and XAUTOCLAIM may hand over any delivered entry at any time.
- Session ids, trigger types and the other request fields a job only carries along.
- Clock skew in the deadlines of slots, and lease times below a millisecond.
- Liveness: that recovery, tickers and backoff eventually run.
- Coupon policy tables, rendering and hot reload: the seckill scene and the suggestion are uninterpreted functions of the scene.
- RAG argument normalisation, mock tools and the coercions of JSON values; both spellings of an evidence field count as one field.
- Unicode case folding beyond ASCII, and strings that are not valid UTF-8: strings are sequences of runes.
- Rounding of floating-point numbers, and waits beyond the range of a duration, in the token bucket.
- Goroutines inside the tool fan-out: it waits for all three before anything is recorded, so they are taken in a fixed order.
- The prompt built in each step of the agent loop: Compose is proved on its own, and the replies are arbitrary anyway.
- AgentLoop.Agent.RunExecution: does not model memory errors, expiry or eviction during a run; the store is the function both stores agree on.
- Finalizer.StoreRequest leaves out the copy of the model's output that is stored for audit.
- The text of lock errors appended to a finalizer error.
