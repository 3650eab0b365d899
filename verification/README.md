# A verified model of the research service

The service accepts research requests, runs them on workers fed by a leased job queue, and releases a report
only after a review. This project models its job queue (both backends), the protocol between submissions,
workers, the status store, tenant slots and reviewers, the audit trail, the two agent nodes with their
budgets, the circuit breaker and the sanitizer for untrusted tool results, and proves the properties listed
under "Model" below. `dafny verify dfyconfig.toml` checks everything.

## How it is laid out

| file | modules | about |
|---|---|---|
| `Basics.dfy` | `Basics` | shared datatypes and sequence facts |
| `QueueSpec.dfy`, `QueueInvariant.dfy` | `Envelopes`, `Dicts`, `QueueSpec`, `QueueInvariant` | each locked region of the memory queue as a function on values, and what it keeps |
| `QueueMemory.dfy` | `QueueMemory` | the memory backend as a class whose methods are proved against those functions |
| `QueueRuns.dfy`, `QueueOrder.dfy` | `QueueRuns`, `QueueOrder` | runs of locked regions in any order by any number of processes; in which order jobs wait and are handed out |
| `JobMachine.dfy`, `DeliveryBound.dfy`, `DeliverySchedules.dfy` | `JobMachine`, `DeliveryBound`, `DeliverySchedules` | how often a job can be delivered, and that it can |
| `RetryTiming.dfy`, `Heartbeat.dfy` | `RetryTiming`, `Heartbeat` | retry times, the always-failing job, lease renewal |
| `Redis.dfy` | `RedisCommands`, `RedisWorld` | the Redis backend one command or script at a time, with crashes anywhere |
| `RedisSafety.dfy` | `RedisSafety`, `RedisRaces` | what holds under every interleaving, and runs that break the rest |
| `RedisClaims.dfy` | `RedisClaims` | when the rest holds: the exact condition of each write of a claim, and the runs that meet them |
| `RedisSimulation.dfy`, `RedisUninterrupted.dfy`, `RedisTurns.dfy` | `RedisSimulation`, `RedisUninterrupted`, `RedisTurns` | undisturbed Redis operations, and runs of them, simulate the memory queue |
| `Protocol.dfy` | `Protocol`, `ProtocolInvariant` | the whole job protocol as one state machine, and its invariant |
| `ProtocolRuns.dfy` | `ProtocolRuns` | slot accounting over whole runs, and the exact condition of each step that can disturb it |
| `ProtocolDeaths.dfy` | `ProtocolDeaths`, `ProtocolRaces` | which deaths of a worker matter, and runs that lead to each disturbance |
| `ReportGating.dfy`, `Submissions.dfy` | `ReportGating`, `Submissions` | reviews, and concurrent submissions of one job |
| `AuditChain.dfy`, `Stores.dfy` | `AuditChain`, `Stores` | the hash chain, the status store, slots and the audit trail as classes |
| `Server.dfy` | `HandlerSpec`, `ApiHandlers` | the submit and review handlers, the lost race included, as functions and as methods over the stores |
| `ServiceRuns.dfy` | `ServiceRuns` | runs of whole calls, and the handlers as runs of the protocol |
| `Reconciliation.dfy`, `Worker.dfy` | `Reconciliation`, `WorkerProcess` | the dead-letter pass, the processor and `run_once` |
| `AgentData.dfy`, `ResearchSpec.dfy`, `AgentWorkflow.dfy` | `AgentData`, `ResearchSpec`, `AgentWorkflow` | the research and analyst nodes and the graph |
| `CircuitBreaker.dfy`, `Sanitizer.dfy` | `CircuitBreakers`, `Sanitizer` | admission bound; cleanness and idempotence |

Times are exact seconds (`real`). Clock readings, model answers, tool outcomes and the hash function are
parameters, so every statement holds for all of them. Each locked region, Redis command and Redis script is
one atomic step.

## What the proofs found

Some promises do not hold of the code as it stands. Each is stated with its exact condition, and with a run
that breaks it where a state alone does not show it.

* **A slot can be given back twice on submission** (`src/api/server.py:255-278`). A submission that loses the
  race for a job id releases its slot, reads the winner's record, and if that record is gone raises into the
  handler that releases the slot again. The accounts stay exact if and only if the record is still there, or
  the tenant's count is zero anyway (`ProtocolRuns.RereadExactly`; over the real stores
  `ApiHandlers.Api.SubmitResearch`). `ProtocolRaces.SlotReleasedTwice` is a run in which a leftover idempotency
  marker makes the record vanish; without leftover markers it cannot (`Submissions.FreshConservation`).
* **Two reconcilers give one slot back twice** (`src/worker.py:200-219`). A pass reads a record, and writes it
  and releases the slot later. The second half keeps the accounts exact if and only if the record is still
  active by then, or the count is zero anyway (`ProtocolRuns.GiveUpExactly`); `ProtocolRaces.TwoReconcilers` is
  a run in which it is not.
* **Redelivery after finalising** (`src/worker.py:171-183` and `:76`). Beginning a job keeps the accounts exact
  if and only if its record is active (`ProtocolRuns.BeginExactly`), and leaves settled records alone if and
  only if it is not settled (`ReportGating.BeginGatedExactly`). Of all deaths of a worker between two steps only
  one kind matters: after a success, before the report to the queue, with attempts left. If none happens every
  begun job is active (`ProtocolDeaths.SparedConservation`); after each one, from whatever state and clock
  reading on, there is a run without any other disturbance, on a clock that does not go back, that breaks the
  accounts (`ProtocolDeaths.DeathBreaks`).
* **A final record and its slot are written one after the other** (`src/worker.py:160-161`, `:182-183`,
  `:218-219`). A worker that dies in between leaves one slot too many if and only if the job was active, or one
  too few if and only if the tenant had one (`ProtocolDeaths.WorkerDeathsMiscount`); a reconciler leaves the
  accounts wrong if and only if the job was still active (`ProtocolDeaths.ClosingDeathExactly`). Everywhere
  else these pairs are one step.
* **A review writes back the record it read** (`src/api/server.py:299-310`, `:320-328`). The write keeps reports
  gated and leaves settled records alone if and only if the record it overwrites is not settled or is the same
  one, and the report it was decided with is still the stored result (`ReportGating.DecideGatedExactly`). It
  keeps the slots exact if and only if it does not fall on an active record (`ProtocolRuns.DecideExactly`).
  `ProtocolRaces.ApprovalOverturned` is a run in which two reviewers read the waiting record, one approves it,
  and the other one then rejects it.
* **The Redis claim is four commands** (`src/api/job_queue.py:354-365`). Another worker's recovery may requeue
  the id in between. No job is lost or listed twice even so (`RedisSafety.NoLossNoDuplication`), but four runs
  in `RedisRaces` break what the memory queue keeps. `RedisClaims` has the exact condition for each write:
  setting the lease keeps every lease on a job in flight if and only if this job is in flight; writing the
  envelope leaves no envelope of a departed job if and only if this job is still in the queue, and keeps the
  attempt bounds if and only if the attempt fits the place where the job is by then. That the job is in flight
  is not enough for the last one (`RedisRaces.CapExceeded`). All of it holds over every run in which no job is
  taken out of flight while a claim of it is under way (`RedisClaims.UndisturbedClaims`); if no job is taken out
  of flight that another process claims or holds, each job has one holder (`RedisClaims.OneHolder`).
* **An idempotency marker that runs out while its job is still queued** lets the id be listed twice:
  `QueueRuns.EnqueueKeepsExactly` gives the condition, `QueueRuns.ExpiredMarkerListsTwice` an instance.
* **Holders are not fenced** (`src/api/job_queue.py:377`, `:429`). A late holder may act on a newer delivery
  and lower its attempt count. Deliveries are still bounded, by `2^N - 1` instead of `N`, and the queue meets
  that bound for every cap and every job, on a clock that does not go back (`DeliverySchedules.BoundIsMet`). A
  retry leaves no more deliveries to come than before if and only if its attempt is not below the stored one
  (`DeliveryBound.RetryCostsExactly`); if all retries are like that the bound is `N`.
* **Dictionary keys of tool results are shortened but not screened** (`src/security/content.py:58-61`). They
  come out free of the patterns if and only if the shortened keys of the first 100 entries went in free of them
  (`Sanitizer.KeysScreenedExactly`).
* **The research node reports that all providers failed** also when the model budget ran out before every
  provider was tried (`src/agents/research_agent.py:203-215`). When it raises, it has tried every provider in
  its last round if and only if the budget left at the start of that round covers them all
  (`ResearchSpec.AllFailedExactly`, from `AgentData.NobodyAnswers`), and a round raises if and only if all those
  that the budget reaches fail (`ResearchSpec.RaisesExactly`). `ResearchSpec.RaisesTooSoon` is a run with two
  providers and a budget of one call in which the second provider, never asked, would have answered.

## Model

| member | source | states |
|---|---|---|
| `QueueMemory.JobQueue.constructor` | src/api/job_queue.py:230-236 | an empty queue satisfies the class invariant |
| `QueueMemory.JobQueue.Enqueue` | src/api/job_queue.py:304-313 | acceptance, duplicate and refusal; the invariant survives if an accepted id was never accepted before |
| `QueueMemory.JobQueue.RecoverOne` | src/api/job_queue.py:592-601 | one expired claim goes back to the queue or to the dead letters, and the invariant is kept |
| `QueueMemory.JobQueue.RecoverStale` | src/api/job_queue.py:458-467 | the loop over expired claims equals the batch recovery, whose order is `QueueOrder.RecoveredInOrder`, keeps the invariant and returns the number of claims |
| `QueueMemory.JobQueue.PromoteDue` | src/api/job_queue.py:582-590 | the loop over due retries equals the batch promotion, whose order is `QueueOrder.PromotedInOrder`, and keeps the invariant |
| `QueueMemory.JobQueue.Claim` | src/api/job_queue.py:331-352 | recovery, promotion and the waiting loop end in the oldest ready job, leased, with an envelope that may be handed out; or nothing, after any number of wake-ups; which job it is says `QueueOrder.ClaimPicks` |
| `QueueMemory.JobQueue.LeaseHead` | src/api/job_queue.py:344-352 | the head of the queue is in flight with one more attempt and a full lease |
| `QueueMemory.JobQueue.Ack` | src/api/job_queue.py:374-381 | an in-flight job is forgotten, anything else is refused |
| `QueueMemory.JobQueue.Renew` | src/api/job_queue.py:398-405 | only the lease of an in-flight job moves |
| `QueueMemory.JobQueue.Retry` | src/api/job_queue.py:421-435 | the caller's attempt decides between schedule and dead letter; the invariant holds for every envelope ever handed out, late or not |
| `QueueMemory.JobQueue.DeadLetter` | src/api/job_queue.py:534-544 | the exhausted job is dead with a cleared retry time |
| `QueueMemory.JobQueue.DeadLetters` | src/api/job_queue.py:486-489 | every dead id has an envelope and they are returned in order |
| `QueueMemory.JobQueue.RemoveDeadLetter` | src/api/job_queue.py:502-510 | a dead letter is forgotten, its marker stays |
| `QueueInvariant.LocationsPartition` | src/api/job_queue.py:231-236 | "every id is listed as often as it has an envelope" is the same as four disjoint, duplicate-free locations that cover exactly the envelope table |
| `QueueInvariant.RetryKeeps` | src/api/job_queue.py:427-435 | a retry keeps the invariant, moves one job to the right place and touches no other |
| `QueueInvariant.RecoverStaleKeeps` | src/api/job_queue.py:458-467 | recovery takes exactly the expired leases, to the ready list or the dead letters by their attempt, and nothing else changes |
| `QueueInvariant.PromoteDueKeeps` | src/api/job_queue.py:582-590 | promotion takes exactly the due retries and queues them behind everything else |
| `QueueRuns.RunFromStart` | src/api/job_queue.py:304-352 | after any run the locations partition the envelopes and each location's attempt bounds hold |
| `QueueRuns.StepKeeps` | src/api/job_queue.py:427-435 | every locked region keeps the invariant and every payload, given only envelopes handed out by claims |
| `QueueRuns.EnqueueKeepsExactly` | src/api/job_queue.py:305-311 | acceptance keeps the invariant if and only if the id is not still queued |
| `QueueRuns.ExpiredMarkerListsTwice` | src/api/job_queue.py:306-311 | a marker that expires too early lists an id twice |
| `QueueRuns.NoOvertaking` | src/api/job_queue.py:311-344 | an id at position p is handed out by the (p+1)-th claim from then on, whatever happens in between |
| `QueueRuns.AcceptedAgainExactly` | src/api/job_queue.py:305-313 | once accepted, an id is accepted again if and only if the retention time is over, whatever happened to its job in between; until then it is a duplicate |
| `QueueOrder.PutOrder` | src/api/job_queue.py:398-405 | in the tables of leases and retries a new key goes last and a renewed one keeps its place and changes its time only |
| `QueueOrder.PromotedInOrder` | src/api/job_queue.py:582-590 | retries that come due together join the ready list in the order of their table, behind all that is ready |
| `QueueOrder.RecoveredInOrder` | src/api/job_queue.py:458-467 | claims that expire together keep the order of their table, below the cap in the ready list and at the cap among the dead letters |
| `QueueOrder.FlightOrderKept` | src/api/job_queue.py:396-435 | whatever step happens, claims that stay in flight keep their order, renewals included |
| `QueueOrder.FirstPutOffFirstBack` | src/api/job_queue.py:427-435 | of two retries that come due together after any run, the one that was put off first is queued first |
| `QueueOrder.ClaimPicks` | src/api/job_queue.py:331-352 | a claim hands out the head of the ready list, else the first expired claim below the cap, else the first retry due at the promotion or at the first wake-up with one; and nothing if and only if there is none of these |
| `JobMachine.MoveCosts` | src/api/job_queue.py:419-435 | no move of a job, by whatever late holder, increases its potential, and a delivery spends one unit of it |
| `JobMachine.MoveDecreases` | src/api/job_queue.py:419-435 | every move of a job decreases its measure |
| `JobMachine.BoundIsMet` | src/api/job_queue.py:419-435 | for every cap some schedule of the job machine delivers a job `2^N - 1` times |
| `DeliveryBound.StepProjects` | src/api/job_queue.py:344-352 | every step of the queue, seen from one job, is a move of the job machine |
| `DeliveryBound.DeliveryBound` | src/api/job_queue.py:344-352 | at most `2^N - 1` deliveries, however late holders act, if each delivery leads to at most one `ack` or `retry` |
| `DeliveryBound.StepsDecrease` | src/api/job_queue.py:592-601 | every step leaves a job as it was or decreases its measure; renewals are of the first kind |
| `DeliveryBound.RetryCostsExactly` | src/api/job_queue.py:421-435 | a retry leaves its job with no more deliveries to come than before if and only if its attempt is not below the stored one |
| `DeliveryBound.FencedDeliveryBound` | src/worker.py:67-79 | if no retry comes from behind, at most `N` deliveries |
| `DeliverySchedules.Realise` | src/api/job_queue.py:304-435 | every schedule of the job machine is made by calls of the queue, delivery by delivery, from any clock reading on and on a clock that does not go back |
| `DeliverySchedules.BoundIsMet` | src/api/job_queue.py:419-435 | for every cap, every acceptable job can be delivered `2^N - 1` times by holders who each act once, on a clock that does not go back |
| `RetryTiming.NeverEarly` | src/api/job_queue.py:582-590 | no job is handed out before its retry time, in any run under a nondecreasing clock |
| `RetryTiming.TotalDelayClosed` | src/api/job_queue.py:425 | the first k delays sum to `backoff * (2^k - 1)` |
| `RetryTiming.FailingJob` | src/api/job_queue.py:419-435 | a job that always fails under a live lease is a dead letter if and only if it has failed N times; by then it was claimed N times and its delays sum to `backoff * (2^(N-1) - 1)` |
| `Heartbeat.IntervalFits` | src/worker.py:86 | the heartbeat interval is a third of the lease, clamped to 0.01 s and 30 s; it fits three times into the lease if and only if the lease is at least 0.03 s |
| `Heartbeat.HolderKeepsJob` | src/worker.py:81-95 | on a clock that does not go back, if every renewal takes effect less than a third of the lease after it is due, no recovery takes the job |
| `RedisSafety.StepSafe` | src/api/job_queue.py:353-366 | every command or script of any process keeps every id listed once with its own payload, and every process' knowledge valid |
| `RedisSafety.NoLossNoDuplication` | src/api/job_queue.py:27-82 | after every interleaving with crashes, a live job is in exactly one list with its original payload, any other id in none |
| `RedisSafety.MissingEnvelopeDropsNothing` | src/api/job_queue.py:358-361 | a claim that finds no envelope removes nothing from the in-flight list |
| `RedisSafety.NoOvertaking` | src/api/job_queue.py:353-354 | first in, first out under every interleaving |
| `RedisRaces.AttemptBoundFails` | src/api/job_queue.py:354-365 | a run in which a waiting job has used up its attempts |
| `RedisRaces.LeaseWithoutFlight` | src/api/job_queue.py:365 | a run that ends with a lease for a job that is not in flight |
| `RedisRaces.CapExceeded` | src/api/job_queue.py:362-364 | a run with a claim beyond the cap in which the job is in flight whenever a claim writes |
| `RedisRaces.EnvelopeLeftBehind` | src/api/job_queue.py:364-365 | a run that leaves an envelope and a lease for a job listed nowhere |
| `RedisClaims.OtherActionsKeep` | src/api/job_queue.py:27-82 | every command and script but the last two of a claim keeps leases on jobs in flight, envelopes on live jobs, and the attempt bounds |
| `RedisClaims.AddLeaseExactly` | src/api/job_queue.py:365 | setting the lease keeps every lease on a job in flight if and only if this job is in flight |
| `RedisClaims.StoreClaimLiveExactly` | src/api/job_queue.py:362-364 | writing the envelope leaves no envelope of a departed job if and only if this job is still in the queue |
| `RedisClaims.StoreClaimCapExactly` | src/api/job_queue.py:362-364 | writing the envelope keeps the attempt bounds if and only if the attempt fits the place where the job is by then |
| `RedisClaims.CheckedClaims` | src/api/job_queue.py:353-366 | leases, envelopes and attempts are as in the memory queue after every run whose claims find their jobs in flight and within the cap when they write |
| `RedisClaims.UndisturbedClaims` | src/api/job_queue.py:353-366 | the same after every run in which no job is taken out of flight while a claim of it is under way; then no two claims of a job overlap |
| `RedisClaims.OneHolder` | src/api/job_queue.py:353-366 | after every run in which no job is taken out of flight that another process claims or holds, at most one process claims or holds a job, and a held job is in flight with its holder's envelope |
| `RedisSimulation.EnqueueSim` | src/api/job_queue.py:27-33 | the script simulates the memory enqueue |
| `RedisSimulation.AckSim` | src/api/job_queue.py:34-40 | the script simulates the memory acknowledgement |
| `RedisSimulation.RenewSim` | src/api/job_queue.py:71-76 | the script simulates the memory renewal |
| `RedisSimulation.RemoveDeadSim` | src/api/job_queue.py:77-82 | the script simulates the memory removal, on reversed lists |
| `RedisSimulation.RetrySim` | src/api/job_queue.py:41-56 | the retry and dead-letter scripts simulate the memory retry |
| `RedisSimulation.RecoverOneSim` | src/api/job_queue.py:603-616 | recovering one claim simulates the memory recovery |
| `RedisSimulation.PromoteOneSim` | src/api/job_queue.py:65-70 | promoting one retry simulates the memory promotion |
| `RedisSimulation.ClaimSim` | src/api/job_queue.py:353-366 | the four commands of a claim hand out what the memory queue would, up to the cleared retry time |
| `RedisSimulation.RecoveryOrderIrrelevant` | src/api/job_queue.py:478-481 | batches recovered in different orders agree on every job's place and envelope |
| `RedisSimulation.MemoryOrder` | src/api/job_queue.py:460-467 | the memory backend's batch is one of the orders that Redis may use |
| `RedisUninterrupted.ClaimAlone` | src/api/job_queue.py:353-366 | one process claiming undisturbed, as a run of the concurrent model, is simulated by the memory queue |
| `RedisUninterrupted.RecoverAlone` | src/api/job_queue.py:468-482 | the same for a whole recovery, in every order; the scan for missing leases adds nothing |
| `RedisUninterrupted.PromoteAlone` | src/api/job_queue.py:568-578 | the same for a whole promotion |
| `RedisTurns.EmptySim` | src/api/job_queue.py:230-236 | the empty queues of both backends correspond |
| `RedisTurns.WholeClaimIsClaim` | src/api/job_queue.py:323-366 | a whole undisturbed claim, in the memory queue's order, hands out what the memory claim does |
| `RedisTurns.LettersAgree` | src/api/job_queue.py:484-499 | the dead letters of both backends agree, the newest first in Redis |
| `RedisTurns.TurnsFromStart` | src/api/job_queue.py:304-522 | after every run of whole operations by any number of processes, Redis holds what the memory queue holds, and each process the job that the memory queue handed to it |
| `ProtocolRuns.StepCoupled` | src/worker.py:121-231 | every step, with crashes between any two and any number of reconcilers and open reviews, keeps records, queue locations, submissions, holders, letters and reviews consistent, if no lease lapses while its holder lives |
| `ProtocolRuns.SlotConservation` | src/api/governance.py:129-144 | in every run without one of the three disturbances below, a tenant's count is its active jobs plus its submissions that hold a slot for no record, and within the limit |
| `ProtocolRuns.FloorNeverFires` | src/api/governance.py:143-144 | whenever an undisturbed step gives a slot back, there is one |
| `ProtocolRuns.ActiveJobsAreLive` | src/api/server.py:254-268 | an active record's job is in the queue or a submission is about to enqueue it |
| `ProtocolRuns.BeginExactly` | src/worker.py:122-135 | beginning a job keeps the accounts exact if and only if its record is active |
| `ProtocolRuns.DecideExactly` | src/api/server.py:299-328 | the write of a review, however late, keeps the accounts exact if and only if the record it overwrites is not active |
| `ProtocolRuns.GiveUpExactly` | src/worker.py:200-219 | closing a dead-lettered job keeps them exact if and only if its record is still active, or the count is zero anyway |
| `ProtocolRuns.RereadExactly` | src/api/server.py:255-259 | the loser's last steps keep the accounts exact if and only if the winner's record is still there, or the count is zero anyway |
| `ProtocolDeaths.SparedIsOpen` | src/worker.py:67-79 | if no worker dies between a success and its report with attempts left, every job that is begun is active |
| `ProtocolDeaths.SparedConservation` | src/worker.py:67-79 | slot conservation with every other death allowed |
| `ProtocolDeaths.DeathBreaks` | src/worker.py:171-183 | after each such death, from every state and clock reading, some run without another disturbance, on a clock that does not go back, begins the job again and breaks the accounts |
| `ProtocolDeaths.WorkerDeathsMiscount` | src/worker.py:160-183 | after a death between a final record and its slot the tenant's count is one too high if the job was active, and right otherwise; after one between slot and record it is one too low if it was not zero, and right otherwise |
| `ProtocolDeaths.ClosingDeathExactly` | src/worker.py:218-219 | a reconciler that dies there keeps the accounts exact if and only if the job was closed already |
| `ProtocolRaces.SlotReleasedTwice` | src/api/server.py:255-278 | a run in which a slot is given back twice |
| `ProtocolRaces.TwoReconcilers` | src/worker.py:196-219 | a run in which two reconcilers give back the slot of one job |
| `ProtocolRaces.RunsUnaccounted` | src/worker.py:171-183 | a run, on a clock that does not go back, in which a job with the reviewers runs again without a slot |
| `ProtocolRaces.ApprovalOverturned` | src/api/server.py:299-328 | a run in which two reviewers read the waiting record, one approves it, and the other's rejection takes the approval and the report back |
| `ReportGating.StepGated` | src/worker.py:170-183 | every step that begins no settled job and writes no decision over another one keeps reports gated and settled records unchanged |
| `ReportGating.BeginGatedExactly` | src/worker.py:122-135 | beginning a job leaves settled records alone if and only if its own is not settled |
| `ReportGating.DecideGatedExactly` | src/api/server.py:299-328 | the write of a review, however late, keeps reports gated and settled records unchanged if and only if the stored record is not settled or is the one written, and the approved report is still the stored result |
| `ReportGating.ReportsAreGated` | src/api/server.py:299-328 | over all runs that begin no settled job and write no decision over another one, whatever happens to the slots, a record shows a report if and only if it is approved, by someone of the job's tenant, and it is the stored result; settled records never change |
| `Submissions.FreshConservation` | src/api/server.py:242-281 | without leftover markers the accounts are exact with no assumption on submissions |
| `Submissions.OneWinner` | src/api/server.py:242-281 | of concurrent submissions of one id at most one enqueues; once all have replied, exactly one if any got a slot, and every other found its record or met the limit; before any worker or reconciler acts, a tenant whose submissions have all replied has one slot taken per job created |
| `HandlerSpec.PostedExactly` | src/api/server.py:242-281 | a submission, with or without a rival, leaves counts exact and reports gated if and only if it does not lose the race to one that the queue refuses, or its tenant has no slot taken anyway |
| `HandlerSpec.PostedReplies` | src/api/server.py:242-281 | which reply a submission gets, by the record, the slots, the rival and the marker, and the record, envelope and marker that it leaves, or that it leaves none |
| `HandlerSpec.ApprovedExactly` | src/api/server.py:205-209 | an approval succeeds if and only if the job exists in the reviewer's tenant, awaits approval and has a stored report; which refusal follows otherwise; every field of the new record |
| `HandlerSpec.RejectedExactly` | src/api/server.py:320-325 | a rejection succeeds if and only if the job exists in the reviewer's tenant and awaits approval; which refusal follows otherwise; every field of the new record |
| `HandlerSpec.ReviewInOrder` | src/api/server.py:299-328 | a review keeps counts exact and reports gated |
| `ApiHandlers.Api.HandOver` | src/api/server.py:261-278 | a refused job loses its record and its slot, an accepted one keeps both and adds the event `job_submitted` |
| `ApiHandlers.Api.LoseRace` | src/api/server.py:255-260 | the loser releases its slot and looks again; without a record it releases once more and raises |
| `ApiHandlers.Api.SubmitResearch` | src/api/server.py:242-281 | the handler over the real stores, with a rival in its gaps or not, does what `Posted` says; stores in order stay so exactly under the condition of `PostedExactly` |
| `ApiHandlers.Api.ApproveResearch` | src/api/server.py:299-312 | approval exactly as in `ApprovedExactly`; an approved job, and no other, adds the event `report_approved`; stores in order stay in order |
| `ApiHandlers.Api.RejectResearch` | src/api/server.py:320-335 | rejection exactly as in `RejectedExactly`; a rejected job, and no other, adds the event `report_rejected`; stores in order stay in order |
| `ServiceRuns.AnsweredExactly` | src/api/server.py:242-328 | every submission, review and processor call leaves the stores in order if and only if it is smooth, which is decided before the call |
| `ServiceRuns.ServiceStaysInOrder` | src/api/server.py:242-328 | over all runs of smooth calls on empty stores counts are exact, within the limit, and reports are shown exactly when approved |
| `ServiceRuns.SubmitAlone` | src/api/server.py:242-281 | a submission without a rival is the protocol's submission steps in a row |
| `ServiceRuns.RaceAlone` | src/api/server.py:242-281 | one with a rival is the protocol's steps of two submissions, interleaved as described |
| `ServiceRuns.ApproveAlone` | src/api/server.py:299-312 | the protocol's steps of an approval in a row end in the stores that the handler's specification gives, and change nothing else |
| `ServiceRuns.RejectAlone` | src/api/server.py:320-328 | the same for a rejection |
| `Stores.JobStore.SetIfAbsent` | src/api/job_store.py:154-158 | creates if and only if absent, and says which |
| `Stores.GovernanceStore.constructor` | src/api/governance.py:61-70 | no slots taken, an empty chain |
| `Stores.GovernanceStore.AcquireJobSlot` | src/api/governance.py:129-133 | a slot is taken exactly below the limit |
| `Stores.GovernanceStore.ReleaseJobSlot` | src/api/governance.py:143-144 | one slot back, floored at zero |
| `Stores.GovernanceStore.AppendAudit` | src/api/governance.py:183-194 | the trail grows by one sealed record and stays a chain |
| `AuditChain.AppendKeeps` | src/api/governance.py:183-194 | appending keeps sequences 1..n and links |
| `AuditChain.DecimalMeans` | src/api/governance.py:185 | the hashed sequence number is its decimal text, without leading zeros |
| `AuditChain.SplitUnique` | src/api/governance.py:185 | body and sequence can be told apart in the hashed text, because a body ends in a brace and the sequence is digits |
| `AuditChain.InputInjective` | src/api/governance.py:185 | the hashed text determines the record |
| `AuditChain.HeadDeterminesTrail` | src/api/governance.py:183-194 | under a hash without collisions among the hashed texts that never yields the genesis value, two valid trails have the same head hash if and only if they are identical |
| `AuditChain.SegmentsAgree` | src/api/governance.py:45-55 | two stretches of a trail with the same head agree record by record, as for a stream whose oldest entries were trimmed |
| `Reconciliation.PassEffect` | src/worker.py:196-231 | a pass drains exactly the letters with a record, settles their jobs, gives back one slot per job that was active, and keeps the rest in order |
| `Reconciliation.SecondPassIdle` | src/worker.py:196-231 | a second pass changes nothing |
| `Reconciliation.ClosedAreOwing` | src/worker.py:200-219 | a pass fails the jobs that are active when it begins, in the order of their letters |
| `Reconciliation.ReconcileAlone` | src/worker.py:196-231 | an undisturbed pass of the protocol machine is such a pass |
| `WorkerProcess.CallIsTwoSteps` | src/worker.py:121-194 | a call of the processor is the protocol's two processing steps |
| `WorkerProcess.CalledMeans` | src/worker.py:121-194 | every field of the record after a call, the stored result, the slots and whether it raises, by the end of the run and the attempt |
| `WorkerProcess.ResearchProcessor.Call` | src/worker.py:121-194 | records, results and slots after a call, and whether it raises; `job_claimed` and the event of the outcome are sealed into the trail |
| `WorkerProcess.ResearchProcessor.RunBroke` | src/worker.py:150-168 | a broken run retries the job, or fails it and frees its slot at the cap; the event says which |
| `WorkerProcess.ResearchProcessor.RunEnded` | src/worker.py:170-194 | a finished run stores its report and withholds it if approval is required; the event says which |
| `WorkerProcess.ResearchProcessor.ReconcileDeadLetters` | src/worker.py:196-231 | the loop over letters equals the pass of `Reconciliation`, with one event `job_dead_lettered` for each job that it fails, in order |
| `WorkerProcess.ResearchProcessor.RunOnce` | src/worker.py:58-79 | maintenance, claim, call and report in turn; undisturbed, the lease is never found lost |
| `CircuitBreakers.CircuitBreaker.Call` | src/resilience.py:38-54 | the operation is started if and only if the circuit is not open at that moment |
| `CircuitBreakers.CircuitBreaker.IsOpen` | src/resilience.py:56-61 | the same condition |
| `CircuitBreakers.AdmissionBound` | src/resilience.py:38-54 | whatever happened before, a stretch of length T without a success starts at most `threshold * (floor(T / recovery) + 1)` operations |
| `CircuitBreakers.OpenExactly` | src/resilience.py:38-61 | after any run, successes included, the circuit is open and the next call refused if and only if the started operations that failed since the last success are a positive multiple of the threshold, and the last one ended less than the recovery time ago |
| `CircuitBreakers.SuccessResets` | src/resilience.py:52-54 | after a success none of the next `threshold` calls is refused, whatever came before |
| `CircuitBreakers.BoundIsMet` | src/resilience.py:38-54 | a provider that stays down is called exactly that often by bursts after each recovery |
| `CircuitBreakers.BurstsFit` | src/resilience.py:38-54 | those bursts are a failing stretch of exactly that length |
| `Sanitizer.ResultIsClean` | src/security/content.py:43-68 | whatever is returned is clean at every depth: strings bounded, control-free and pattern-free, lists and dictionaries within the serialised limit |
| `Sanitizer.FixedIffClean` | src/security/content.py:43-68 | the sanitizer's fixed points are exactly the clean values |
| `Sanitizer.Idempotent` | src/security/content.py:43-68 | sanitizing twice is sanitizing once |
| `Sanitizer.ListKept` | src/security/content.py:53-57 | a list keeps the sanitized forms of its first 100 elements in order |
| `Sanitizer.DictionaryKept` | src/security/content.py:57-61 | each shortened key keeps the sanitized value of the last of the first 100 entries with it |
| `Sanitizer.DictionaryOrder` | src/security/content.py:57-61 | the keys stand where their shortened forms first occur among the first 100 entries |
| `Sanitizer.OnlyControlsGo` | src/security/content.py:34 | every character stays in its order, but control characters other than line feed and tab |
| `Sanitizer.TextScreened` | src/security/content.py:34-40 | a text is cut at the limit after filtering; a match is an error under `block` and replaces the whole text otherwise |
| `Sanitizer.ListRefusedExactly` | src/security/content.py:53-67 | a list is refused if and only if one of its first 100 elements is, or the serialised result exceeds the limit |
| `Sanitizer.DictionaryRefusedExactly` | src/security/content.py:57-67 | the same for a dictionary and its first 100 values |
| `Sanitizer.WidthIsLength` | src/security/content.py:65-67 | the width that is limited is the length of the serialised text, escapes included |
| `Sanitizer.RedactionIsCleanIffMarkerFits` | src/security/content.py:34-40 | redacted text is clean if and only if the marker itself is |
| `Sanitizer.KeysScreenedExactly` | src/security/content.py:58-61 | the keys of a sanitized dictionary are free of the patterns if and only if the shortened keys of its first 100 entries are |
| `Sanitizer.KeysPassUnscreened` | src/security/content.py:58-61 | any key that is short enough passes, whatever the patterns |
| `AgentData.FallbackMeans` | src/agents/research_agent.py:202-213 | providers are invoked in order until the first answer or until providers or budget run out |
| `AgentData.NobodyAnswers` | src/agents/research_agent.py:202-215 | no provider answers if and only if all that the budget reaches fail; then all were invoked if and only if the budget covers them |
| `AgentData.SourcesFromLog` | src/agents/research_agent.py:285-290 | the registry holds exactly the sources of logged, successful, non-empty calls of known tools |
| `AgentData.CollectedFromLog` | src/agents/research_agent.py:273-283 | an analysis is the error-free dictionary of a logged market-data call; news items and macro indicators are the list elements of logged news and macro calls; and nothing else is collected |
| `AgentData.FiledInOrder` | src/agents/research_agent.py:273-283 | each logged call adds what it gives to its own collection, behind what was there, in the order of the list |
| `AgentData.SourcesInOrder` | src/agents/research_agent.py:285-290 | each logged call of a known tool whose result is neither an error nor empty adds one source per element or one for the whole result, in order; other calls add none |
| `AgentData.ResultMeans` | src/agents/research_agent.py:242-271 | a result is data if and only if the tool is known, answered, and passed the sanitizer, and is then the sanitized answer; otherwise which error it is |
| `ResearchSpec.RoundsKeep` | src/agents/research_agent.py:198-310 | model calls count every invocation and stay in budget, tool calls and iterations too, and the collections are what the logged calls contributed |
| `ResearchSpec.RaisesAfterFailure` | src/agents/research_agent.py:214-215 | the node raises only right after a failed invocation |
| `ResearchSpec.RaisesExactly` | src/agents/research_agent.py:202-215 | a round raises if and only if every provider that the budget reaches fails |
| `ResearchSpec.AllFailedExactly` | src/agents/research_agent.py:214-215 | when the node raises that all providers failed, it tried every one of them in its last round if and only if the budget left at that round's start covers them |
| `ResearchSpec.RaisesTooSoon` | src/agents/research_agent.py:203-215 | a run that raises although the second provider, never asked, would have answered |
| `ResearchSpec.LogFollowsModels` | src/agents/research_agent.py:231-301 | the log is exactly the first calls that the answering models asked for, up to the limit, each with its iteration |
| `ResearchSpec.RoundsMatch` | src/agents/research_agent.py:242-271 | the i-th logged result is what the next tool invocation yielded; unknown tools cost none |
| `ResearchSpec.RoundsEnd` | src/agents/research_agent.py:198-230 | the node goes on while answers ask for tools: it ends with the first that does not, with the iterations or the model budget used up, or by raising |
| `ResearchSpec.RoundsCost` | src/agents/research_agent.py:198-218 | tokens are those that the answering models reported, and there is one iteration per answer, one more if the node raises |
| `ResearchSpec.SourcesAreClean` | src/agents/research_agent.py:255-290 | every source was made from sanitized content of a known tool |
| `AgentWorkflow.AnalystSound` | src/agents/analyst_agent.py:147-203 | within the budget; a report or an error; an accepted report is grounded |
| `AgentWorkflow.ReportedExactly` | src/agents/analyst_agent.py:148-203 | a report is set if and only if the first answer within the budget is a draft whose fields pass the schema, with 1 to 50 well-formed citations of registered sources; it is that draft |
| `AgentWorkflow.AnalysedExactly` | src/agents/analyst_agent.py:148-249 | otherwise which error is set, and the invocations and tokens counted; nothing else changes |
| `AgentWorkflow.RunWithinBudgets` | src/graph/workflow.py:165-227 | the budgets hold however a run ends, and a finished run counts exactly the model invocations made |
| `AgentWorkflow.SpentBudgetNoReport` | src/agents/analyst_agent.py:150-164 | research that spends the whole model budget leaves no report |
| `AgentWorkflow.InputChecked` | src/graph/workflow.py:38-90 | the tickers given or else the first three found in the query; a known depth; an error if and only if there is no ticker |
| `AgentWorkflow.TickersKept` | src/graph/workflow.py:45-46 | tickers keep their order, blank ones go, the others are stripped and in upper case |
| `AgentWorkflow.RunEnds` | src/graph/workflow.py:165-227 | which of the possible ends a run takes; the analyst is asked if and only if the research found analyses or news, and sources |
| `AgentWorkflow.RunCountsTokens` | src/graph/workflow.py:165-227 | a finished run counts exactly the tokens that the answering models reported, in both nodes |
| `AgentWorkflow.ReportsAreGrounded` | src/agents/analyst_agent.py:180-203 | every report cites at least one source, and every cited id belongs to a source made from a sanitized, successful, logged call |
| `AgentWorkflow.Workflow.AskModels` | src/agents/research_agent.py:202-213 | the fallback loop, counting every invocation |
| `AgentWorkflow.Workflow.RunTool` | src/agents/research_agent.py:242-271 | unknown tools are not invoked; failures and unsafe content become errors |
| `AgentWorkflow.Workflow.RunTools` | src/agents/research_agent.py:231-301 | the tool loop follows its specification |
| `AgentWorkflow.Workflow.Research` | src/agents/research_agent.py:155-347 | the nested loops follow their specification |
| `AgentWorkflow.Workflow.Analyse` | src/agents/analyst_agent.py:126-249 | the node follows its specification |
| `AgentWorkflow.Workflow.RunResearch` | src/graph/workflow.py:165-227 | validation, research, routing and analysis in turn follow the specification of a run |

## Left out

- HTTP, roles, the rate limit, API keys, settings parsing, deployment and the CLI.
- LLM clients, the tools themselves, their retries and timeouts, and prompt text: models and tools are arbitrary answers; whether the analyst's prompt can be built is a parameter.
- JSON text, regular expressions, SHA-256 and SHA-1: values, an opaque pattern predicate, a hash that is a parameter, and a serialised length. Source ids are an arbitrary function of tool, arguments and content.
- Store and queue failures: every store access succeeds, so a submission's crash or a failed audit write after the enqueue is not modelled.
- Status record fields for display (times, error texts, token counts of a job); the reviewer of a record is kept as a principal so that its tenant can be stated.
- The expiry of Redis slot counters (`src/api/governance.py:35`) and of stored records: the slots are the memory ones.
- Marker expiry inside Redis runs: no id is accepted twice there.
- Sub-second rounding of clocks: times are exact, and one locked region that reads the clock several times reads one value.
- The sharing of one circuit breaker by concurrent calls, and the breakers inside the tool loop: there an open circuit is one of the ways a tool call may fail.
- `WorkerProcess.ResearchProcessor.RunOnce`: runs without the heartbeat beside the processor and with nothing interleaved; `Heartbeat` and `Protocol` treat those.
- `QueueMemory.JobQueue.Claim`: the deadline of the waiting loop is not in its contract; the number of wake-ups before it is a parameter.
- `ProtocolRuns.StepCoupled`: a process does not die, and nobody acts, inside the three groups of accesses that are one step (reading and marking a record at the start of a job, finalising, closing); what deaths inside the last two do is stated for single steps by `ProtocolDeaths.WorkerDeathsMiscount` and `ProtocolDeaths.ClosingDeathExactly`.
- `ProtocolRuns.SlotConservation`, `ReportGating.ReportsAreGated`: stated over the memory queue's atomic take. Over the Redis claim only what the protocol needs of the queue is shown (`RedisClaims.OneHolder`, under a condition on the runs); slots and reports are not lifted to it.
- `ApiHandlers.Api.SubmitResearch`: of all interleavings it has the two gaps in which a rival submission of the same job matters; `Protocol` has all of them. Ids, principals and tenants are non-empty, as authentication guarantees.
- `RedisWorld` lets a process start any operation when idle; the program's worker always recovers, promotes and then claims, which is one of these orders.
- Settled records staying settled, `ReportGating`: stated with approval required, the default.
- Envelope encoding and decoding as JSON text, and the missing-field errors of decoding.
