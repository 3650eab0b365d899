/** The job protocol: submissions, workers, dead-letter reconciliation and review as one state machine
    over the queue, the status and result stores and the tenants' slots. Every locked region, store
    access and slot operation is one step, except that three pairs of accesses are one step each: reading
    and marking a record when a worker begins its job, finalising a job (its record, its result and its
    slot), and the reconciler's failing a job (its record and its slot). */
module Protocol {
  import opened Basics
  import opened Envelopes
  import opened QueueSpec
  import opened QueueInvariant
  import opened QueueRuns

  type Tenant = string

  datatype Principal = Principal(id: string, tenant: Tenant)

  datatype Rules = Rules(cfg: Config, limit: nat, approval: bool)

  datatype Status = Pending | IsRunning | Retrying | AwaitingApproval | Approved | Rejected | Completed | Failed

  predicate Active(s: Status) {
    s.Pending? || s.IsRunning? || s.Retrying?
  }

  /** A status record. `approvedBy` names the reviewer of an approved or rejected job. */
  datatype JobRecord = JobRecord(
    jobId: Id, tenant: Tenant, status: Status, attempt: nat, report: Option<Json>, approvedBy: Option<Principal>)

  /** A submission handler, between its store accesses. */
  datatype SubPc =
    | Start | Absent | HasSlot | LostRace | Released | Vanished
    | Created | Refused | Deleted | Done(outcome: Outcome)

  datatype Outcome = Enqueued | Existing | LimitReached | QueueRejected | Unavailable

  datatype Sub = Sub(id: Id, payload: Payload, pc: SubPc)

  /** A worker process: idle, holding a claim at some point of its processing, or reconciling letters. */
  datatype WorkerPc =
    | Free
    | Claimed(e: Envelope)
    | Working(e: Envelope, job: JobRecord)
    | Finished(e: Envelope, ok: bool)
    | Reconciling(todo: seq<Envelope>)
    | Closing(todo: seq<Envelope>, read: JobRecord)
    | Removing(todo: seq<Envelope>)

  /** A review handler that has looked at the record, or that is about to write it back with its decision. */
  datatype OpenReview =
    | Looked(id: Id, who: Principal, read: JobRecord)
    | Decided(id: Id, job: JobRecord)

  /** `creator`, `holder` and `orphans` only record which submission created a record, which live worker
      holds an in-flight job, and which jobs lost their worker after it finalised them with success and
      before it told the queue, with attempts left. */
  datatype Sys = Sys(
    h: History,
    jobs: map<Id, JobRecord>,
    results: map<Id, Option<Json>>,
    slots: map<Tenant, nat>,
    subs: map<nat, Sub>,
    workers: map<nat, WorkerPc>,
    reviews: map<nat, OpenReview>,
    creator: map<Id, nat>,
    holder: map<Id, nat>,
    orphans: set<Id>)

  /** The system at start; `left` are idempotency markers left by an earlier life of the queue. */
  function Initial(left: map<Id, real>): Sys {
    Sys(START.(m := EMPTY_QUEUE.(known := left)), map[], map[], map[], map[], map[], map[], map[], map[], {})
  }

  function SlotOf(slots: map<Tenant, nat>, t: Tenant): nat {
    if t in slots then slots[t] else 0
  }

  function Acquire(slots: map<Tenant, nat>, limit: nat, t: Tenant): (map<Tenant, nat>, bool) {
    if SlotOf(slots, t) >= limit then (slots, false) else (slots[t := SlotOf(slots, t) + 1], true)
  }

  /** The count never goes below zero. */
  function Release(slots: map<Tenant, nat>, t: Tenant): map<Tenant, nat> {
    slots[t := if SlotOf(slots, t) == 0 then 0 else SlotOf(slots, t) - 1]
  }

  datatype Action =
    | Submit(k: nat, id: Id, p: Payload)
    | SubRead(k: nat)
    | SubAcquire(k: nat)
    | SubCreate(k: nat)
    | SubRelease(k: nat)
    | SubReread(k: nat)
    | SubReleaseAgain(k: nat)
    | SubEnqueue(k: nat, now: real)
    | SubDelete(k: nat)
    | SubGiveUp(k: nat)
    | Recover(now: real)
    | Promote(now: real)
    | Claim(w: nat, now: real)
    | Begin(w: nat)
    | Renew(w: nat, until: real)
    | Succeed(w: nat, report: Option<Json>)
    | Fail(w: nat)
    | AckJob(w: nat)
    | RetryJob(w: nat, error: string, now: real)
    | Crash(w: nat)
    | ListLetters(w: nat)
    | ReadLetter(w: nat)
    | GiveUp(w: nat)
    | RemoveLetter(w: nat)
    | Look(r: nat, who: Principal, id: Id, approve: bool)
    | Fetch(r: nat)
    | Decide(r: nat)

  function PcOf(s: Sys, w: nat): WorkerPc {
    if w in s.workers then s.workers[w] else Free
  }

  function SubTo(subs: map<nat, Sub>, k: nat, pc: SubPc): map<nat, Sub>
    requires k in subs
  {
    subs[k := subs[k].(pc := pc)]
  }

  function SetSub(s: Sys, k: nat, pc: SubPc): Sys
    requires k in s.subs
  {
    s.(subs := SubTo(s.subs, k, pc))
  }

  function SetWorker(s: Sys, w: nat, pc: WorkerPc): Sys {
    s.(workers := s.workers[w := pc])
  }

  // `submit_research`, one store or slot access at a time.

  function Submitted(s: Sys, k: nat, id: Id, p: Payload): Sys {
    if k in s.subs || QueueSpec.Refused(id, p) then s else s.(subs := s.subs[k := Sub(id, p, Start)])
  }

  predicate At(s: Sys, k: nat, pc: SubPc) {
    k in s.subs && s.subs[k].pc == pc
  }

  function LookedUp(s: Sys, k: nat): Sys {
    if !At(s, k, Start) then s else SetSub(s, k, if s.subs[k].id in s.jobs then Done(Existing) else Absent)
  }

  function SlotAcquired(rules: Rules, s: Sys, k: nat): Sys {
    if !At(s, k, Absent) then s else
      var (slots, got) := Acquire(s.slots, rules.limit, s.subs[k].payload.tenant);
      s.(subs := SubTo(s.subs, k, if got then HasSlot else Done(LimitReached)), slots := slots)
  }

  function FirstRecord(sub: Sub): JobRecord {
    JobRecord(sub.id, sub.payload.tenant, Pending, 0, None, None)
  }

  function RecordSet(s: Sys, k: nat): Sys {
    if !At(s, k, HasSlot) then s
    else if s.subs[k].id in s.jobs then SetSub(s, k, LostRace)
    else
      var sub := s.subs[k];
      s.(
        subs := SubTo(s.subs, k, Created),
        jobs := s.jobs[sub.id := FirstRecord(sub)],
        creator := s.creator[sub.id := k])
  }

  /** A slot given back: by the loser of a race, again by one whose winner vanished, or after the queue
      refused the job. */
  function SlotReleased(s: Sys, k: nat, from: SubPc, to: SubPc): Sys {
    if !At(s, k, from) then s
    else s.(subs := SubTo(s.subs, k, to), slots := Release(s.slots, s.subs[k].payload.tenant))
  }

  function Reread(s: Sys, k: nat): Sys {
    if !At(s, k, Released) then s else SetSub(s, k, if s.subs[k].id in s.jobs then Done(Existing) else Vanished)
  }

  function JobEnqueued(rules: Rules, s: Sys, k: nat, now: real): Sys {
    if !At(s, k, Created) then s else
      var op := DoEnqueue(s.subs[k].id, s.subs[k].payload, now);
      s.(subs := SubTo(s.subs, k, if Accepts(rules.cfg, s.h.m, op) then Done(Enqueued) else Refused),
         h := Exec(rules.cfg, s.h, op))
  }

  function RecordDropped(s: Sys, k: nat): Sys {
    if !At(s, k, Refused) then s
    else s.(subs := SubTo(s.subs, k, Deleted), jobs := s.jobs - {s.subs[k].id}, creator := s.creator - {s.subs[k].id})
  }

  // Locked regions of the queue that any process may run, and claims.

  function QueueOp(rules: Rules, s: Sys, op: Op): Sys {
    s.(h := Exec(rules.cfg, s.h, op))
  }

  function JobClaimed(rules: Rules, s: Sys, w: nat, now: real): Sys {
    var got := Handed(rules.cfg, s.h.m, DoTake(now));
    if !PcOf(s, w).Free? || got == [] then s
    else s.(workers := s.workers[w := Claimed(got[0])],
            h := Exec(rules.cfg, s.h, DoTake(now)), holder := s.holder[got[0].jobId := w])
  }

  predicate Holds(pc: WorkerPc) {
    pc.Claimed? || pc.Working? || pc.Finished?
  }

  function LeaseRenewed(rules: Rules, s: Sys, w: nat, until: real): Sys {
    if Holds(PcOf(s, w)) then QueueOp(rules, s, DoRenew(PcOf(s, w).e.jobId, until)) else s
  }

  // `ResearchProcessor.__call__` and the end of `run_once`. The processor writes back the record that it
  // read when it began.

  function Marked(job: JobRecord, attempt: nat): JobRecord {
    job.(status := IsRunning, attempt := attempt)
  }

  function Begun(s: Sys, w: nat): Sys {
    var pc := PcOf(s, w);
    if !pc.Claimed? then s
    else if pc.e.jobId !in s.jobs then SetWorker(s, w, Finished(pc.e, false))
    else
      var job := Marked(s.jobs[pc.e.jobId], pc.e.attempt);
      s.(workers := s.workers[w := Working(pc.e, job)], jobs := s.jobs[pc.e.jobId := job])
  }

  function Succeeded(rules: Rules, s: Sys, w: nat, report: Option<Json>): Sys {
    var pc := PcOf(s, w);
    if !pc.Working? then s else
      var job := pc.job.(status := if rules.approval then AwaitingApproval else Completed,
                         report := if rules.approval then None else report);
      s.(
        workers := s.workers[w := Finished(pc.e, true)],
        results := s.results[pc.e.jobId := report], jobs := s.jobs[pc.e.jobId := job],
        slots := Release(s.slots, pc.e.payload.tenant))
  }

  function FailedOnce(rules: Rules, s: Sys, w: nat): Sys {
    var pc := PcOf(s, w);
    if !pc.Working? then s else
      var terminal := pc.e.attempt >= rules.cfg.maxAttempts;
      s.(
        workers := s.workers[w := Finished(pc.e, false)],
        jobs := s.jobs[pc.e.jobId := pc.job.(status := if terminal then Failed else Retrying)],
        slots := if terminal then Release(s.slots, pc.e.payload.tenant) else s.slots)
  }

  /** The holder tells the queue, by `ack` or `retry`, and is free again. */
  function Told(rules: Rules, s: Sys, w: nat, op: Op): Sys
    requires PcOf(s, w).Finished?
  {
    s.(workers := s.workers[w := Free], h := Exec(rules.cfg, s.h, op), holder := s.holder - {PcOf(s, w).e.jobId})
  }

  function Acked(rules: Rules, s: Sys, w: nat): Sys {
    var pc := PcOf(s, w);
    if pc.Finished? && pc.ok then Told(rules, s, w, DoAck(pc.e.jobId)) else s
  }

  function Retried(rules: Rules, s: Sys, w: nat, error: string, now: real): Sys {
    var pc := PcOf(s, w);
    if pc.Finished? && !pc.ok then Told(rules, s, w, DoRetry(pc.e, error, now)) else s
  }

  /** The worker has finalised its job with success, and the queue would deliver the job once more. */
  predicate Unreported(rules: Rules, pc: WorkerPc) {
    pc.Finished? && pc.ok && pc.e.attempt < rules.cfg.maxAttempts
  }

  function Crashed(rules: Rules, s: Sys, w: nat): Sys {
    var pc := PcOf(s, w);
    s.(workers := s.workers[w := Free],
       holder := if Holds(pc) then s.holder - {pc.e.jobId} else s.holder,
       orphans := if Unreported(rules, pc) then s.orphans + {pc.e.jobId} else s.orphans)
  }

  // `reconcile_dead_letters` and the two review handlers.

  function LettersListed(s: Sys, w: nat): Sys {
    if PcOf(s, w).Free? then SetWorker(s, w, Reconciling(LettersOf(s.h.m.envelopes, s.h.m.dead))) else s
  }

  /** The reconciler reads the record of its first letter. */
  function LetterRead(s: Sys, w: nat): Sys {
    if PcOf(s, w).Reconciling? then SetWorker(s, w, AfterRead(s.jobs, PcOf(s, w).todo)) else s
  }

  function AfterRead(jobs: map<Id, JobRecord>, todo: seq<Envelope>): WorkerPc {
    if todo == [] then Free
    else if todo[0].jobId !in jobs then Reconciling(todo[1..])
    else if !Active(jobs[todo[0].jobId].status) then Removing(todo)
    else Closing(todo, jobs[todo[0].jobId])
  }

  /** It writes that record back as failed, and gives the slot back. */
  function GivenUp(s: Sys, w: nat): Sys {
    var pc := PcOf(s, w);
    if !pc.Closing? || pc.todo == [] then s else
      var e := pc.todo[0];
      s.(
        workers := s.workers[w := Removing(pc.todo)],
        jobs := s.jobs[e.jobId := pc.read.(status := Failed, attempt := e.attempt)],
        slots := Release(s.slots, e.payload.tenant))
  }

  function LetterRemoved(rules: Rules, s: Sys, w: nat): Sys {
    var pc := PcOf(s, w);
    if !pc.Removing? || pc.todo == [] then s
    else s.(workers := s.workers[w := Reconciling(pc.todo[1..])],
            h := Exec(rules.cfg, s.h, DoRemoveDead(pc.todo[0].jobId)))
  }

  /** A review handler reads the record. Only an approval reads the result as well. */
  function ReviewOpened(s: Sys, r: nat, who: Principal, id: Id, approve: bool): Sys {
    if r in s.reviews || !Reviewable(s, who, id) then s
    else if approve then s.(reviews := s.reviews[r := Looked(id, who, s.jobs[id])])
    else s.(reviews := s.reviews[r := Decided(id, s.jobs[id].(status := Rejected, approvedBy := Some(who)))])
  }

  function ReportFetched(s: Sys, r: nat): Sys {
    if r in s.reviews && s.reviews[r].Looked? then s.(reviews := AfterFetch(s.results, s.reviews, r)) else s
  }

  /** Without a report there is nothing to approve. */
  function AfterFetch(results: map<Id, Option<Json>>, reviews: map<nat, OpenReview>, r: nat): map<nat, OpenReview>
    requires r in reviews && reviews[r].Looked?
  {
    var v := reviews[r];
    if v.id !in results || results[v.id].None? then reviews - {r}
    else reviews[r := Decided(v.id, v.read.(status := Approved, report := results[v.id], approvedBy := Some(v.who)))]
  }

  /** It writes back the record that it read, with its decision. */
  function DecisionWritten(s: Sys, r: nat): Sys {
    if r !in s.reviews || !s.reviews[r].Decided? then s
    else s.(jobs := s.jobs[s.reviews[r].id := s.reviews[r].job], reviews := s.reviews - {r})
  }

  predicate Reviewable(s: Sys, who: Principal, id: Id) {
    id in s.jobs && s.jobs[id].tenant == who.tenant && s.jobs[id].status == AwaitingApproval
  }

  function Act(rules: Rules, s: Sys, a: Action): Sys {
    match a
    case Submit(k, id, p) => Submitted(s, k, id, p)
    case SubRead(k) => LookedUp(s, k)
    case SubAcquire(k) => SlotAcquired(rules, s, k)
    case SubCreate(k) => RecordSet(s, k)
    case SubRelease(k) => SlotReleased(s, k, LostRace, Released)
    case SubReread(k) => Reread(s, k)
    case SubReleaseAgain(k) => SlotReleased(s, k, Vanished, Done(Unavailable))
    case SubEnqueue(k, now) => JobEnqueued(rules, s, k, now)
    case SubDelete(k) => RecordDropped(s, k)
    case SubGiveUp(k) => SlotReleased(s, k, Deleted, Done(QueueRejected))
    case Recover(now) => QueueOp(rules, s, DoRecover(now))
    case Promote(now) => QueueOp(rules, s, DoPromote(now))
    case Claim(w, now) => JobClaimed(rules, s, w, now)
    case Renew(w, until) => LeaseRenewed(rules, s, w, until)
    case Begin(w) => Begun(s, w)
    case Succeed(w, report) => Succeeded(rules, s, w, report)
    case Fail(w) => FailedOnce(rules, s, w)
    case AckJob(w) => Acked(rules, s, w)
    case RetryJob(w, error, now) => Retried(rules, s, w, error, now)
    case Crash(w) => Crashed(rules, s, w)
    case ListLetters(w) => LettersListed(s, w)
    case ReadLetter(w) => LetterRead(s, w)
    case GiveUp(w) => GivenUp(s, w)
    case RemoveLetter(w) => LetterRemoved(rules, s, w)
    case Look(r, who, id, approve) => ReviewOpened(s, r, who, id, approve)
    case Fetch(r) => ReportFetched(s, r)
    case Decide(r) => DecisionWritten(s, r)
  }

  /** No lease lapses while its holder lives. */
  predicate LeasesHold(s: Sys, a: Action) {
    a.Recover? ==> forall id <- s.holder.Keys :: id in s.h.m.inflight.at ==> a.now < s.h.m.inflight.at[id]
  }

  predicate AllLeasesHold(rules: Rules, s: Sys, actions: seq<Action>)
    decreases |actions|
  {
    actions == [] || (LeasesHold(s, actions[0]) && AllLeasesHold(rules, Act(rules, s, actions[0]), actions[1..]))
  }

  // What disturbs the accounts, visible before the step: a losing submission has found the winner's record
  // gone, a reconciler closes a job that another one has closed since it read the record, and a worker
  // begins a job that is not active any more.

  predicate RecordStays(s: Sys, a: Action) {
    a.SubReleaseAgain? ==> !At(s, a.k, Vanished)
  }

  predicate LetterStays(s: Sys, a: Action) {
    a.GiveUp? && PcOf(s, a.w).Closing? && PcOf(s, a.w).todo != [] ==>
      var id := PcOf(s, a.w).todo[0].jobId;
      id in s.jobs && Active(s.jobs[id].status)
  }

  predicate JobOpen(s: Sys, a: Action) {
    a.Begin? && PcOf(s, a.w).Claimed? ==>
      var id := PcOf(s, a.w).e.jobId;
      id in s.jobs && Active(s.jobs[id].status)
  }

  predicate AllRecordsStay(rules: Rules, s: Sys, actions: seq<Action>)
    decreases |actions|
  {
    actions == [] || (RecordStays(s, actions[0]) && AllRecordsStay(rules, Act(rules, s, actions[0]), actions[1..]))
  }

  predicate AllLettersStay(rules: Rules, s: Sys, actions: seq<Action>)
    decreases |actions|
  {
    actions == [] || (LetterStays(s, actions[0]) && AllLettersStay(rules, Act(rules, s, actions[0]), actions[1..]))
  }

  predicate AllOpen(rules: Rules, s: Sys, actions: seq<Action>)
    decreases |actions|
  {
    actions == [] || (JobOpen(s, actions[0]) && AllOpen(rules, Act(rules, s, actions[0]), actions[1..]))
  }

  function ActAll(rules: Rules, s: Sys, actions: seq<Action>): Sys
    decreases |actions|
  {
    if actions == [] then s else ActAll(rules, Act(rules, s, actions[0]), actions[1..])
  }
}

/** What every step of the protocol keeps. */
module ProtocolInvariant {
  import opened Basics
  import opened Envelopes
  import opened QueueSpec
  import opened QueueInvariant
  import opened QueueRuns
  import opened Protocol

  predicate HoldsJob(pc: WorkerPc, id: Id) {
    (pc.Claimed? || pc.Working? || pc.Finished?) && pc.e.jobId == id
  }

  /** How a record, its queue location, its creator and its holder go together. */
  predicate JobOk(rules: Rules, s: Sys, id: Id) {
    var place := PlaceOf(s.h.m, id);
    && (id in s.orphans ==> id in s.h.origin)
    && (id in s.h.origin ==> id in s.jobs && s.jobs[id].tenant == s.h.origin[id].tenant)
    && (id in s.h.m.envelopes ==> id in s.h.origin)
    && (id in s.jobs <==> id in s.creator)
    && (id in s.jobs ==>
          var job, k := s.jobs[id], s.creator[id];
          && k in s.subs && s.subs[k].id == id
          && (if id in s.h.origin then s.subs[k].pc == Done(Enqueued)
              else (s.subs[k].pc.Created? || s.subs[k].pc.Refused?) && job.status.Pending?
                   && job.tenant == s.subs[k].payload.tenant)
          && (Active(job.status) && id in s.h.origin ==> place != Gone)
          && (id !in s.orphans ==> OpenOk(rules, s, id, place, job.status)))
    && (id in s.holder ==> HoldsJob(PcOf(s, s.holder[id]), id))
  }

  /** A job that may be delivered again is active, unless its worker is about to tell the queue. */
  predicate OpenOk(rules: Rules, s: Sys, id: Id, place: Place, status: Status) {
    && (place == Ready || place == Scheduled ==> Active(status))
    && (place == Inflight && !Active(status) ==>
          || (id in s.holder && PcOf(s, s.holder[id]).Finished?)
          || (id in s.h.m.envelopes && s.h.m.envelopes[id].attempt >= rules.cfg.maxAttempts))
  }

  predicate SubOk(s: Sys, k: nat) {
    k in s.subs ==>
      var id, pc := s.subs[k].id, s.subs[k].pc;
      && !QueueSpec.Refused(id, s.subs[k].payload)
      && (pc.Created? || pc.Refused? || pc == Done(Enqueued) ==> id in s.creator && s.creator[id] == k)
      && (pc.Created? || pc.Refused? ==> id !in s.h.origin)
  }

  predicate HoldOk(s: Sys, w: nat, e: Envelope) {
    && e in s.h.issued && e.jobId in s.h.origin
    && PlaceOf(s.h.m, e.jobId) == Inflight
    && e.jobId in s.h.m.envelopes && s.h.m.envelopes[e.jobId] == e
    && e.jobId in s.holder && s.holder[e.jobId] == w
    && e.jobId in s.jobs
  }

  predicate LetterOk(rules: Rules, s: Sys, e: Envelope) {
    && e.attempt == rules.cfg.maxAttempts
    && e.jobId in s.h.origin && e.payload == s.h.origin[e.jobId] && e.jobId in s.jobs
    && (PlaceOf(s.h.m, e.jobId) == Dead || PlaceOf(s.h.m, e.jobId) == Gone)
  }

  /** The record as it was read, or as another reconciler has closed it since. */
  predicate ClosedOr(rules: Rules, job: JobRecord, read: JobRecord) {
    job == read || job == read.(status := Failed, attempt := rules.cfg.maxAttempts)
  }

  predicate WorkerOk(rules: Rules, s: Sys, w: nat) {
    match PcOf(s, w)
    case Free => true
    case Claimed(e) => HoldOk(s, w, e) && (e.jobId !in s.orphans ==> Active(s.jobs[e.jobId].status))
    case Working(e, job) =>
      && HoldOk(s, w, e) && job.status.IsRunning? && job.tenant == s.jobs[e.jobId].tenant
      && (e.jobId !in s.orphans ==> s.jobs[e.jobId] == job)
    case Finished(e, ok) =>
      && HoldOk(s, w, e)
      && (ok ==> !Active(s.jobs[e.jobId].status))
      && (!ok && e.jobId !in s.orphans ==>
            s.jobs[e.jobId].status == if e.attempt >= rules.cfg.maxAttempts then Failed else Retrying)
    case Reconciling(todo) => forall e <- todo :: LetterOk(rules, s, e)
    case Closing(todo, read) =>
      && todo != [] && (forall e <- todo :: LetterOk(rules, s, e))
      && LetterOk(rules, s, todo[0]) && Active(read.status) && read.tenant == s.jobs[todo[0].jobId].tenant
      && (todo[0].jobId !in s.orphans ==> ClosedOr(rules, s.jobs[todo[0].jobId], read))
    case Removing(todo) =>
      && todo != [] && (forall e <- todo :: LetterOk(rules, s, e))
      && LetterOk(rules, s, todo[0]) && !Active(s.jobs[todo[0].jobId].status)
  }

  /** Waiting for a review, or through it. */
  predicate Reviewed(status: Status) {
    status.AwaitingApproval? || status.Approved? || status.Rejected?
  }

  /** The job of an open review was finalised. It stays with the reviewers unless its worker was lost. */
  predicate ReviewOk(s: Sys, r: nat) {
    r in s.reviews ==>
      var v := s.reviews[r];
      && v.id in s.jobs && v.id in s.h.origin
      && (v.Looked? ==> v.read.status.AwaitingApproval? && v.read.tenant == v.who.tenant == s.jobs[v.id].tenant)
      && (v.Decided? ==> (v.job.status.Approved? || v.job.status.Rejected?) && v.job.tenant == s.jobs[v.id].tenant)
      && (v.id !in s.orphans ==> Reviewed(s.jobs[v.id].status))
  }

  ghost predicate Coupled(rules: Rules, s: Sys) {
    && Sound(rules.cfg, s.h)
    && (forall id :: JobOk(rules, s, id))
    && (forall k :: SubOk(s, k))
    && (forall w :: WorkerOk(rules, s, w))
    && (forall r :: ReviewOk(s, r))
  }

  lemma InitialCoupled(rules: Rules, left: map<Id, real>)
    ensures Coupled(rules, Initial(left))
  {
    EmptyInv(rules.cfg);
    var s := Initial(left);
    forall id ensures InvAt(rules.cfg, s.h.m, id) { assert InvAt(rules.cfg, EMPTY_QUEUE, id); }
  }

  /** A submission that is bound to a record or a queued job. */
  predicate Bound(pc: SubPc) {
    pc.Created? || pc.Refused? || pc == Done(Enqueued)
  }

  /** A submission moved between states that are bound to nothing. */
  lemma SubMoved(rules: Rules, s: Sys, s': Sys, k: nat)
    requires Coupled(rules, s) && k in s'.subs
    requires s' == s.(subs := s.subs[k := s'.subs[k]], slots := s'.slots)
    requires k in s.subs ==> !Bound(s.subs[k].pc)
    requires !Bound(s'.subs[k].pc) && !QueueSpec.Refused(s'.subs[k].id, s'.subs[k].payload)
    ensures Coupled(rules, s')
  {
    forall id ensures JobOk(rules, s', id) {
      assert JobOk(rules, s, id);
    }
    forall j ensures SubOk(s', j) { assert SubOk(s, j); }
    forall w ensures WorkerOk(rules, s', w) { assert WorkerOk(rules, s, w); }
    forall r ensures ReviewOk(s', r) { assert ReviewOk(s, r); }
  }

  /** A submission created the record of a new id. */
  lemma RecordCreated(rules: Rules, s: Sys, s': Sys, k: nat)
    requires Coupled(rules, s) && k in s.subs && s.subs[k].pc.HasSlot? && s.subs[k].id !in s.jobs
    requires s' == RecordSet(s, k)
    ensures Coupled(rules, s')
  {
    assert JobOk(rules, s, s.subs[k].id) && SubOk(s, k);
    forall id ensures JobOk(rules, s', id) {
      assert JobOk(rules, s, id);
    }
    forall j ensures SubOk(s', j) { assert SubOk(s, j); }
    forall w ensures WorkerOk(rules, s', w) { CreatedWorker(rules, s, s', w, s.subs[k].id); }
    forall r ensures ReviewOk(s', r) { assert ReviewOk(s, r); }
  }

  lemma CreatedWorker(rules: Rules, s: Sys, s': Sys, w: nat, x: Id)
    requires WorkerOk(rules, s, w) && x !in s.jobs && x in s'.jobs
    requires s' == s.(jobs := s.jobs[x := s'.jobs[x]], creator := s'.creator, subs := s'.subs)
    ensures WorkerOk(rules, s', w)
  {
    var pc := PcOf(s, w);
    if pc.Reconciling? || pc.Closing? || pc.Removing? {
      forall e <- pc.todo ensures LetterOk(rules, s', e) { assert LetterOk(rules, s, e); }
    }
  }

  /** A submission whose job the queue refused deleted its record. */
  lemma RecordDeleted(rules: Rules, s: Sys, s': Sys, k: nat)
    requires Coupled(rules, s) && k in s.subs && s.subs[k].pc.Refused?
    requires s' == RecordDropped(s, k)
    ensures Coupled(rules, s')
  {
    var x := s.subs[k].id;
    assert SubOk(s, k);
    DeletedUnused(rules, s, x);
    forall id ensures JobOk(rules, s', id) {
      assert JobOk(rules, s, id);
    }
    forall j ensures SubOk(s', j) { assert SubOk(s, j); }
    DeletedWorkers(rules, s, s', x);
    forall r ensures ReviewOk(s', r) { assert ReviewOk(s, r); }
  }

  lemma DeletedWorkers(rules: Rules, s: Sys, s': Sys, x: Id)
    requires forall w :: WorkerOk(rules, s, w) && !HoldsJob(PcOf(s, w), x)
    requires x !in s.h.origin && s'.h == s.h && s'.workers == s.workers
    requires s'.holder == s.holder && s'.orphans == s.orphans
    requires s'.jobs == s.jobs - {x}
    ensures forall w :: WorkerOk(rules, s', w)
  {
    forall w ensures WorkerOk(rules, s', w) {
      assert WorkerOk(rules, s, w) && !HoldsJob(PcOf(s, w), x);
      var pc := PcOf(s, w);
      if pc.Reconciling? || pc.Closing? || pc.Removing? {
        forall e <- pc.todo ensures LetterOk(rules, s', e) { assert LetterOk(rules, s, e); }
      }
    }
  }

  /** No worker deals with an id that was never accepted. */
  lemma DeletedUnused(rules: Rules, s: Sys, id: Id)
    requires Coupled(rules, s) && id !in s.h.origin
    ensures id !in s.holder
    ensures forall w :: !HoldsJob(PcOf(s, w), id)
  {
    assert JobOk(rules, s, id);
    forall w ensures !HoldsJob(PcOf(s, w), id) { assert WorkerOk(rules, s, w); }
  }

  /** The step concerned one id and one worker; every other id looks the same as before. */
  ghost predicate OnlyAbout(s: Sys, s': Sys, x: Id, w0: nat) {
    && OthersKept(s.h.m, s'.h.m, x)
    && s.h.issued <= s'.h.issued
    && (forall id :: id != x ==> SameRecords(s, s', id))
    && (forall w :: w != w0 ==> PcOf(s', w) == PcOf(s, w))
    && (forall id :: HoldsJob(PcOf(s, w0), id) ==> id == x)
  }

  predicate SameRecords(s: Sys, s': Sys, id: Id) {
    && (id in s.h.origin <==> id in s'.h.origin) && (id in s.h.origin ==> s'.h.origin[id] == s.h.origin[id])
    && (id in s.jobs <==> id in s'.jobs) && (id in s.jobs ==> s'.jobs[id] == s.jobs[id])
    && (id in s.creator <==> id in s'.creator) && (id in s.creator ==> s'.creator[id] == s.creator[id])
    && (id in s.holder <==> id in s'.holder) && (id in s.holder ==> s'.holder[id] == s.holder[id])
    && (id in s.orphans <==> id in s'.orphans)
  }

  /** What other workers may believe about `x` is still true. */
  predicate LettersStay(rules: Rules, s: Sys, s': Sys, x: Id) {
    x in s.h.origin && x in s.jobs ==>
      && x in s'.h.origin && s'.h.origin[x] == s.h.origin[x] && x in s'.jobs
      && s'.jobs[x].tenant == s.jobs[x].tenant && (x in s.orphans ==> x in s'.orphans)
      && (PlaceOf(s.h.m, x) == Dead || PlaceOf(s.h.m, x) == Gone ==>
            && (PlaceOf(s'.h.m, x) == Dead || PlaceOf(s'.h.m, x) == Gone)
            && (!Active(s.jobs[x].status) ==> !Active(s'.jobs[x].status))
            && (x !in s'.orphans ==>
                  s'.jobs[x] == s.jobs[x] || (Active(s.jobs[x].status) && ClosedOr(rules, s'.jobs[x], s.jobs[x]))))
  }

  /** What open reviews of `x` rely on is still true. */
  predicate ReviewsStay(s: Sys, s': Sys, x: Id) {
    x in s.h.origin && x in s.jobs ==>
      && x in s'.h.origin && x in s'.jobs && s'.jobs[x].tenant == s.jobs[x].tenant
      && (x !in s'.orphans ==> x !in s.orphans && (Reviewed(s.jobs[x].status) ==> Reviewed(s'.jobs[x].status)))
  }

  lemma ReviewsKept(s: Sys, s': Sys, x: Id)
    requires (forall r :: ReviewOk(s, r)) && s'.reviews == s.reviews
    requires (forall id :: id != x ==> SameRecords(s, s', id)) && ReviewsStay(s, s', x)
    ensures forall r :: ReviewOk(s', r)
  {
    forall r ensures ReviewOk(s', r) {
      assert ReviewOk(s, r);
      if r in s.reviews { assert s.reviews[r].id != x ==> SameRecords(s, s', s.reviews[r].id); }
    }
  }

  lemma WorkersKept(rules: Rules, s: Sys, s': Sys, x: Id, w0: nat)
    requires OnlyAbout(s, s', x, w0) && LettersStay(rules, s, s', x)
    requires forall w :: WorkerOk(rules, s, w)
    requires forall w :: w != w0 ==> !HoldsJob(PcOf(s, w), x)
    requires WorkerOk(rules, s', w0)
    ensures forall w :: WorkerOk(rules, s', w)
  {
    forall w ensures WorkerOk(rules, s', w) {
      assert WorkerOk(rules, s, w);
      if w != w0 {
        var pc := PcOf(s, w);
        if pc.Claimed? || pc.Working? || pc.Finished? {
          assert HoldsJob(pc, pc.e.jobId);
          assert SameRecords(s, s', pc.e.jobId) && KeptAt(s.h.m, s'.h.m, pc.e.jobId);
        } else if pc.Reconciling? || pc.Closing? || pc.Removing? {
          forall e <- pc.todo ensures LetterOk(rules, s', e) {
            assert LetterOk(rules, s, e);
            assert e.jobId != x ==> SameRecords(s, s', e.jobId) && KeptAt(s.h.m, s'.h.m, e.jobId);
          }
          if !pc.Reconciling? {
            var id := pc.todo[0].jobId;
            assert id != x ==> SameRecords(s, s', id);
          }
        }
      }
    }
  }

  lemma JobsKept(rules: Rules, s: Sys, s': Sys, x: Id, w0: nat)
    requires OnlyAbout(s, s', x, w0) && s'.subs == s.subs
    requires forall id :: JobOk(rules, s, id)
    requires JobOk(rules, s', x)
    ensures forall id :: JobOk(rules, s', id)
  {
    forall id ensures JobOk(rules, s', id) {
      assert JobOk(rules, s, id);
      if id != x {
        assert SameRecords(s, s', id) && KeptAt(s.h.m, s'.h.m, id);
        assert id in s.holder ==> s.holder[id] != w0;
      }
    }
  }

  /** At most one worker holds an id. */
  lemma OneHolder(rules: Rules, s: Sys, w: nat, id: Id)
    requires forall w :: WorkerOk(rules, s, w)
    requires HoldsJob(PcOf(s, w), id)
    ensures id in s.holder && s.holder[id] == w
    ensures forall v :: v != w ==> !HoldsJob(PcOf(s, v), id)
  {
    assert WorkerOk(rules, s, w);
    forall v | v != w ensures !HoldsJob(PcOf(s, v), id) {
      assert WorkerOk(rules, s, v);
    }
  }

  /** Only in-flight ids are held. */
  lemma NotHeld(rules: Rules, s: Sys, id: Id)
    requires forall w :: WorkerOk(rules, s, w)
    requires PlaceOf(s.h.m, id) != Inflight
    ensures forall w :: !HoldsJob(PcOf(s, w), id)
  {
    forall w ensures !HoldsJob(PcOf(s, w), id) {
      assert WorkerOk(rules, s, w);
    }
  }

  lemma SubEnqueued(rules: Rules, s: Sys, k: nat, now: real)
    requires Coupled(rules, s) && k in s.subs && s.subs[k].pc.Created?
    ensures Coupled(rules, JobEnqueued(rules, s, k, now))
  {
    var s' := JobEnqueued(rules, s, k, now);
    var x, p := s.subs[k].id, s.subs[k].payload;
    assert SubOk(s, k);
    assert JobOk(rules, s, x);
    StepKeeps(rules.cfg, s.h, DoEnqueue(x, p, now));
    EnqueueKeeps(rules.cfg, s.h.m, x, p, now);
    Known(rules, s, x);
    NotHeld(rules, s, x);
    forall id ensures JobOk(rules, s', id) { SubEnqueuedJob(rules, s, s', k, id); }
    forall j ensures SubOk(s', j) { assert SubOk(s, j); }
    SubEnqueuedWorkers(rules, s, s', x);
    forall r ensures ReviewOk(s', r) { assert ReviewOk(s, r); }
  }

  lemma SubEnqueuedJob(rules: Rules, s: Sys, s': Sys, k: nat, id: Id)
    requires JobOk(rules, s, id) && SubOk(s, k) && k in s.subs && s.subs[k].pc.Created? && k in s'.subs
    requires var x := s.subs[k].id;
      && OthersKept(s.h.m, s'.h.m, x) && x !in s.h.origin && x !in s.holder && PlaceOf(s.h.m, x) == Gone
      && s' == s.(h := s'.h, subs := s.subs[k := s'.subs[k]])
      && (if s'.subs[k].pc == Done(Enqueued)
          then s'.h.origin == s.h.origin[x := s.subs[k].payload] && PlaceOf(s'.h.m, x) == Ready
          else s'.subs[k].pc == Refused && s'.h.origin == s.h.origin && s'.h.m == s.h.m)
      && s'.subs[k].id == x && s'.subs[k].payload == s.subs[k].payload
    ensures JobOk(rules, s', id)
  {
    assert id != s.subs[k].id ==> KeptAt(s.h.m, s'.h.m, id);
  }

  /** An id that was never accepted is nowhere in the queue. */
  lemma Known(rules: Rules, s: Sys, id: Id)
    requires Coupled(rules, s) && id !in s.h.origin
    ensures PlaceOf(s.h.m, id) == Gone && id !in s.h.m.envelopes
  {
    assert InvAt(rules.cfg, s.h.m, id);
    Listed(rules.cfg, s.h.m, id);
    assert JobOk(rules, s, id);
  }

  lemma SubEnqueuedWorkers(rules: Rules, s: Sys, s': Sys, x: Id)
    requires forall w :: WorkerOk(rules, s, w)
    requires s'.workers == s.workers && s'.jobs == s.jobs && s.h.issued <= s'.h.issued
    requires s'.holder == s.holder && s'.orphans == s.orphans
    requires OthersKept(s.h.m, s'.h.m, x) && x !in s.h.origin
    requires forall id <- s.h.origin.Keys :: id in s'.h.origin && s'.h.origin[id] == s.h.origin[id]
    ensures forall w :: WorkerOk(rules, s', w)
  {
    forall w ensures WorkerOk(rules, s', w) {
      assert WorkerOk(rules, s, w);
      var pc := PcOf(s, w);
      if pc.Claimed? || pc.Working? || pc.Finished? {
        assert KeptAt(s.h.m, s'.h.m, pc.e.jobId);
      } else if pc.Reconciling? || pc.Closing? || pc.Removing? {
        forall e <- pc.todo ensures LetterOk(rules, s', e) {
          assert LetterOk(rules, s, e) && KeptAt(s.h.m, s'.h.m, e.jobId);
        }
      }
    }
  }

  /** Batch steps of the queue: ids that are not held may move on, if the records allow their new place. */
  lemma BatchCoupled(rules: Rules, s: Sys, s': Sys, op: Op)
    requires Coupled(rules, s) && Allowed(rules.cfg, s.h, op)
    requires op.DoRecover? || op.DoPromote? || op.DoRenew?
    requires s' == s.(h := Exec(rules.cfg, s.h, op))
    requires forall id :: KeptAt(s.h.m, s'.h.m, id) || MovedOn(rules, s, s', id)
    ensures Coupled(rules, s')
  {
    StepKeeps(rules.cfg, s.h, op);
    forall id ensures JobOk(rules, s', id) {
      assert JobOk(rules, s, id);
      assert KeptAt(s.h.m, s'.h.m, id) || MovedOn(rules, s, s', id);
    }
    forall k ensures SubOk(s', k) { assert SubOk(s, k); }
    forall w ensures WorkerOk(rules, s', w) { BatchWorker(rules, s, s', w); }
    forall r ensures ReviewOk(s', r) { assert ReviewOk(s, r); }
  }

  lemma BatchWorker(rules: Rules, s: Sys, s': Sys, w: nat)
    requires WorkerOk(rules, s, w) && s' == s.(h := s'.h)
    requires s'.h.origin == s.h.origin && s.h.issued <= s'.h.issued
    requires forall id :: KeptAt(s.h.m, s'.h.m, id) || MovedOn(rules, s, s', id)
    ensures WorkerOk(rules, s', w)
  {
    var pc := PcOf(s, w);
    if pc.Claimed? || pc.Working? || pc.Finished? {
      assert KeptAt(s.h.m, s'.h.m, pc.e.jobId) || MovedOn(rules, s, s', pc.e.jobId);
    } else if pc.Reconciling? || pc.Closing? || pc.Removing? {
      forall e <- pc.todo ensures LetterOk(rules, s', e) {
        assert LetterOk(rules, s, e);
        assert KeptAt(s.h.m, s'.h.m, e.jobId) || MovedOn(rules, s, s', e.jobId);
      }
    }
  }

  /** A job that nobody holds went from flight or from the schedule to the ready list or the dead letters. */
  predicate MovedOn(rules: Rules, s: Sys, s': Sys, id: Id) {
    && id !in s.holder
    && (PlaceOf(s.h.m, id) == Inflight || PlaceOf(s.h.m, id) == Scheduled)
    && (PlaceOf(s'.h.m, id) == Ready || PlaceOf(s'.h.m, id) == Dead)
    && id in s.h.m.envelopes && id in s'.h.m.envelopes
    && (PlaceOf(s'.h.m, id) == Ready ==> s.h.m.envelopes[id].attempt < rules.cfg.maxAttempts)
  }

  lemma RecoverCoupled(rules: Rules, s: Sys, now: real)
    requires Coupled(rules, s) && LeasesHold(s, Recover(now))
    ensures Coupled(rules, QueueOp(rules, s, DoRecover(now)))
  {
    var s', m := QueueOp(rules, s, DoRecover(now)), s.h.m;
    RecoverStaleKeeps(rules.cfg, m, now);
    forall id ensures KeptAt(m, s'.h.m, id) || MovedOn(rules, s, s', id) {
      if id in m.inflight.at && m.inflight.at[id] <= now {
        assert InvAt(rules.cfg, m, id);
        Listed(rules.cfg, m, id);
      }
    }
    BatchCoupled(rules, s, s', DoRecover(now));
  }

  lemma PromoteCoupled(rules: Rules, s: Sys, now: real)
    requires Coupled(rules, s)
    ensures Coupled(rules, QueueOp(rules, s, DoPromote(now)))
  {
    var s', m := QueueOp(rules, s, DoPromote(now)), s.h.m;
    PromoteDueKeeps(rules.cfg, m, now);
    forall id ensures KeptAt(m, s'.h.m, id) || MovedOn(rules, s, s', id) {
      if id in m.scheduled.at && m.scheduled.at[id] <= now {
        assert InvAt(rules.cfg, m, id);
        Listed(rules.cfg, m, id);
        HeldInFlight(rules, s, id);
      }
    }
    BatchCoupled(rules, s, s', DoPromote(now));
  }

  lemma HeldInFlight(rules: Rules, s: Sys, id: Id)
    requires Coupled(rules, s)
    ensures id in s.holder ==> PlaceOf(s.h.m, id) == Inflight
  {
    assert JobOk(rules, s, id);
    if id in s.holder {
      assert WorkerOk(rules, s, s.holder[id]);
    }
  }

  lemma RenewCoupled(rules: Rules, s: Sys, w: nat, until: real)
    requires Coupled(rules, s)
    ensures Coupled(rules, LeaseRenewed(rules, s, w, until))
  {
    if Holds(PcOf(s, w)) { RenewedCoupled(rules, s, PcOf(s, w).e.jobId, until); }
  }

  lemma RenewedCoupled(rules: Rules, s: Sys, id: Id, until: real)
    requires Coupled(rules, s)
    ensures Coupled(rules, QueueOp(rules, s, DoRenew(id, until)))
  {
    var s' := QueueOp(rules, s, DoRenew(id, until));
    RenewKeeps(rules.cfg, s.h.m, id, until);
    forall k ensures KeptAt(s.h.m, s'.h.m, k) || MovedOn(rules, s, s', k) { assert KeptAt(s.h.m, s'.h.m, k); }
    BatchCoupled(rules, s, s', DoRenew(id, until));
  }

  /** A step of worker `w` on job `x` in the queue; records, results, submissions and slots stay. */
  ghost predicate JobStep(s: Sys, s': Sys, w: nat, x: Id) {
    && s' == s.(h := s'.h, workers := s.workers[w := PcOf(s', w)], holder := s'.holder, orphans := s'.orphans)
    && (forall id :: id != x ==> (id in s'.orphans <==> id in s.orphans)) && s.orphans <= s'.orphans
    && OthersKept(s.h.m, s'.h.m, x)
    && s'.h.origin == s.h.origin && s.h.issued <= s'.h.issued
    && (forall id :: id != x ==>
          (id in s'.holder <==> id in s.holder) && (id in s.holder ==> s'.holder[id] == s.holder[id]))
    && (forall id :: HoldsJob(PcOf(s, w), id) ==> id == x)
    && (forall v :: v != w ==> !HoldsJob(PcOf(s, v), x))
  }

  lemma JobStepCoupled(rules: Rules, s: Sys, s': Sys, w: nat, x: Id)
    requires Coupled(rules, s) && JobStep(s, s', w, x) && Sound(rules.cfg, s'.h)
    requires LettersStay(rules, s, s', x) && JobOk(rules, s', x) && WorkerOk(rules, s', w)
    ensures Coupled(rules, s')
  {
    WorkersKept(rules, s, s', x, w);
    JobsKept(rules, s, s', x, w);
    ReviewsKept(s, s', x);
    forall k ensures SubOk(s', k) { assert SubOk(s, k); }
  }

  lemma ClaimCoupled(rules: Rules, s: Sys, w: nat, now: real)
    requires Coupled(rules, s)
    ensures Coupled(rules, JobClaimed(rules, s, w, now))
  {
    if PcOf(s, w).Free? && s.h.m.ready != [] {
      var s', x := JobClaimed(rules, s, w, now), s.h.m.ready[0];
      StepKeeps(rules.cfg, s.h, DoTake(now));
      ClaimFacts(rules, s, s', w, now);
      ClaimShape(rules, s, s', w, now);
      JobStepCoupled(rules, s, s', w, x);
    }
  }

  /** What a claim changes. */
  lemma ClaimState(rules: Rules, s: Sys, w: nat, now: real)
    requires Sound(rules.cfg, s.h) && PcOf(s, w).Free? && s.h.m.ready != []
    ensures var s', x := JobClaimed(rules, s, w, now), s.h.m.ready[0];
      && s' == s.(h := s'.h, workers := s.workers[w := PcOf(s', w)], holder := s.holder[x := w])
      && OthersKept(s.h.m, s'.h.m, x) && PlaceOf(s.h.m, x) == Ready
      && s'.h.origin == s.h.origin && s.h.issued <= s'.h.issued
  {
    TakeKeeps(rules.cfg, s.h.m, now);
    assert InvAt(rules.cfg, Take(rules.cfg, s.h.m, now).0, s.h.m.ready[0]);
  }

  lemma ClaimShape(rules: Rules, s: Sys, s': Sys, w: nat, now: real)
    requires Coupled(rules, s) && PcOf(s, w).Free? && s.h.m.ready != [] && s' == JobClaimed(rules, s, w, now)
    ensures JobStep(s, s', w, s.h.m.ready[0])
  {
    ClaimState(rules, s, w, now);
    ClaimStep(rules, s, s', w, s.h.m.ready[0]);
  }

  lemma ClaimStep(rules: Rules, s: Sys, s': Sys, w: nat, x: Id)
    requires (forall v :: WorkerOk(rules, s, v)) && PcOf(s, w).Free? && PlaceOf(s.h.m, x) == Ready
    requires s' == s.(h := s'.h, workers := s.workers[w := PcOf(s', w)], holder := s.holder[x := w])
    requires OthersKept(s.h.m, s'.h.m, x) && s'.h.origin == s.h.origin && s.h.issued <= s'.h.issued
    ensures JobStep(s, s', w, x)
  {
    NotHeld(rules, s, x);
  }

  lemma ClaimFacts(rules: Rules, s: Sys, s': Sys, w: nat, now: real)
    requires Coupled(rules, s) && PcOf(s, w).Free? && s.h.m.ready != [] && s' == JobClaimed(rules, s, w, now)
    ensures var x := s.h.m.ready[0]; JobOk(rules, s', x) && WorkerOk(rules, s', w) && LettersStay(rules, s, s', x)
  {
    var m, x := s.h.m, s.h.m.ready[0];
    TakeKeeps(rules.cfg, m, now);
    assert InvAt(rules.cfg, s'.h.m, x);
    assert JobOk(rules, s, x);
    assert PcOf(s', w) == Claimed(s'.h.m.envelopes[x]);
  }

  /** The holder of `x` rewrites its record. */
  lemma RecordWritten(rules: Rules, s: Sys, s': Sys, w: nat, x: Id)
    requires Coupled(rules, s) && HoldsJob(PcOf(s, w), x) && HoldsJob(PcOf(s', w), x)
    requires x in s.jobs && x in s'.jobs && s'.jobs == s.jobs[x := s'.jobs[x]]
    requires s' == s.(jobs := s'.jobs, results := s'.results, slots := s'.slots, workers := s.workers[w := PcOf(s', w)])
    requires s'.jobs[x].tenant == s.jobs[x].tenant && (x !in s.orphans ==> Active(s.jobs[x].status))
    requires Active(s'.jobs[x].status) || PcOf(s', w).Finished?
    requires WorkerOk(rules, s', w)
    ensures Coupled(rules, s')
  {
    assert WorkerOk(rules, s, w);
    OneHolder(rules, s, w, x);
    assert JobOk(rules, s, x);
    WorkersKept(rules, s, s', x, w);
    JobsKept(rules, s, s', x, w);
    ReviewsKept(s, s', x);
    forall k ensures SubOk(s', k) { assert SubOk(s, k); }
  }

  lemma BeginCoupled(rules: Rules, s: Sys, w: nat)
    requires Coupled(rules, s)
    ensures Coupled(rules, Begun(s, w))
  {
    var pc := PcOf(s, w);
    assert WorkerOk(rules, s, w);
    if pc.Claimed? {
      RecordWritten(rules, s, Begun(s, w), w, pc.e.jobId);
    }
  }

  lemma SucceedCoupled(rules: Rules, s: Sys, w: nat, report: Option<Json>)
    requires Coupled(rules, s)
    ensures Coupled(rules, Succeeded(rules, s, w, report))
  {
    var pc := PcOf(s, w);
    assert WorkerOk(rules, s, w);
    if pc.Working? {
      RecordWritten(rules, s, Succeeded(rules, s, w, report), w, pc.e.jobId);
    }
  }

  lemma FailCoupled(rules: Rules, s: Sys, w: nat)
    requires Coupled(rules, s)
    ensures Coupled(rules, FailedOnce(rules, s, w))
  {
    var pc := PcOf(s, w);
    assert WorkerOk(rules, s, w);
    if pc.Working? {
      RecordWritten(rules, s, FailedOnce(rules, s, w), w, pc.e.jobId);
    }
  }

  /** The queue step by which a holder reports its job. */
  lemma ToldShape(rules: Rules, s: Sys, w: nat, op: Op)
    requires Coupled(rules, s) && PcOf(s, w).Finished?
    requires OthersKept(s.h.m, Apply(rules.cfg, s.h.m, op), PcOf(s, w).e.jobId) && !op.DoEnqueue?
    ensures JobStep(s, Told(rules, s, w, op), w, PcOf(s, w).e.jobId)
  {
    OneHolder(rules, s, w, PcOf(s, w).e.jobId);
  }

  lemma AckCoupled(rules: Rules, s: Sys, w: nat)
    requires Coupled(rules, s)
    ensures Coupled(rules, Acked(rules, s, w))
  {
    var pc, s' := PcOf(s, w), Acked(rules, s, w);
    if pc.Finished? && pc.ok {
      var x := pc.e.jobId;
      AckKeeps(rules.cfg, s.h.m, x);
      StepKeeps(rules.cfg, s.h, DoAck(x));
      ToldShape(rules, s, w, DoAck(x));
      AckFacts(rules, s, s', w);
      JobStepCoupled(rules, s, s', w, x);
    }
  }

  lemma AckFacts(rules: Rules, s: Sys, s': Sys, w: nat)
    requires Coupled(rules, s) && PcOf(s, w).Finished? && PcOf(s, w).ok && s' == Acked(rules, s, w)
    ensures var x := PcOf(s, w).e.jobId; JobOk(rules, s', x) && LettersStay(rules, s, s', x)
  {
    var x := PcOf(s, w).e.jobId;
    assert WorkerOk(rules, s, w);
    AckKeeps(rules.cfg, s.h.m, x);
    assert JobOk(rules, s, x);
  }

  lemma RetryCoupled(rules: Rules, s: Sys, w: nat, error: string, now: real)
    requires Coupled(rules, s)
    ensures Coupled(rules, Retried(rules, s, w, error, now))
  {
    var pc, s' := PcOf(s, w), Retried(rules, s, w, error, now);
    if pc.Finished? && !pc.ok {
      assert WorkerOk(rules, s, w);
      assert Issuable(rules.cfg, pc.e, s.h.origin);
      RetryOnly(rules, s, pc.e, error, now);
      StepKeeps(rules.cfg, s.h, DoRetry(pc.e, error, now));
      ToldShape(rules, s, w, DoRetry(pc.e, error, now));
      RetryFacts(rules, s, s', w, error, now);
      JobStepCoupled(rules, s, s', w, pc.e.jobId);
    }
  }

  lemma RetryOnly(rules: Rules, s: Sys, e: Envelope, error: string, now: real)
    requires Coupled(rules, s) && 1 <= e.attempt <= rules.cfg.maxAttempts
    ensures OthersKept(s.h.m, Apply(rules.cfg, s.h.m, DoRetry(e, error, now)), e.jobId)
  {
    RetryKeeps(rules.cfg, s.h.m, e, error, now);
  }

  /** Where a retry by the holder leaves its job. */
  lemma RetryPlace(rules: Rules, s: Sys, e: Envelope, error: string, now: real)
    requires Coupled(rules, s) && e in s.h.issued && PlaceOf(s.h.m, e.jobId) == Inflight
    ensures var m' := Apply(rules.cfg, s.h.m, DoRetry(e, error, now));
      PlaceOf(m', e.jobId) == if e.attempt >= rules.cfg.maxAttempts then Dead else Scheduled
  {
    assert Issuable(rules.cfg, e, s.h.origin);
    RetryKeeps(rules.cfg, s.h.m, e, error, now);
  }

  lemma RetryFacts(rules: Rules, s: Sys, s': Sys, w: nat, error: string, now: real)
    requires Coupled(rules, s) && PcOf(s, w).Finished? && !PcOf(s, w).ok && s' == Retried(rules, s, w, error, now)
    ensures var x := PcOf(s, w).e.jobId; JobOk(rules, s', x) && LettersStay(rules, s, s', x)
  {
    var e := PcOf(s, w).e;
    assert WorkerOk(rules, s, w);
    RetryPlace(rules, s, e, error, now);
    assert JobOk(rules, s, e.jobId);
  }

  lemma CrashCoupled(rules: Rules, s: Sys, w: nat)
    requires Coupled(rules, s)
    ensures Coupled(rules, Crashed(rules, s, w))
  {
    var pc, s' := PcOf(s, w), Crashed(rules, s, w);
    assert WorkerOk(rules, s, w);
    if pc.Claimed? || pc.Working? || pc.Finished? {
      CrashFacts(rules, s, s', w);
      JobStepCoupled(rules, s, s', w, pc.e.jobId);
    } else {
      NotesChanged(rules, s, s', w);
    }
  }

  /** The job stays in flight without a holder. It is still active, or will not be delivered again, or it is
      an orphan now. */
  lemma CrashFacts(rules: Rules, s: Sys, s': Sys, w: nat)
    requires Coupled(rules, s) && Holds(PcOf(s, w)) && s' == Crashed(rules, s, w)
    ensures var x := PcOf(s, w).e.jobId; JobStep(s, s', w, x) && JobOk(rules, s', x) && LettersStay(rules, s, s', x)
  {
    var x := PcOf(s, w).e.jobId;
    assert WorkerOk(rules, s, w);
    OneHolder(rules, s, w, x);
    assert JobOk(rules, s, x);
  }

  /** Only the worker's own notes changed. */
  lemma NotesChanged(rules: Rules, s: Sys, s': Sys, w: nat)
    requires Coupled(rules, s)
    requires s' == s.(workers := s.workers[w := PcOf(s', w)])
    requires forall id :: !HoldsJob(PcOf(s, w), id)
    requires WorkerOk(rules, s', w)
    ensures Coupled(rules, s')
  {
    forall id ensures JobOk(rules, s', id) { assert JobOk(rules, s, id); }
    forall v ensures WorkerOk(rules, s', v) { assert WorkerOk(rules, s, v); }
    forall k ensures SubOk(s', k) { assert SubOk(s, k); }
    forall r ensures ReviewOk(s', r) { assert ReviewOk(s, r); }
  }

  lemma {:induction false} LettersGenuine(rules: Rules, s: Sys, ids: seq<Id>)
    requires Coupled(rules, s) && forall id <- ids :: id in s.h.m.dead
    ensures forall e <- LettersOf(s.h.m.envelopes, ids) :: LetterOk(rules, s, e)
  {
    if ids != [] {
      LettersGenuine(rules, s, ids[1..]);
      var id := ids[0];
      assert InvAt(rules.cfg, s.h.m, id) && JobOk(rules, s, id);
      Listed(rules.cfg, s.h.m, id);
    }
  }

  lemma ListCoupled(rules: Rules, s: Sys, w: nat)
    requires Coupled(rules, s)
    ensures Coupled(rules, LettersListed(s, w))
  {
    if PcOf(s, w).Free? {
      LettersGenuine(rules, s, s.h.m.dead);
      NotesChanged(rules, s, LettersListed(s, w), w);
    }
  }

  lemma ReadCoupled(rules: Rules, s: Sys, w: nat)
    requires Coupled(rules, s)
    ensures Coupled(rules, LetterRead(s, w))
  {
    var pc, s' := PcOf(s, w), LetterRead(s, w);
    assert WorkerOk(rules, s, w);
    if pc.Reconciling? {
      if pc.todo != [] {
        assert LetterOk(rules, s, pc.todo[0]);
        assert PcOf(s', w).todo == pc.todo;
        forall e <- pc.todo ensures LetterOk(rules, s', e) { assert LetterOk(rules, s, e); }
      }
      NotesChanged(rules, s, s', w);
    }
  }

  /** The reconciler marks a job as failed that died with its workers, perhaps once more. */
  lemma GiveUpCoupled(rules: Rules, s: Sys, w: nat)
    requires Coupled(rules, s)
    ensures Coupled(rules, GivenUp(s, w))
  {
    var pc, s' := PcOf(s, w), GivenUp(s, w);
    assert WorkerOk(rules, s, w);
    if pc.Closing? {
      var x := pc.todo[0].jobId;
      assert LetterOk(rules, s, pc.todo[0]);
      NotHeld(rules, s, x);
      assert JobOk(rules, s, x);
      assert PcOf(s', w) == Removing(pc.todo);
      forall e <- pc.todo ensures LetterOk(rules, s', e) { assert LetterOk(rules, s, e); }
      WorkersKept(rules, s, s', x, w);
      assert JobOk(rules, s', x);
      JobsKept(rules, s, s', x, w);
      ReviewsKept(s, s', x);
      forall k ensures SubOk(s', k) { assert SubOk(s, k); }
    }
  }

  lemma RemoveLetterCoupled(rules: Rules, s: Sys, w: nat)
    requires Coupled(rules, s)
    ensures Coupled(rules, LetterRemoved(rules, s, w))
  {
    var pc, s' := PcOf(s, w), LetterRemoved(rules, s, w);
    assert WorkerOk(rules, s, w);
    if pc.Removing? {
      var x := pc.todo[0].jobId;
      StepKeeps(rules.cfg, s.h, DoRemoveDead(x));
      RemoveLetterFacts(rules, s, s', w);
      JobStepCoupled(rules, s, s', w, x);
    }
  }

  lemma RemoveLetterFacts(rules: Rules, s: Sys, s': Sys, w: nat)
    requires Coupled(rules, s) && PcOf(s, w).Removing? && s' == LetterRemoved(rules, s, w)
    ensures PcOf(s, w).todo != []
    ensures var x := PcOf(s, w).todo[0].jobId;
      JobStep(s, s', w, x) && JobOk(rules, s', x) && WorkerOk(rules, s', w) && LettersStay(rules, s, s', x)
  {
    assert WorkerOk(rules, s, w);
    var todo := PcOf(s, w).todo;
    var x := todo[0].jobId;
    RemoveDeadKeeps(rules.cfg, s.h.m, x);
    NotHeld(rules, s, x);
    assert JobOk(rules, s, x);
    LettersAfterRemoval(rules, s, s', x, todo);
  }

  lemma LettersAfterRemoval(rules: Rules, s: Sys, s': Sys, x: Id, todo: seq<Envelope>)
    requires todo != [] && forall e <- todo :: LetterOk(rules, s, e)
    requires OthersKept(s.h.m, s'.h.m, x) && s'.h.origin == s.h.origin && s'.jobs == s.jobs
    requires PlaceOf(s'.h.m, x) == Gone || PlaceOf(s'.h.m, x) == Dead
    ensures forall e <- todo[1..] :: LetterOk(rules, s', e)
  {
    forall e <- todo[1..] ensures LetterOk(rules, s', e) {
      assert LetterOk(rules, s, e);
      assert e.jobId != x ==> KeptAt(s.h.m, s'.h.m, e.jobId);
    }
  }

  /** Open reviews come and go. */
  lemma ReviewsChanged(rules: Rules, s: Sys, s': Sys)
    requires Coupled(rules, s) && s' == s.(reviews := s'.reviews) && (forall r :: ReviewOk(s', r))
    ensures Coupled(rules, s')
  {
    forall id ensures JobOk(rules, s', id) { assert JobOk(rules, s, id); }
    forall w ensures WorkerOk(rules, s', w) { UntouchedWorker(rules, s, s', w); }
    forall k ensures SubOk(s', k) { assert SubOk(s, k); }
  }

  lemma UntouchedWorker(rules: Rules, s: Sys, s': Sys, w: nat)
    requires WorkerOk(rules, s, w) && s' == s.(reviews := s'.reviews)
    ensures WorkerOk(rules, s', w)
  {
    var pc := PcOf(s, w);
    if pc.Reconciling? || pc.Closing? || pc.Removing? {
      forall e <- pc.todo ensures LetterOk(rules, s', e) { assert LetterOk(rules, s, e); }
    }
  }

  lemma LookCoupled(rules: Rules, s: Sys, r: nat, who: Principal, id: Id, approve: bool)
    requires Coupled(rules, s)
    ensures Coupled(rules, ReviewOpened(s, r, who, id, approve))
  {
    var s' := ReviewOpened(s, r, who, id, approve);
    if s' != s {
      assert JobOk(rules, s, id);
      forall v ensures ReviewOk(s', v) { assert ReviewOk(s, v); }
      ReviewsChanged(rules, s, s');
    }
  }

  lemma LookShape(s: Sys, r: nat, who: Principal, id: Id, approve: bool)
    ensures var s' := ReviewOpened(s, r, who, id, approve); s' == s.(reviews := s'.reviews)
  {
  }

  lemma FetchShape(s: Sys, r: nat)
    ensures var s' := ReportFetched(s, r); s' == s.(reviews := s'.reviews)
  {
  }

  lemma FetchCoupled(rules: Rules, s: Sys, r: nat)
    requires Coupled(rules, s)
    ensures Coupled(rules, ReportFetched(s, r))
  {
    var s' := ReportFetched(s, r);
    if s' != s {
      forall v ensures ReviewOk(s', v) { assert ReviewOk(s, v); }
      ReviewsChanged(rules, s, s');
    }
  }

  /** A decision falls on a record with the reviewers, unless the job lost its worker. */
  lemma DecideCoupled(rules: Rules, s: Sys, r: nat)
    requires Coupled(rules, s)
    ensures Coupled(rules, DecisionWritten(s, r))
  {
    var s' := DecisionWritten(s, r);
    if r in s.reviews && s.reviews[r].Decided? {
      assert ReviewOk(s, r);
      forall id ensures JobOk(rules, s', id) { assert JobOk(rules, s, id); }
      forall w ensures WorkerOk(rules, s', w) { DecidedWorker(rules, s, r, w); }
      forall k ensures SubOk(s', k) { assert SubOk(s, k); }
      forall v ensures ReviewOk(s', v) { assert ReviewOk(s, v); }
    }
  }

  lemma DecidedWorker(rules: Rules, s: Sys, r: nat, w: nat)
    requires WorkerOk(rules, s, w) && ReviewOk(s, r) && r in s.reviews && s.reviews[r].Decided?
    ensures WorkerOk(rules, DecisionWritten(s, r), w)
  {
    var pc := PcOf(s, w);
    if pc.Reconciling? || pc.Closing? || pc.Removing? {
      forall e <- pc.todo ensures LetterOk(rules, DecisionWritten(s, r), e) { assert LetterOk(rules, s, e); }
    }
  }
}
