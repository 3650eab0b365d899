/** What the handlers do to the stores; a submission also with a rival for its job in its gaps. */
module HandlerSpec {
  import opened Basics
  import opened Envelopes
  import opened QueueSpec
  import opened QueueRuns
  import opened Protocol
  import opened ProtocolRuns
  import opened ReportGating

  /** The queue and the stores that handlers and workers share. */
  datatype Office = Office(m: Mem, jobs: map<Id, JobRecord>, results: map<Id, Option<Json>>, slots: map<Tenant, nat>)

  function NewRecord(id: Id, p: Payload): JobRecord {
    JobRecord(id, p.tenant, Pending, 0, None, None)
  }

  /** The end of a submission that holds a slot and has made its record. */
  function HandedOver(rules: Rules, o: Office, id: Id, p: Payload, now: real): (Office, Protocol.Outcome) {
    var (m, reply) := QueueSpec.Enqueue(rules.cfg, o.m, id, p, now);
    if reply.Accepted? then (o.(m := m), Enqueued)
    else (o.(m := m, jobs := o.jobs - {id}, slots := Release(o.slots, p.tenant)), QueueRejected)
  }

  /** The end of a submission that holds a slot and finds the record of its rival, whose hand-over falls
      between its release and its second look. */
  function RaceLost(rules: Rules, o: Office, id: Id, rival: Payload, now: real): (Office, Protocol.Outcome) {
    var o' := HandedOver(rules, o.(slots := Release(o.slots, rival.tenant)), id, rival, now).0;
    if id in o'.jobs then (o', Existing) else (o'.(slots := Release(o'.slots, rival.tenant)), Unavailable)
  }

  /** A submission with a slot, which found no record. */
  function Contended(rules: Rules, o: Office, id: Id, p: Payload, now: real, rival: Option<Payload>):
    (Office, Protocol.Outcome)
  {
    var (slots, lost) := if rival.Some? then Acquire(o.slots, rules.limit, rival.value.tenant) else (o.slots, false);
    var made := o.(jobs := o.jobs[id := NewRecord(id, p)], slots := slots);
    if lost then RaceLost(rules, made, id, rival.value, now) else HandedOver(rules, made, id, p, now)
  }

  /** One submission. A `rival` for the same job has found no record either; it takes a slot and makes its
      record before this submission does, and hands its job over before this one looks for the record again. */
  function Posted(rules: Rules, o: Office, id: Id, p: Payload, now: real, rival: Option<Payload>):
    (Office, Protocol.Outcome)
  {
    if id in o.jobs then (o, Existing) else
      var (slots, got) := Acquire(o.slots, rules.limit, p.tenant);
      if !got then (o, LimitReached) else
        Contended(rules, o.(slots := slots), id, p, now, rival)
  }

  /** Authenticated principals and generated job ids are never empty, and a shared job id means a shared tenant. */
  predicate CanPost(id: Id, p: Payload, rival: Option<Payload>) {
    && !QueueSpec.Refused(id, p)
    && (rival.Some? ==> rival.value.tenant == p.tenant && !QueueSpec.Refused(id, rival.value))
  }

  /** Every tenant's count is the number of its active jobs, and within the limit. */
  ghost predicate Balanced(limit: nat, jobs: map<Id, JobRecord>, slots: map<Tenant, nat>) {
    forall t :: SlotOf(slots, t) == |ActiveOf(jobs, t)| <= limit
  }

  /** The state between whole calls: exact counts, and reports shown for approved jobs only. */
  ghost predicate InOrder(rules: Rules, o: Office) {
    Balanced(rules.limit, o.jobs, o.slots) && forall id :: ShownOk(o.jobs, o.results, id)
  }

  /** The rival of a submission that gets its slot in time loses its job to a leftover marker. */
  predicate WinnerRefused(rules: Rules, o: Office, id: Id, p: Payload, now: real, rival: Option<Payload>) {
    && rival.Some? && id !in o.jobs && SlotOf(o.slots, p.tenant) + 2 <= rules.limit
    && KnownUntil(o.m, id) > now
  }

  lemma OneAdded(jobs: map<Id, JobRecord>, id: Id, p: Payload, t: Tenant)
    requires id !in jobs
    ensures |ActiveOf(jobs[id := NewRecord(id, p)], t)| == |ActiveOf(jobs, t)| + if t == p.tenant then 1 else 0
    ensures jobs[id := NewRecord(id, p)] - {id} == jobs
  {
    JobWritten(jobs, id, NewRecord(id, p), t);
  }

  /** What a submission leaves behind, if `released` slots were given back in vain. */
  ghost predicate Leaves(o: Office, o': Office, id: Id, p: Payload, released: nat) {
    && o'.results == o.results
    && (if id in o'.jobs then o'.jobs == o.jobs[id := NewRecord(id, p)] && o'.m.ready == o.m.ready + [id]
        else o'.jobs == o.jobs && o'.m == o.m)
    && SlotOf(o'.slots, p.tenant) == SlotOf(o.slots, p.tenant) + (if id in o'.jobs then 1 else 0) - released
    && (forall t :: t != p.tenant ==> SlotOf(o'.slots, t) == SlotOf(o.slots, t))
  }

  lemma HandedOverLeaves(rules: Rules, o: Office, made: Office, id: Id, p: Payload, q: Payload, now: real)
    requires !QueueSpec.Refused(id, q) && q.tenant == p.tenant && id !in o.jobs
    requires made.m == o.m && made.results == o.results && made.jobs == o.jobs[id := NewRecord(id, p)]
    requires SlotOf(made.slots, p.tenant) == SlotOf(o.slots, p.tenant) + 1
    requires forall t :: t != p.tenant ==> SlotOf(made.slots, t) == SlotOf(o.slots, t)
    ensures var (o', outcome) := HandedOver(rules, made, id, q, now);
      Leaves(o, o', id, p, 0) && (outcome == Enqueued <==> id in o'.jobs) && (id in o'.jobs <==> KnownUntil(o.m, id) <= now)
  {
    OneAdded(o.jobs, id, p, p.tenant);
  }

  lemma RaceLostLeaves(rules: Rules, o: Office, made: Office, id: Id, p: Payload, q: Payload, now: real)
    requires !QueueSpec.Refused(id, q) && q.tenant == p.tenant && id !in o.jobs
    requires made.m == o.m && made.results == o.results && made.jobs == o.jobs[id := NewRecord(id, p)]
    requires SlotOf(made.slots, p.tenant) == SlotOf(o.slots, p.tenant) + 2
    requires forall t :: t != p.tenant ==> SlotOf(made.slots, t) == SlotOf(o.slots, t)
    ensures var (o', outcome) := RaceLost(rules, made, id, q, now);
      && Leaves(o, o', id, p, if outcome == Unavailable && SlotOf(o.slots, p.tenant) > 0 then 1 else 0)
      && (outcome == Existing <==> id in o'.jobs) && (outcome == Unavailable <==> KnownUntil(o.m, id) > now)
  {
    HandedOverLeaves(rules, o, made.(slots := Release(made.slots, q.tenant)), id, p, q, now);
  }

  /** A submission leaves a record exactly if it leaves a queued job, and gives back a slot too many exactly
      if its rival is refused. */
  lemma PostedLeaves(rules: Rules, o: Office, id: Id, p: Payload, now: real, rival: Option<Payload>)
    requires CanPost(id, p, rival) && id !in o.jobs
    ensures var (o', outcome) := Posted(rules, o, id, p, now, rival);
      && Leaves(o, o', id, p, if outcome == Unavailable && SlotOf(o.slots, p.tenant) > 0 then 1 else 0)
      && (outcome == Enqueued || outcome == Existing <==> id in o'.jobs)
      && (outcome == Unavailable <==> WinnerRefused(rules, o, id, p, now, rival))
  {
    var (slots, got) := Acquire(o.slots, rules.limit, p.tenant);
    if got {
      var (slots2, lost) := if rival.Some? then Acquire(slots, rules.limit, rival.value.tenant) else (slots, false);
      var made := o.(jobs := o.jobs[id := NewRecord(id, p)], slots := slots2);
      if lost { RaceLostLeaves(rules, o, made, id, p, rival.value, now); }
      else { HandedOverLeaves(rules, o, made, id, p, p, now); }
    }
  }

  /** A submission leaves the stores in order if and only if it does not lose the race to one whose job the
      queue then refuses, or its tenant has no slot taken anyway. */
  lemma PostedExactly(rules: Rules, o: Office, id: Id, p: Payload, now: real, rival: Option<Payload>)
    requires InOrder(rules, o) && CanPost(id, p, rival)
    ensures var (o', outcome) := Posted(rules, o, id, p, now, rival);
      InOrder(rules, o') <==>
        !WinnerRefused(rules, o, id, p, now, rival) || SlotOf(o.slots, p.tenant) == 0
  {
    var (o', outcome) := Posted(rules, o, id, p, now, rival);
    if id !in o.jobs {
      PostedLeaves(rules, o, id, p, now, rival);
      forall x ensures ShownOk(o'.jobs, o'.results, x) { assert ShownOk(o.jobs, o.results, x); }
      forall t ensures |ActiveOf(o'.jobs, t)| == |ActiveOf(o.jobs, t)| + if id in o'.jobs && t == p.tenant then 1 else 0 {
        OneAdded(o.jobs, id, p, t);
      }
      PostedLimit(rules, o, id, p, now, rival);
      if outcome == Unavailable && SlotOf(o.slots, p.tenant) > 0 {
        assert SlotOf(o'.slots, p.tenant) != |ActiveOf(o'.jobs, p.tenant)|;
      }
    }
  }

  lemma PostedLimit(rules: Rules, o: Office, id: Id, p: Payload, now: real, rival: Option<Payload>)
    requires SlotOf(o.slots, p.tenant) <= rules.limit && CanPost(id, p, rival)
    ensures SlotOf(Posted(rules, o, id, p, now, rival).0.slots, p.tenant) <= rules.limit
  {
  }

  /** The replies to a submission, and all that it leaves behind but the slots: they depend on whether there is a
      record already, on the slots of the tenant, on the rival, and on the idempotency marker. */
  lemma PostedReplies(rules: Rules, o: Office, id: Id, p: Payload, now: real, rival: Option<Payload>)
    requires CanPost(id, p, rival)
    ensures var (o', outcome) := Posted(rules, o, id, p, now, rival);
      var held, marked := SlotOf(o.slots, p.tenant), (if id in o.m.known then o.m.known[id] else 0.0) > now;
      var raced := rival.Some? && held + 2 <= rules.limit;
      && outcome == (if id in o.jobs then Existing
                     else if held >= rules.limit then LimitReached
                     else if raced then (if marked then Unavailable else Existing)
                     else if marked then QueueRejected else Enqueued)
      && (if id !in o.jobs && held < rules.limit && !marked then
            && o'.jobs == o.jobs[id := JobRecord(id, p.tenant, Pending, 0, None, None)]
            && o'.m.ready == o.m.ready + [id] && id in o'.m.known && o'.m.known[id] == now + rules.cfg.ttl
            && o'.m.envelopes == o.m.envelopes[id := Envelope(id, if raced then rival.value else p, 0, None, None)]
          else o'.jobs == o.jobs && o'.m == o.m)
  {
    if id !in o.jobs { PostedLeaves(rules, o, id, p, now, rival); }
  }

  datatype Review = NotFound | NotAwaiting | NoReport | Reviewed(job: JobRecord)

  predicate Visible(jobs: map<Id, JobRecord>, who: Principal, id: Id) {
    id in jobs && jobs[id].tenant == who.tenant
  }

  function Approval(jobs: map<Id, JobRecord>, results: map<Id, Option<Json>>, who: Principal, id: Id): Review {
    if !Visible(jobs, who, id) then NotFound
    else if !jobs[id].status.AwaitingApproval? then NotAwaiting
    else if id !in results || results[id].None? then NoReport
    else Reviewed(jobs[id].(status := Approved, report := results[id], approvedBy := Some(who)))
  }

  function Rejection(jobs: map<Id, JobRecord>, who: Principal, id: Id): Review {
    if !Visible(jobs, who, id) then NotFound
    else if !jobs[id].status.AwaitingApproval? then NotAwaiting
    else Reviewed(jobs[id].(status := Rejected, approvedBy := Some(who)))
  }

  /** An approval succeeds if and only if the job exists, belongs to the reviewer's tenant, awaits approval and
      has a stored report; otherwise the first of these that fails decides the refusal. */
  lemma ApprovedExactly(jobs: map<Id, JobRecord>, results: map<Id, Option<Json>>, who: Principal, id: Id)
    ensures var r := Approval(jobs, results, who, id);
      && (r.NotFound? <==> id !in jobs || jobs[id].tenant != who.tenant)
      && (r.NotAwaiting? <==> id in jobs && jobs[id].tenant == who.tenant && jobs[id].status != AwaitingApproval)
      && (r.NoReport? <==> id in jobs && jobs[id].tenant == who.tenant && jobs[id].status == AwaitingApproval
                           && !(id in results && results[id].Some?))
      && (r.Reviewed? <==> id in jobs && jobs[id].tenant == who.tenant && jobs[id].status == AwaitingApproval
                           && id in results && results[id].Some?)
      && (r.Reviewed? ==>
            r.job == JobRecord(jobs[id].jobId, who.tenant, Approved, jobs[id].attempt, results[id], Some(who)))
  {
  }

  /** A rejection succeeds if and only if the job exists, belongs to the reviewer's tenant and awaits approval. */
  lemma RejectedExactly(jobs: map<Id, JobRecord>, who: Principal, id: Id)
    ensures var r := Rejection(jobs, who, id);
      && (r.NotFound? <==> id !in jobs || jobs[id].tenant != who.tenant)
      && (r.NotAwaiting? <==> id in jobs && jobs[id].tenant == who.tenant && jobs[id].status != AwaitingApproval)
      && (r.Reviewed? <==> id in jobs && jobs[id].tenant == who.tenant && jobs[id].status == AwaitingApproval)
      && (r.Reviewed? ==> r.job == JobRecord(jobs[id].jobId, who.tenant, Rejected, jobs[id].attempt,
                                             jobs[id].report, Some(who)))
  {
  }

  function AfterReview(o: Office, id: Id, r: Review): Office {
    if r.Reviewed? then o.(jobs := o.jobs[id := r.job]) else o
  }

  /** A review shows a report only with its approval, and costs no slot. */
  lemma ReviewInOrder(rules: Rules, o: Office, who: Principal, id: Id, r: Review)
    requires InOrder(rules, o)
    requires r == Approval(o.jobs, o.results, who, id) || r == Rejection(o.jobs, who, id)
    ensures InOrder(rules, AfterReview(o, id, r))
  {
    var o' := AfterReview(o, id, r);
    forall x ensures ShownOk(o'.jobs, o'.results, x) { assert ShownOk(o.jobs, o.results, x); }
    forall t ensures SlotOf(o'.slots, t) == |ActiveOf(o'.jobs, t)| <= rules.limit {
      assert SlotOf(o.slots, t) == |ActiveOf(o.jobs, t)|;
      if r.Reviewed? { JobWritten(o.jobs, id, r.job, t); }
    }
  }
}

/** The handlers over the real stores. */
module ApiHandlers {
  import opened Basics
  import opened Envelopes
  import opened QueueSpec
  import opened QueueMemory
  import opened AuditChain
  import opened Protocol
  import opened Stores
  import opened HandlerSpec

  class Api {
    const rules: Rules
    const jobs: JobStore<JobRecord>
    const results: JobStore<Option<Json>>
    const governance: GovernanceStore
    /** The text of an audit event. */
    const render: (string, Id) -> string

    ghost predicate Valid()
      reads governance
    {
      && governance.Valid() && governance.limit == rules.limit
      && (jobs as object) != (results as object)
      && forall kind, id :: IsBody(render(kind, id))
    }

    function OfficeWith(queue: JobQueue): Office
      reads queue, jobs, results, governance
    {
      Office(queue.Value(), jobs.memory, results.memory, governance.slots)
    }

    constructor (rules: Rules, jobs: JobStore<JobRecord>, results: JobStore<Option<Json>>,
                 governance: GovernanceStore, render: (string, Id) -> string)
      requires governance.Valid() && governance.limit == rules.limit && (jobs as object) != (results as object)
      requires forall kind, id :: IsBody(render(kind, id))
      ensures Valid() && this.rules == rules && this.jobs == jobs && this.results == results
      ensures this.governance == governance && this.render == render
    {
      this.rules, this.jobs, this.results, this.governance, this.render := rules, jobs, results, governance, render;
    }

    method HandOver(queue: JobQueue, id: Id, p: Payload, now: real) returns (outcome: Protocol.Outcome)
      requires Valid() && queue.Valid() && queue.cfg == rules.cfg && !QueueSpec.Refused(id, p)
      modifies queue, jobs, governance
      ensures Valid()
      ensures (OfficeWith(queue), outcome) == HandedOver(rules, old(OfficeWith(queue)), id, p, now)
      ensures id !in old(queue.origin) ==> queue.Valid()
      ensures old(governance.events) <= governance.events
      ensures Bodies(governance.events)
              == old(Bodies(governance.events)) + if outcome == Enqueued then [render("job_submitted", id)] else []
    {
      var reply := queue.Enqueue(id, p, now);
      if !reply.Accepted? {
        jobs.Delete(id);
        governance.ReleaseJobSlot(p.tenant);
        return QueueRejected;
      }
      var _ := governance.AppendAudit(render("job_submitted", id));
      return Enqueued;
    }

    /** A submission that finds its rival's record; the rival's hand-over is inlined where it happens. */
    method LoseRace(queue: JobQueue, id: Id, rival: Payload, now: real) returns (outcome: Protocol.Outcome)
      requires Valid() && queue.Valid() && queue.cfg == rules.cfg && !QueueSpec.Refused(id, rival)
      modifies queue, jobs, governance
      ensures Valid()
      ensures (OfficeWith(queue), outcome) == RaceLost(rules, old(OfficeWith(queue)), id, rival, now)
      ensures id !in old(queue.origin) ==> queue.Valid()
      ensures old(governance.events) <= governance.events
      ensures Bodies(governance.events)
              == old(Bodies(governance.events))
                 + if KnownUntil(old(queue.Value()), id) <= now then [render("job_submitted", id)] else []
    {
      governance.ReleaseJobSlot(rival.tenant);
      var _ := HandOver(queue, id, rival, now);
      var raced := jobs.Get(id);
      if raced.None? {
        governance.ReleaseJobSlot(rival.tenant);
        return Unavailable;
      }
      return Existing;
    }

    /** From the slot on. The rival takes its own slot and makes its record first. */
    method Contend(queue: JobQueue, id: Id, p: Payload, now: real, rival: Option<Payload>)
      returns (outcome: Protocol.Outcome)
      requires Valid() && queue.Valid() && queue.cfg == rules.cfg && CanPost(id, p, rival) && id !in jobs.memory
      modifies queue, jobs, governance
      ensures Valid()
      ensures (OfficeWith(queue), outcome) == Contended(rules, old(OfficeWith(queue)), id, p, now, rival)
      ensures id !in old(queue.origin) ==> queue.Valid()
      ensures old(governance.events) <= governance.events
      ensures Bodies(governance.events)
              == old(Bodies(governance.events)) + if id in jobs.memory then [render("job_submitted", id)] else []
    {
      if rival.Some? {
        var theirs := governance.AcquireJobSlot(rival.value.tenant);
        if theirs {
          var _ := jobs.SetIfAbsent(id, NewRecord(id, rival.value));
        }
      }
      var created := jobs.SetIfAbsent(id, NewRecord(id, p));
      if !created {
        outcome := LoseRace(queue, id, rival.value, now);
        return;
      }
      outcome := HandOver(queue, id, p, now);
    }

    /** Stores in order stay in order, with one exception. */
    method SubmitResearch(queue: JobQueue, id: Id, p: Payload, now: real, rival: Option<Payload>)
      returns (outcome: Protocol.Outcome)
      requires Valid() && queue.Valid() && queue.cfg == rules.cfg && CanPost(id, p, rival)
      modifies queue, jobs, governance
      ensures Valid()
      ensures (OfficeWith(queue), outcome) == Posted(rules, old(OfficeWith(queue)), id, p, now, rival)
      ensures id !in old(queue.origin) ==> queue.Valid()
      ensures old(governance.events) <= governance.events
      ensures Bodies(governance.events) == old(Bodies(governance.events))
              + if id !in old(jobs.memory) && id in jobs.memory then [render("job_submitted", id)] else []
      ensures old(InOrder(rules, OfficeWith(queue))) ==>
                (InOrder(rules, OfficeWith(queue)) <==>
                   !WinnerRefused(rules, old(OfficeWith(queue)), id, p, now, rival)
                   || SlotOf(old(governance.slots), p.tenant) == 0)
    {
      ghost var before := OfficeWith(queue);
      if InOrder(rules, before) { PostedExactly(rules, before, id, p, now, rival); }
      var existing := jobs.Get(id);
      if existing.Some? {
        return Existing;
      }
      var got := governance.AcquireJobSlot(p.tenant);
      if !got {
        return LimitReached;
      }
      outcome := Contend(queue, id, p, now, rival);
    }

    method ApproveResearch(queue: JobQueue, who: Principal, id: Id) returns (reply: Review)
      requires Valid()
      modifies jobs, governance
      ensures Valid() && reply == Approval(old(jobs.memory), results.memory, who, id)
      ensures OfficeWith(queue) == AfterReview(old(OfficeWith(queue)), id, reply)
      ensures old(InOrder(rules, OfficeWith(queue))) ==> InOrder(rules, OfficeWith(queue))
      ensures old(governance.events) <= governance.events
      ensures Bodies(governance.events)
              == old(Bodies(governance.events)) + if reply.Reviewed? then [render("report_approved", id)] else []
    {
      ghost var before := OfficeWith(queue);
      if InOrder(rules, before) {
        ReviewInOrder(rules, before, who, id, Approval(before.jobs, before.results, who, id));
      }
      var job := jobs.Get(id);
      if job.None? || job.value.tenant != who.tenant {
        return NotFound;
      }
      if !job.value.status.AwaitingApproval? {
        return NotAwaiting;
      }
      var result := results.Get(id);
      if result.None? || result.value.None? {
        return NoReport;
      }
      var approved := job.value.(status := Approved, report := result.value, approvedBy := Some(who));
      jobs.Set(id, approved);
      var _ := governance.AppendAudit(render("report_approved", id));
      return Reviewed(approved);
    }

    method RejectResearch(queue: JobQueue, who: Principal, id: Id) returns (reply: Review)
      requires Valid()
      modifies jobs, governance
      ensures Valid() && reply == Rejection(old(jobs.memory), who, id)
      ensures OfficeWith(queue) == AfterReview(old(OfficeWith(queue)), id, reply)
      ensures old(InOrder(rules, OfficeWith(queue))) ==> InOrder(rules, OfficeWith(queue))
      ensures old(governance.events) <= governance.events
      ensures Bodies(governance.events)
              == old(Bodies(governance.events)) + if reply.Reviewed? then [render("report_rejected", id)] else []
    {
      ghost var before := OfficeWith(queue);
      if InOrder(rules, before) {
        ReviewInOrder(rules, before, who, id, Rejection(before.jobs, who, id));
      }
      var job := jobs.Get(id);
      if job.None? || job.value.tenant != who.tenant {
        return NotFound;
      }
      if !job.value.status.AwaitingApproval? {
        return NotAwaiting;
      }
      var rejected := job.value.(status := Rejected, approvedBy := Some(who));
      jobs.Set(id, rejected);
      var _ := governance.AppendAudit(render("report_rejected", id));
      return Reviewed(rejected);
    }
  }
}
