/** The worker process: one claimed job from delivery to acknowledgement, and a maintenance pass, with
    nothing interleaved. */
module WorkerProcess {
  import opened Basics
  import opened Envelopes
  import opened QueueSpec
  import opened QueueInvariant
  import opened QueueMemory
  import opened AuditChain
  import opened Protocol
  import opened Stores
  import opened Reconciliation

  /** How the research run of one delivery ended; an error state and an exception count alike. */
  datatype Run = Reported(report: Option<Json>) | Broken

  /** What the processor reads and writes besides the queue. */
  datatype Shelves = Shelves(jobs: map<Id, JobRecord>, results: map<Id, Option<Json>>, slots: map<Tenant, nat>)

  /** One call of the processor: the stores after it, and whether it raises. */
  function Called(rules: Rules, v: Shelves, e: Envelope, run: Run): (Shelves, bool) {
    if e.jobId !in v.jobs then (v, true) else
      var job := v.jobs[e.jobId].(status := IsRunning, attempt := e.attempt);
      match run
      case Broken =>
        var terminal := e.attempt >= rules.cfg.maxAttempts;
        (v.(jobs := v.jobs[e.jobId := job.(status := if terminal then Failed else Retrying)],
            slots := if terminal then Release(v.slots, e.payload.tenant) else v.slots), true)
      case Reported(report) =>
        (Shelves(
           v.jobs[e.jobId := job.(status := if rules.approval then AwaitingApproval else Completed,
                                  report := if rules.approval then None else report)],
           v.results[e.jobId := report],
           Release(v.slots, e.payload.tenant)), false)
  }

  /** What a call leaves behind, by the end of its run: the whole record, the stored result and the slots. */
  lemma CalledMeans(rules: Rules, v: Shelves, e: Envelope, run: Run)
    requires e.jobId in v.jobs
    ensures var (v', raised) := Called(rules, v, e, run);
      var job, last := v.jobs[e.jobId], e.attempt >= rules.cfg.maxAttempts;
      && (raised <==> run.Broken?)
      && v'.jobs == v.jobs[e.jobId := JobRecord(
           job.jobId, job.tenant,
           if run.Reported? then (if rules.approval then AwaitingApproval else Completed)
           else if last then Failed else Retrying,
           e.attempt,
           if run.Broken? then job.report else if rules.approval then None else run.report,
           job.approvedBy)]
      && (run.Reported? ==> v'.results == v.results[e.jobId := run.report])
      && (run.Broken? ==> v'.results == v.results)
      && (forall t :: SlotOf(v'.slots, t) == SlotOf(v.slots, t)
           - if t == e.payload.tenant && (run.Reported? || last) && SlotOf(v.slots, t) > 0 then 1 else 0)
  {
  }

  function ShelvesOf(s: Sys): Shelves {
    Shelves(s.jobs, s.results, s.slots)
  }

  /** A call is the protocol's two processing steps, uninterrupted. */
  lemma CallIsTwoSteps(rules: Rules, s: Sys, w: nat, e: Envelope, run: Run)
    requires PcOf(s, w) == WorkerPc.Claimed(e)
    ensures var s1 := Begun(s, w);
      var s2 := if run.Broken? then FailedOnce(rules, s1, w) else Succeeded(rules, s1, w, run.report);
      var (v, raised) := Called(rules, ShelvesOf(s), e, run);
      ShelvesOf(s2) == v && PcOf(s2, w) == Finished(e, !raised) && s2.h == s.h
  {
    var s1 := Begun(s, w);
    if e.jobId in s.jobs {
      assert PcOf(s1, w).Working? && PcOf(s1, w).e == e;
      var job := PcOf(s1, w).job;
      assert s1.jobs == s.jobs[e.jobId := job];
    }
  }

  datatype Outcome = Idle | Acknowledged | Raised | LeaseLost

  class ResearchProcessor {
    const rules: Rules
    const jobs: JobStore<JobRecord>
    const results: JobStore<Option<Json>>
    const governance: GovernanceStore
    /** The text of an audit event. */
    const render: (string, Envelope) -> string

    ghost predicate Valid()
      reads governance
    {
      && governance.Valid()
      && (jobs as object) != (results as object)
      && forall kind, e :: IsBody(render(kind, e))
    }

    function Stored(): Shelves
      reads jobs, results, governance
    {
      Shelves(jobs.memory, results.memory, governance.slots)
    }

    constructor (rules: Rules, jobs: JobStore<JobRecord>, results: JobStore<Option<Json>>,
                 governance: GovernanceStore, render: (string, Envelope) -> string)
      requires governance.Valid() && (jobs as object) != (results as object)
      requires forall kind, e :: IsBody(render(kind, e))
      ensures Valid() && this.rules == rules && this.jobs == jobs && this.results == results
      ensures this.governance == governance && this.render == render
    {
      this.rules, this.jobs, this.results, this.governance, this.render := rules, jobs, results, governance, render;
    }

    method Audit(kind: string, e: Envelope)
      requires Valid()
      modifies governance`events, governance`lastHash
      ensures Valid()
      ensures old(governance.events) <= governance.events
      ensures Bodies(governance.events) == old(Bodies(governance.events)) + [render(kind, e)]
    {
      var _ := governance.AppendAudit(render(kind, e));
    }

    /** The run broke: the job is retried, or failed for good at the cap. */
    method RunBroke(e: Envelope, running: JobRecord)
      requires Valid()
      modifies jobs, governance
      ensures Valid()
      ensures var terminal := e.attempt >= rules.cfg.maxAttempts;
        && jobs.memory == old(jobs.memory)[e.jobId := running.(status := if terminal then Failed else Retrying)]
        && governance.slots == if terminal then Release(old(governance.slots), e.payload.tenant) else old(governance.slots)
      ensures old(governance.events) <= governance.events
      ensures Bodies(governance.events) == old(Bodies(governance.events)) + [render(if e.attempt >= rules.cfg.maxAttempts then "job_failed" else "job_retry_scheduled", e)]
    {
      var terminal := e.attempt >= rules.cfg.maxAttempts;
      var job := running.(status := if terminal then Failed else Retrying);
      if terminal {
        governance.ReleaseJobSlot(e.payload.tenant);
      }
      jobs.Set(e.jobId, job);
      Audit(if terminal then "job_failed" else "job_retry_scheduled", e);
    }

    /** The run ended: its report is stored, and shown only if no approval is required. */
    method RunEnded(e: Envelope, running: JobRecord, report: Option<Json>)
      requires Valid()
      modifies jobs, results, governance
      ensures Valid()
      ensures results.memory == old(results.memory)[e.jobId := report]
      ensures jobs.memory == old(jobs.memory)[e.jobId := running.(
        status := if rules.approval then AwaitingApproval else Completed,
        report := if rules.approval then None else report)]
      ensures governance.slots == Release(old(governance.slots), e.payload.tenant)
      ensures old(governance.events) <= governance.events
      ensures Bodies(governance.events) == old(Bodies(governance.events)) + [render(if rules.approval then "report_awaiting_approval" else "job_completed", e)]
    {
      results.Set(e.jobId, report);
      var job := running.(status := if rules.approval then AwaitingApproval else Completed,
                          report := if rules.approval then None else report);
      jobs.Set(e.jobId, job);
      governance.ReleaseJobSlot(e.payload.tenant);
      Audit(if rules.approval then "report_awaiting_approval" else "job_completed", e);
    }

    /** Every call but one on a missing record leaves two more sealed events. */
    method Call(e: Envelope, run: Run) returns (raised: bool)
      requires Valid()
      modifies jobs, results, governance
      ensures Valid()
      ensures (Stored(), raised) == Called(rules, old(Stored()), e, run)
      ensures old(governance.events) <= governance.events
      ensures Bodies(governance.events) == old(Bodies(governance.events)) +
        if e.jobId !in old(jobs.memory) then []
        else [render("job_claimed", e),
              render(match run
                     case Broken => if e.attempt >= rules.cfg.maxAttempts then "job_failed" else "job_retry_scheduled"
                     case Reported(_) => if rules.approval then "report_awaiting_approval" else "job_completed", e)]
    {
      var raw := jobs.Get(e.jobId);
      if raw.None? {
        return true;
      }
      var running := raw.value.(status := IsRunning, attempt := e.attempt);
      jobs.Set(e.jobId, running);
      Audit("job_claimed", e);
      match run
      case Broken =>
        RunBroke(e, running);
        assert jobs.memory == old(jobs.memory)[e.jobId := jobs.memory[e.jobId]];
        return true;
      case Reported(report) =>
        RunEnded(e, running, report);
        assert jobs.memory == old(jobs.memory)[e.jobId := jobs.memory[e.jobId]];
        return false;
    }

    function BooksWith(queue: JobQueue): Books
      reads queue, jobs, governance
    {
      Books(queue.Value(), jobs.memory, governance.slots)
    }

    /** A letter whose job was still active. */
    method GiveUp(queue: JobQueue, e: Envelope)
      requires Valid() && queue.Valid() && OwesSlot(jobs.memory, e)
      modifies queue, jobs, governance
      ensures Valid() && queue.Valid() && queue.issued == old(queue.issued) && queue.origin == old(queue.origin)
      ensures BooksWith(queue) == Settle(old(BooksWith(queue)), e)
      ensures old(governance.events) <= governance.events
      ensures Bodies(governance.events) == old(Bodies(governance.events)) + [render("job_dead_lettered", e)]
    {
      jobs.Set(e.jobId, jobs.memory[e.jobId].(status := Failed, attempt := e.attempt));
      governance.ReleaseJobSlot(e.payload.tenant);
      Audit("job_dead_lettered", e);
      var _ := queue.RemoveDeadLetter(e);
    }

    /** One letter: skipped without a record, removed with a settled one, otherwise its job is given up. */
    method SettleLetter(queue: JobQueue, e: Envelope)
      requires Valid() && queue.Valid()
      modifies queue, jobs, governance
      ensures Valid() && queue.Valid() && queue.issued == old(queue.issued) && queue.origin == old(queue.origin)
      ensures BooksWith(queue) == Settle(old(BooksWith(queue)), e)
      ensures old(governance.events) <= governance.events
      ensures Bodies(governance.events) == old(Bodies(governance.events))
              + if OwesSlot(old(jobs.memory), e) then [render("job_dead_lettered", e)] else []
    {
      var raw := jobs.Get(e.jobId);
      if raw.None? {
        return;
      }
      if !Active(raw.value.status) {
        var _ := queue.RemoveDeadLetter(e);
        return;
      }
      GiveUp(queue, e);
    }

    function Notices(letters: seq<Envelope>): seq<string> {
      if letters == [] then [] else [render("job_dead_lettered", letters[0])] + Notices(letters[1..])
    }

    /** The notices of one letter and of the rest. */
    lemma NoticesStep(said: seq<string>, b: Books, letters: seq<Envelope>)
      requires letters != []
      ensures (said + if OwesSlot(b.jobs, letters[0]) then [render("job_dead_lettered", letters[0])] else [])
              + Notices(ClosedBy(Settle(b, letters[0]), letters[1..]))
              == said + Notices(ClosedBy(b, letters))
    {
      var rest := ClosedBy(Settle(b, letters[0]), letters[1..]);
      if OwesSlot(b.jobs, letters[0]) {
        assert ([letters[0]] + rest)[1..] == rest;
        Regroup(said, [render("job_dead_lettered", letters[0])], Notices(rest));
      } else {
        assert [] + rest == rest && said + [] == said;
      }
    }

    /** One maintenance pass; `Reconciliation.PassEffect` says what it amounts to. */
    method ReconcileDeadLetters(queue: JobQueue)
      requires Valid() && queue.Valid()
      modifies queue, jobs, governance
      ensures Valid() && queue.Valid() && queue.issued == old(queue.issued) && queue.origin == old(queue.origin)
      ensures BooksWith(queue) == SettleAll(old(BooksWith(queue)), Letters(old(BooksWith(queue))))
      ensures results.memory == old(results.memory)
      ensures old(governance.events) <= governance.events
      ensures Bodies(governance.events) == old(Bodies(governance.events))
              + Notices(ClosedBy(old(BooksWith(queue)), Letters(old(BooksWith(queue)))))
    {
      var letters := queue.DeadLetters();
      ghost var start := BooksWith(queue);
      var i := 0;
      while i < |letters|
        invariant 0 <= i <= |letters|
        invariant Valid() && queue.Valid() && queue.issued == old(queue.issued) && queue.origin == old(queue.origin)
        invariant SettleAll(BooksWith(queue), letters[i..]) == SettleAll(start, letters)
        invariant results.memory == old(results.memory) && old(governance.events) <= governance.events
        invariant Bodies(governance.events) + Notices(ClosedBy(BooksWith(queue), letters[i..]))
                  == old(Bodies(governance.events)) + Notices(ClosedBy(start, letters))
      {
        assert letters[i..][0] == letters[i] && letters[i..][1..] == letters[i + 1..];
        NoticesStep(Bodies(governance.events), BooksWith(queue), letters[i..]);
        SettleLetter(queue, letters[i]);
        i := i + 1;
      }
    }

    /** `Worker.run_once` with nothing interleaved: a maintenance pass, a claim, a call, and the report to
        the queue. The lease is never found lost. */
    method RunOnce(queue: JobQueue, timeout: real, at: Readings, run: Run, error: string, retryNow: real)
      returns (outcome: Outcome)
      requires Valid() && queue.Valid() && queue.cfg == rules.cfg && timeout > 0.0
      modifies queue, jobs, results, governance
      ensures Valid() && queue.Valid()
      ensures outcome != LeaseLost
      ensures var b := SettleAll(old(BooksWith(queue)), Letters(old(BooksWith(queue))));
        var (m, got) := QueueSpec.Claim(rules.cfg, b.m, at);
        var v := Shelves(b.jobs, old(results.memory), b.slots);
        match got
        case None => outcome == Idle && queue.Value() == m && Stored() == v
        case Some(e) =>
          var (v', raised) := Called(rules, v, e, run);
          && Stored() == v' && outcome == (if raised then Raised else Acknowledged)
          && queue.Value() == (if raised then QueueSpec.Retry(rules.cfg, m, e, error, retryNow).0
                               else QueueSpec.Ack(m, e.jobId).0)
    {
      ReconcileDeadLetters(queue);
      var reply := queue.Claim(timeout, at);
      if !reply.Claimed? {
        return Idle;
      }
      var e := reply.envelope;
      var raised := Call(e, run);
      if raised {
        var _ := queue.Retry(e, error, retryNow);
        return Raised;
      }
      var done := queue.Ack(e);
      if !done {
        return LeaseLost;
      }
      return Acknowledged;
    }
  }
}
