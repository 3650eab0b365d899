/** Reports are released by review only, and settled records stay settled. */
module ReportGating {
  import opened Basics
  import opened Envelopes
  import opened QueueRuns
  import opened Protocol
  import opened ProtocolInvariant
  import opened ProtocolRuns

  /** What a status record may show when approval is required. */
  predicate ShownOk(jobs: map<Id, JobRecord>, results: map<Id, Option<Json>>, id: Id) {
    id in jobs ==>
      var j := jobs[id];
      && (j.report.Some? <==> j.status.Approved?)
      && (j.status.AwaitingApproval? || j.status.Approved? || j.status.Rejected? ==> id in results)
      && (j.status.Approved? ==> j.report == results[id])
      && (j.status.Approved? || j.status.Rejected? ==> j.approvedBy.Some? && j.approvedBy.value.tenant == j.tenant)
  }

  predicate GateOk(s: Sys, id: Id) {
    ShownOk(s.jobs, s.results, id)
  }

  ghost predicate Gated(s: Sys) {
    forall id :: GateOk(s, id)
  }

  predicate Settled(status: Status) {
    status.Approved? || status.Rejected? || status.Failed? || status.Completed?
  }

  predicate SettledKeptAt(s: Sys, s': Sys, id: Id) {
    id in s.jobs && Settled(s.jobs[id].status) ==> id in s'.jobs && s'.jobs[id] == s.jobs[id]
  }

  /** The records after a step: unchanged, or one record of an unsettled job changed or removed. */
  lemma OneRecord(s: Sys, s': Sys, x: Id)
    requires Gated(s) && GateOk(s', x)
    requires forall id :: id != x ==> (id in s'.jobs <==> id in s.jobs) && (id in s.jobs ==> s'.jobs[id] == s.jobs[id])
    requires forall id :: id != x ==>
               (id in s'.results <==> id in s.results) && (id in s.results ==> s'.results[id] == s.results[id])
    requires x in s.jobs ==> !Settled(s.jobs[x].status)
    ensures Gated(s') && forall id :: SettledKeptAt(s, s', id)
  {
    forall id ensures GateOk(s', id) { assert GateOk(s, id); }
  }

  lemma SameRecordsGated(s: Sys, s': Sys)
    requires Gated(s) && s'.jobs == s.jobs && s'.results == s.results
    ensures Gated(s') && forall id :: SettledKeptAt(s, s', id)
  {
    forall id ensures GateOk(s', id) { assert GateOk(s, id); }
  }

  /** A worker begins no job whose record is settled. */
  predicate JobUnsettled(s: Sys, a: Action) {
    a.Begin? && PcOf(s, a.w).Claimed? ==>
      var id := PcOf(s, a.w).e.jobId;
      id in s.jobs && !Settled(s.jobs[id].status)
  }

  predicate AllUnsettled(rules: Rules, s: Sys, actions: seq<Action>)
    decreases |actions|
  {
    actions == [] || (JobUnsettled(s, actions[0]) && AllUnsettled(rules, Act(rules, s, actions[0]), actions[1..]))
  }

  /** A decision falls on a job that still waits for one, with the result that the reviewer approves; or it has
      been written already. */
  predicate Undecided(s: Sys, id: Id, job: JobRecord) {
    id in s.jobs ==>
      || s.jobs[id] == job
      || (s.jobs[id].status.AwaitingApproval? && ReportStands(s, id, job))
  }

  predicate ReportStands(s: Sys, id: Id, job: JobRecord) {
    job.status.Approved? ==> id in s.results && s.results[id] == job.report
  }

  predicate ReviewStays(s: Sys, a: Action) {
    a.Decide? && a.r in s.reviews && s.reviews[a.r].Decided? ==> Undecided(s, s.reviews[a.r].id, s.reviews[a.r].job)
  }

  predicate AllReviewsStay(rules: Rules, s: Sys, actions: seq<Action>)
    decreases |actions|
  {
    actions == [] || (ReviewStays(s, actions[0]) && AllReviewsStay(rules, Act(rules, s, actions[0]), actions[1..]))
  }

  /** Records that workers wrote, or that reconcilers read, still stand. */
  predicate StandsAt(rules: Rules, s: Sys, w: nat) {
    match PcOf(s, w)
    case Working(e, job) => e.jobId in s.jobs && s.jobs[e.jobId] == job
    case Closing(todo, read) => todo != [] && todo[0].jobId in s.jobs && ClosedOr(rules, s.jobs[todo[0].jobId], read)
    case _ => true
  }

  /** An open review has a stored result, and its decision is one that a record may show. */
  predicate PendingAt(s: Sys, r: nat) {
    r in s.reviews ==>
      var v := s.reviews[r];
      && v.id in s.results
      && (v.Looked? ==> v.read.report.None?)
      && (v.Decided? ==>
            && (v.job.report.Some? <==> v.job.status.Approved?)
            && v.job.approvedBy.Some? && v.job.approvedBy.value.tenant == v.job.tenant)
  }

  ghost predicate Standing(rules: Rules, s: Sys) {
    (forall w :: StandsAt(rules, s, w)) && (forall r :: PendingAt(s, r))
  }

  lemma {:induction false} OpenIsUnsettled(rules: Rules, s: Sys, actions: seq<Action>)
    requires AllOpen(rules, s, actions)
    ensures AllUnsettled(rules, s, actions)
    decreases |actions|
  {
    if actions != [] {
      OpenIsUnsettled(rules, Act(rules, s, actions[0]), actions[1..]);
    }
  }

  lemma BeginGated(rules: Rules, s: Sys, w: nat)
    requires Coupled(rules, s) && Gated(s) && JobUnsettled(s, Begin(w))
    ensures var s' := Begun(s, w); Gated(s') && forall id :: SettledKeptAt(s, s', id)
  {
    var s', pc := Begun(s, w), PcOf(s, w);
    assert WorkerOk(rules, s, w);
    if pc.Claimed? {
      assert GateOk(s, pc.e.jobId);
      OneRecord(s, s', pc.e.jobId);
    } else {
      SameRecordsGated(s, s');
    }
  }

  /** Beginning a job leaves every settled record alone if and only if its own record is not settled. */
  lemma BeginGatedExactly(rules: Rules, s: Sys, w: nat)
    requires Coupled(rules, s) && Gated(s) && PcOf(s, w).Claimed?
    ensures var s', id := Begun(s, w), PcOf(s, w).e.jobId;
      id in s.jobs
      && (Gated(s') && (forall x :: SettledKeptAt(s, s', x)) <==> !Settled(s.jobs[id].status))
  {
    assert WorkerOk(rules, s, w);
    var id := PcOf(s, w).e.jobId;
    if Settled(s.jobs[id].status) {
      assert !SettledKeptAt(s, Begun(s, w), id);
    } else {
      BeginGated(rules, s, w);
    }
  }

  lemma SucceedGated(rules: Rules, s: Sys, w: nat, report: Option<Json>)
    requires Coupled(rules, s) && Gated(s) && rules.approval && StandsAt(rules, s, w)
    ensures var s' := Succeeded(rules, s, w, report); Gated(s') && forall id :: SettledKeptAt(s, s', id)
  {
    var s', pc := Succeeded(rules, s, w, report), PcOf(s, w);
    assert WorkerOk(rules, s, w);
    if pc.Working? {
      assert GateOk(s, pc.e.jobId);
      OneRecord(s, s', pc.e.jobId);
    } else {
      SameRecordsGated(s, s');
    }
  }

  lemma FailGated(rules: Rules, s: Sys, w: nat)
    requires Coupled(rules, s) && Gated(s) && StandsAt(rules, s, w)
    ensures var s' := FailedOnce(rules, s, w); Gated(s') && forall id :: SettledKeptAt(s, s', id)
  {
    var s', pc := FailedOnce(rules, s, w), PcOf(s, w);
    assert WorkerOk(rules, s, w);
    if pc.Working? {
      assert GateOk(s, pc.e.jobId);
      OneRecord(s, s', pc.e.jobId);
    } else {
      SameRecordsGated(s, s');
    }
  }

  lemma CreateGated(rules: Rules, s: Sys, k: nat)
    requires Gated(s)
    ensures var s' := RecordSet(s, k); Gated(s') && forall id :: SettledKeptAt(s, s', id)
  {
    var s' := RecordSet(s, k);
    CreateShape(s, k);
    if At(s, k, HasSlot) && s.subs[k].id !in s.jobs {
      OneRecord(s, s', s.subs[k].id);
    } else {
      SameRecordsGated(s, s');
    }
  }

  lemma DeleteGated(rules: Rules, s: Sys, k: nat)
    requires Coupled(rules, s) && Gated(s)
    ensures var s' := RecordDropped(s, k); Gated(s') && forall id :: SettledKeptAt(s, s', id)
  {
    var s' := RecordDropped(s, k);
    if s'.jobs == s.jobs {
      SameRecordsGated(s, s');
    } else {
      assert SubOk(s, k) && JobOk(rules, s, s.subs[k].id);
      OneRecord(s, s', s.subs[k].id);
    }
  }

  /** A second closing of a job writes what the first one wrote. */
  lemma GiveUpGated(rules: Rules, s: Sys, w: nat)
    requires Coupled(rules, s) && Gated(s) && StandsAt(rules, s, w)
    ensures var s' := GivenUp(s, w); Gated(s') && forall id :: SettledKeptAt(s, s', id)
  {
    var s', pc := GivenUp(s, w), PcOf(s, w);
    assert WorkerOk(rules, s, w);
    if pc.Closing? {
      var x := pc.todo[0].jobId;
      assert LetterOk(rules, s, pc.todo[0]) && GateOk(s, x);
      if Active(s.jobs[x].status) {
        OneRecord(s, s', x);
      } else {
        assert s'.jobs == s.jobs;
        SameRecordsGated(s, s');
      }
    } else {
      SameRecordsGated(s, s');
    }
  }

  lemma DecideGated(rules: Rules, s: Sys, r: nat)
    requires Coupled(rules, s) && Gated(s) && PendingAt(s, r) && ReviewStays(s, Decide(r))
    ensures var s' := DecisionWritten(s, r); Gated(s') && forall id :: SettledKeptAt(s, s', id)
  {
    var s' := DecisionWritten(s, r);
    assert ReviewOk(s, r);
    if r in s.reviews && s.reviews[r].Decided? {
      var id, job := s.reviews[r].id, s.reviews[r].job;
      assert GateOk(s, id);
      if s.jobs[id] == job {
        assert s'.jobs == s.jobs;
        SameRecordsGated(s, s');
      } else {
        OneRecord(s, s', id);
      }
    } else {
      SameRecordsGated(s, s');
    }
  }

  /** Writing a decision keeps reports gated and leaves settled records alone if and only if the job has not been
      settled otherwise since the reviewer looked, and an approved report is still the stored one. */
  lemma DecideGatedExactly(rules: Rules, s: Sys, r: nat)
    requires Coupled(rules, s) && Gated(s) && PendingAt(s, r) && r in s.reviews && s.reviews[r].Decided?
    ensures var s', id, job := DecisionWritten(s, r), s.reviews[r].id, s.reviews[r].job;
      id in s.jobs
      && (Gated(s') && (forall x :: SettledKeptAt(s, s', x)) <==>
            (!Settled(s.jobs[id].status) || s.jobs[id] == job) && ReportStands(s, id, job))
  {
    var s', id, job := DecisionWritten(s, r), s.reviews[r].id, s.reviews[r].job;
    assert ReviewOk(s, r) && GateOk(s, id);
    if s.jobs[id] == job {
      assert s'.jobs == s.jobs;
      SameRecordsGated(s, s');
    } else if Settled(s.jobs[id].status) {
      assert !SettledKeptAt(s, s', id);
    } else if ReportStands(s, id, job) {
      OneRecord(s, s', id);
    } else {
      assert !GateOk(s', id);
    }
  }

  /** The steps that leave records and results alone. */
  lemma QuietSteps(rules: Rules, s: Sys, a: Action)
    requires !a.Begin? && !a.Succeed? && !a.Fail? && !a.SubCreate? && !a.SubDelete? && !a.GiveUp? && !a.Decide?
    ensures var s' := Act(rules, s, a); s'.jobs == s.jobs && s'.results == s.results
  {
    if a.Recover? || a.Promote? || a.Claim? || a.Renew? { QueueMoves(rules, s, a); }
    else if a.AckJob? || a.RetryJob? || a.Crash? { ReportMoves(rules, s, a); }
    else if a.ListLetters? || a.ReadLetter? || a.RemoveLetter? { LetterMoves(rules, s, a); }
    else if a.Look? { LookShape(s, a.r, a.who, a.id, a.approve); }
    else if a.Fetch? { FetchShape(s, a.r); }
    else { SubShape(rules, s, a); }
  }

  /** One step keeps every record gated and every settled record as it is. */
  lemma StepGated(rules: Rules, s: Sys, a: Action)
    requires Coupled(rules, s) && Gated(s) && Standing(rules, s) && rules.approval
    requires JobUnsettled(s, a) && ReviewStays(s, a)
    ensures var s' := Act(rules, s, a); Gated(s') && forall id :: SettledKeptAt(s, s', id)
  {
    var s' := Act(rules, s, a);
    if a.Begin? { BeginGated(rules, s, a.w); }
    else if a.Succeed? { SucceedGated(rules, s, a.w, a.report); }
    else if a.Fail? { FailGated(rules, s, a.w); }
    else if a.SubCreate? { CreateGated(rules, s, a.k); }
    else if a.SubDelete? { DeleteGated(rules, s, a.k); }
    else if a.GiveUp? { GiveUpGated(rules, s, a.w); }
    else if a.Decide? { DecideGated(rules, s, a.r); }
    else {
      QuietSteps(rules, s, a);
      SameRecordsGated(s, s');
    }
  }

  // Records of workers, reconcilers and open reviews keep standing.

  predicate Concerns(pc: WorkerPc, x: Id) {
    (pc.Working? && pc.e.jobId == x) || (pc.Closing? && pc.todo != [] && pc.todo[0].jobId == x)
  }

  /** One record changes, and one worker may move. */
  lemma StandingKept(rules: Rules, s: Sys, s': Sys, x: Id, w0: nat)
    requires Standing(rules, s)
    requires forall id :: id != x ==> (id in s'.jobs <==> id in s.jobs) && (id in s.jobs ==> s'.jobs[id] == s.jobs[id])
    requires forall w :: w != w0 ==> PcOf(s', w) == PcOf(s, w) && (Concerns(PcOf(s, w), x) ==> StandsAt(rules, s', w))
    requires StandsAt(rules, s', w0)
    requires s'.reviews == s.reviews && forall id <- s.results.Keys :: id in s'.results
    ensures Standing(rules, s')
  {
    forall w ensures StandsAt(rules, s', w) { assert StandsAt(rules, s, w); }
    forall r ensures PendingAt(s', r) { assert PendingAt(s, r); }
  }

  /** One worker moves, or none. */
  lemma StandingMoves(rules: Rules, s: Sys, s': Sys, w0: nat)
    requires Standing(rules, s) && OneMoves(s, s', w0) && s'.results == s.results
    requires s'.workers == s.workers || StandsAt(rules, s', w0)
    ensures Standing(rules, s')
  {
    forall w ensures StandsAt(rules, s', w) { assert StandsAt(rules, s, w); }
    forall r ensures PendingAt(s', r) { assert PendingAt(s, r); }
  }

  /** The steps of the queue, and reports to it, put nobody to work. */
  lemma RestingStands(rules: Rules, s: Sys, a: Action)
    requires Standing(rules, s)
    requires a.Recover? || a.Promote? || a.Claim? || a.Renew? || a.AckJob? || a.RetryJob? || a.Crash?
    ensures var s' := Act(rules, s, a); s'.workers == s.workers || StandsAt(rules, s', WorkerOf(a))
  {
    if a.Claim? { ClaimMoves(rules, s, a.w, a.now); assert StandsAt(rules, s, a.w); }
  }

  lemma QueueStanding(rules: Rules, s: Sys, a: Action)
    requires Standing(rules, s)
    requires a.Recover? || a.Promote? || a.Claim? || a.Renew? || a.AckJob? || a.RetryJob? || a.Crash?
    ensures Standing(rules, Act(rules, s, a))
  {
    RestingStands(rules, s, a);
    if a.AckJob? || a.RetryJob? || a.Crash? { ReportMoves(rules, s, a); } else { QueueMoves(rules, s, a); }
    StandingMoves(rules, s, Act(rules, s, a), WorkerOf(a));
  }

  lemma ReadStanding(rules: Rules, s: Sys, w: nat)
    requires Standing(rules, s)
    ensures Standing(rules, LetterRead(s, w))
  {
    ReadMoves(s, w);
    assert StandsAt(rules, s, w);
    StandingMoves(rules, s, LetterRead(s, w), w);
  }

  lemma ListStanding(rules: Rules, s: Sys, w: nat)
    requires Standing(rules, s)
    ensures Standing(rules, LettersListed(s, w))
  {
    ListMoves(s, w);
    StandingMoves(rules, s, LettersListed(s, w), w);
  }

  lemma RemoveStanding(rules: Rules, s: Sys, w: nat)
    requires Standing(rules, s)
    ensures Standing(rules, LetterRemoved(rules, s, w))
  {
    RemoveMoves(rules, s, w);
    StandingMoves(rules, s, LetterRemoved(rules, s, w), w);
  }

  lemma SubStanding(rules: Rules, s: Sys, a: Action)
    requires Standing(rules, s)
    requires a.Submit? || a.SubRead? || a.SubAcquire? || a.SubRelease? || a.SubReread? || a.SubReleaseAgain?
             || a.SubEnqueue? || a.SubGiveUp?
    ensures Standing(rules, Act(rules, s, a))
  {
    SubShape(rules, s, a);
    StandingMoves(rules, s, Act(rules, s, a), 0);
  }

  /** An id without an accepted job concerns no worker. */
  lemma Unconcerned(rules: Rules, s: Sys, x: Id)
    requires Coupled(rules, s) && x !in s.h.origin
    ensures forall w :: !Concerns(PcOf(s, w), x)
  {
    forall w ensures !Concerns(PcOf(s, w), x) {
      assert WorkerOk(rules, s, w);
      if PcOf(s, w).Closing? { assert LetterOk(rules, s, PcOf(s, w).todo[0]); }
    }
  }

  /** A submission writes or drops the record of a job that was never accepted. */
  lemma EarlyStanding(rules: Rules, s: Sys, s': Sys, x: Id)
    requires Coupled(rules, s) && Standing(rules, s) && x !in s.h.origin
    requires s'.workers == s.workers && s'.reviews == s.reviews && s'.results == s.results
    requires forall id :: id != x ==> (id in s'.jobs <==> id in s.jobs) && (id in s.jobs ==> s'.jobs[id] == s.jobs[id])
    ensures Standing(rules, s')
  {
    Unconcerned(rules, s, x);
    assert StandsAt(rules, s, 0);
    StandingKept(rules, s, s', x, 0);
  }

  lemma CreateStanding(rules: Rules, s: Sys, k: nat)
    requires Coupled(rules, s) && Standing(rules, s)
    ensures Standing(rules, RecordSet(s, k))
  {
    CreateShape(s, k);
    if At(s, k, HasSlot) && s.subs[k].id !in s.jobs {
      assert JobOk(rules, s, s.subs[k].id);
      EarlyStanding(rules, s, RecordSet(s, k), s.subs[k].id);
    } else {
      StandingMoves(rules, s, RecordSet(s, k), 0);
    }
  }

  lemma DeleteStanding(rules: Rules, s: Sys, k: nat)
    requires Coupled(rules, s) && Standing(rules, s)
    ensures Standing(rules, RecordDropped(s, k))
  {
    DropShape(s, k);
    if At(s, k, Refused) {
      assert SubOk(s, k);
      EarlyStanding(rules, s, RecordDropped(s, k), s.subs[k].id);
    } else {
      StandingMoves(rules, s, RecordDropped(s, k), 0);
    }
  }

  /** The job of a worker concerns no other one, and no reconciler. */
  lemma OnlyConcern(rules: Rules, s: Sys, w: nat, x: Id)
    requires Coupled(rules, s) && HoldsJob(PcOf(s, w), x)
    ensures forall v :: v != w ==> !Concerns(PcOf(s, v), x)
  {
    OneHolder(rules, s, w, x);
    assert WorkerOk(rules, s, w);
    forall v | v != w ensures !Concerns(PcOf(s, v), x) {
      assert WorkerOk(rules, s, v);
      if PcOf(s, v).Closing? { assert LetterOk(rules, s, PcOf(s, v).todo[0]); }
    }
  }

  /** A worker rewrites the record of its job. */
  lemma WorkStanding(rules: Rules, s: Sys, s': Sys, w: nat)
    requires Coupled(rules, s) && Standing(rules, s) && Holds(PcOf(s, w))
    requires var x := PcOf(s, w).e.jobId;
      && s'.workers == s.workers[w := PcOf(s', w)] && x in s'.jobs && s'.jobs == s.jobs[x := s'.jobs[x]]
    requires StandsAt(rules, s', w) && s'.reviews == s.reviews && forall id <- s.results.Keys :: id in s'.results
    ensures Standing(rules, s')
  {
    OnlyConcern(rules, s, w, PcOf(s, w).e.jobId);
    StandingKept(rules, s, s', PcOf(s, w).e.jobId, w);
  }

  lemma BeginStanding(rules: Rules, s: Sys, w: nat)
    requires Coupled(rules, s) && Standing(rules, s)
    ensures Standing(rules, Begun(s, w))
  {
    if PcOf(s, w).Claimed? {
      assert WorkerOk(rules, s, w);
      WorkStanding(rules, s, Begun(s, w), w);
    }
  }

  lemma SucceedStanding(rules: Rules, s: Sys, w: nat, report: Option<Json>)
    requires Coupled(rules, s) && Standing(rules, s)
    ensures Standing(rules, Succeeded(rules, s, w, report))
  {
    if PcOf(s, w).Working? { WorkStanding(rules, s, Succeeded(rules, s, w, report), w); }
  }

  lemma FailStanding(rules: Rules, s: Sys, w: nat)
    requires Coupled(rules, s) && Standing(rules, s)
    ensures Standing(rules, FailedOnce(rules, s, w))
  {
    if PcOf(s, w).Working? { WorkStanding(rules, s, FailedOnce(rules, s, w), w); }
  }

  lemma GiveUpStanding(rules: Rules, s: Sys, w: nat)
    requires Coupled(rules, s) && Standing(rules, s)
    ensures Standing(rules, GivenUp(s, w))
  {
    var s', pc := GivenUp(s, w), PcOf(s, w);
    if pc.Closing? {
      assert WorkerOk(rules, s, w) && StandsAt(rules, s, w);
      var x := pc.todo[0].jobId;
      assert LetterOk(rules, s, pc.todo[0]);
      NotHeld(rules, s, x);
      forall v | v != w && Concerns(PcOf(s, v), x) ensures StandsAt(rules, s', v) {
        assert !HoldsJob(PcOf(s, v), x);
        assert StandsAt(rules, s, v) && WorkerOk(rules, s, v);
      }
      StandingKept(rules, s, s', x, w);
    } else {
      StandingMoves(rules, s, s', w);
    }
  }

  lemma LookStanding(rules: Rules, s: Sys, r: nat, who: Principal, id: Id, approve: bool)
    requires Gated(s) && Standing(rules, s)
    ensures Standing(rules, ReviewOpened(s, r, who, id, approve))
  {
    var s' := ReviewOpened(s, r, who, id, approve);
    LookShape(s, r, who, id, approve);
    assert GateOk(s, id);
    forall w ensures StandsAt(rules, s', w) { assert StandsAt(rules, s, w); }
    forall v ensures PendingAt(s', v) { assert PendingAt(s, v); }
  }

  lemma FetchStanding(rules: Rules, s: Sys, r: nat)
    requires Coupled(rules, s) && Standing(rules, s)
    ensures Standing(rules, ReportFetched(s, r))
  {
    var s' := ReportFetched(s, r);
    FetchShape(s, r);
    assert ReviewOk(s, r);
    forall w ensures StandsAt(rules, s', w) { assert StandsAt(rules, s, w); }
    forall v ensures PendingAt(s', v) { assert PendingAt(s, v); }
  }

  lemma DecideStanding(rules: Rules, s: Sys, r: nat)
    requires Coupled(rules, s) && Standing(rules, s) && ReviewStays(s, Decide(r))
    ensures Standing(rules, DecisionWritten(s, r))
  {
    var s' := DecisionWritten(s, r);
    if r in s.reviews && s.reviews[r].Decided? {
      assert ReviewOk(s, r);
      forall w ensures StandsAt(rules, s', w) { assert StandsAt(rules, s, w) && WorkerOk(rules, s, w); }
      forall v ensures PendingAt(s', v) { assert PendingAt(s, v); }
    }
  }

  lemma StepStanding(rules: Rules, s: Sys, a: Action)
    requires Coupled(rules, s) && Gated(s) && Standing(rules, s) && ReviewStays(s, a)
    ensures Standing(rules, Act(rules, s, a))
  {
    if a.Recover? || a.Promote? || a.Claim? || a.Renew? || a.AckJob? || a.RetryJob? || a.Crash? {
      QueueStanding(rules, s, a);
    }
    else if a.ListLetters? { ListStanding(rules, s, a.w); }
    else if a.ReadLetter? { ReadStanding(rules, s, a.w); }
    else if a.RemoveLetter? { RemoveStanding(rules, s, a.w); }
    else if a.Begin? { BeginStanding(rules, s, a.w); }
    else if a.Succeed? { SucceedStanding(rules, s, a.w, a.report); }
    else if a.Fail? { FailStanding(rules, s, a.w); }
    else if a.GiveUp? { GiveUpStanding(rules, s, a.w); }
    else if a.Look? { LookStanding(rules, s, a.r, a.who, a.id, a.approve); }
    else if a.Fetch? { FetchStanding(rules, s, a.r); }
    else if a.Decide? { DecideStanding(rules, s, a.r); }
    else if a.SubCreate? { CreateStanding(rules, s, a.k); }
    else if a.SubDelete? { DeleteStanding(rules, s, a.k); }
    else { SubStanding(rules, s, a); }
  }

  lemma {:induction false} RunGated(rules: Rules, s: Sys, actions: seq<Action>, id: Id)
    requires Coupled(rules, s) && Gated(s) && Standing(rules, s) && rules.approval
    requires AllLeasesHold(rules, s, actions) && AllUnsettled(rules, s, actions) && AllReviewsStay(rules, s, actions)
    ensures var s' := ActAll(rules, s, actions); Gated(s') && Standing(rules, s') && SettledKeptAt(s, s', id)
    decreases |actions|
  {
    if actions != [] {
      StepGated(rules, s, actions[0]);
      StepStanding(rules, s, actions[0]);
      StepCoupled(rules, s, actions[0]);
      var s1 := Act(rules, s, actions[0]);
      RunGated(rules, s1, actions[1..], id);
      assert SettledKeptAt(s, s1, id);
    }
  }

  /** Over every run with approval required in which no worker begins a settled job and no decision falls on a
      job that is decided already, with any number of reconcilers, submissions and reviews: a record shows a
      report if and only if it is approved; the report is the processor's stored result and its reviewer
      belongs to the job's tenant; and a settled record never changes again. */
  lemma ReportsAreGated(rules: Rules, left: map<Id, real>, before: seq<Action>, after: seq<Action>, id: Id)
    requires rules.approval
    requires var s := Initial(left);
      AllLeasesHold(rules, s, before) && AllUnsettled(rules, s, before) && AllReviewsStay(rules, s, before)
    requires var s := ActAll(rules, Initial(left), before);
      AllLeasesHold(rules, s, after) && AllUnsettled(rules, s, after) && AllReviewsStay(rules, s, after)
    ensures var s := ActAll(rules, Initial(left), before); var s' := ActAll(rules, s, after);
      && (id in s.jobs ==>
            && (s.jobs[id].report.Some? <==> s.jobs[id].status.Approved?)
            && (s.jobs[id].status.Approved? ==>
                  && id in s.results && s.jobs[id].report == s.results[id]
                  && s.jobs[id].approvedBy.Some? && s.jobs[id].approvedBy.value.tenant == s.jobs[id].tenant))
      && (id in s.jobs && Settled(s.jobs[id].status) ==> id in s'.jobs && s'.jobs[id] == s.jobs[id])
  {
    InitialCoupled(rules, left);
    RunCoupled(rules, Initial(left), before);
    RunGated(rules, Initial(left), before, id);
    var s := ActAll(rules, Initial(left), before);
    assert GateOk(s, id);
    RunGated(rules, s, after, id);
  }
}
