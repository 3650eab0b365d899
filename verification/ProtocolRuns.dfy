/** The protocol over whole runs: what every step keeps, the slot accounts, and the exact steps that disturb them. */
module ProtocolRuns {
  import opened Basics
  import opened Envelopes
  import opened QueueSpec
  import opened QueueInvariant
  import opened QueueRuns
  import opened Protocol
  import opened ProtocolInvariant

  lemma SubReadCoupled(rules: Rules, s: Sys, a: Action)
    requires Coupled(rules, s) && (a.Submit? || a.SubRead? || a.SubAcquire? || a.SubReread?)
    ensures Coupled(rules, Act(rules, s, a))
  {
    assert SubOk(s, a.k);
    match a
    case Submit(k, id, p) => if Submitted(s, k, id, p) != s { SubMoved(rules, s, Submitted(s, k, id, p), k); }
    case SubRead(k) => if At(s, k, Start) { SubMoved(rules, s, LookedUp(s, k), k); }
    case SubAcquire(k) => if At(s, k, Absent) { SubMoved(rules, s, SlotAcquired(rules, s, k), k); }
    case SubReread(k) => if At(s, k, Released) { SubMoved(rules, s, Reread(s, k), k); }
  }

  lemma SubStepCoupled(rules: Rules, s: Sys, a: Action)
    requires Coupled(rules, s)
    requires a.SubCreate? || a.SubRelease? || a.SubReleaseAgain? || a.SubEnqueue? || a.SubDelete? || a.SubGiveUp?
    ensures Coupled(rules, Act(rules, s, a))
  {
    match a
    case SubCreate(k) => RecordSetCoupled(rules, s, k);
    case SubRelease(k) => ReleaseCoupled(rules, s, k, LostRace, Released);
    case SubReleaseAgain(k) => ReleaseCoupled(rules, s, k, Vanished, Done(Unavailable));
    case SubEnqueue(k, now) => if At(s, k, Created) { SubEnqueued(rules, s, k, now); }
    case SubDelete(k) => if At(s, k, Refused) { RecordDeleted(rules, s, RecordDropped(s, k), k); }
    case SubGiveUp(k) => ReleaseCoupled(rules, s, k, Deleted, Done(QueueRejected));
  }

  lemma RecordSetCoupled(rules: Rules, s: Sys, k: nat)
    requires Coupled(rules, s)
    ensures Coupled(rules, RecordSet(s, k))
  {
    assert SubOk(s, k);
    if At(s, k, HasSlot) {
      if s.subs[k].id in s.jobs { SubMoved(rules, s, RecordSet(s, k), k); }
      else { RecordCreated(rules, s, RecordSet(s, k), k); }
    }
  }

  lemma ReleaseCoupled(rules: Rules, s: Sys, k: nat, from: SubPc, to: SubPc)
    requires Coupled(rules, s) && !Bound(from) && !Bound(to)
    ensures Coupled(rules, SlotReleased(s, k, from, to))
  {
    assert SubOk(s, k);
    if At(s, k, from) { SubMoved(rules, s, SlotReleased(s, k, from, to), k); }
  }

  lemma TimeStepCoupled(rules: Rules, s: Sys, a: Action)
    requires Coupled(rules, s) && LeasesHold(s, a) && (a.Recover? || a.Promote?)
    ensures Coupled(rules, Act(rules, s, a))
  {
    match a
    case Recover(now) => RecoverCoupled(rules, s, now);
    case Promote(now) => PromoteCoupled(rules, s, now);
  }

  lemma LeaseStepCoupled(rules: Rules, s: Sys, a: Action)
    requires Coupled(rules, s) && LeasesHold(s, a) && (a.Renew? || a.Crash?)
    ensures Coupled(rules, Act(rules, s, a))
  {
    match a
    case Renew(w, until) => RenewCoupled(rules, s, w, until);
    case Crash(w) => CrashCoupled(rules, s, w);
  }

  lemma StartStepCoupled(rules: Rules, s: Sys, a: Action)
    requires Coupled(rules, s) && LeasesHold(s, a) && (a.Claim? || a.Begin?)
    ensures Coupled(rules, Act(rules, s, a))
  {
    match a
    case Claim(w, now) => ClaimCoupled(rules, s, w, now);
    case Begin(w) => BeginCoupled(rules, s, w);
  }

  lemma FinalStepCoupled(rules: Rules, s: Sys, a: Action)
    requires Coupled(rules, s) && LeasesHold(s, a) && (a.Succeed? || a.Fail?)
    ensures Coupled(rules, Act(rules, s, a))
  {
    match a
    case Succeed(w, report) => SucceedCoupled(rules, s, w, report);
    case Fail(w) => FailCoupled(rules, s, w);
  }

  lemma ToldStepCoupled(rules: Rules, s: Sys, a: Action)
    requires Coupled(rules, s) && LeasesHold(s, a) && (a.AckJob? || a.RetryJob?)
    ensures Coupled(rules, Act(rules, s, a))
  {
    match a
    case AckJob(w) => AckCoupled(rules, s, w);
    case RetryJob(w, error, now) => RetryCoupled(rules, s, w, error, now);
  }

  lemma ListStepCoupled(rules: Rules, s: Sys, a: Action)
    requires Coupled(rules, s) && LeasesHold(s, a) && (a.ListLetters? || a.ReadLetter?)
    ensures Coupled(rules, Act(rules, s, a))
  {
    match a
    case ListLetters(w) => ListCoupled(rules, s, w);
    case ReadLetter(w) => ReadCoupled(rules, s, w);
  }

  lemma LetterStepCoupled(rules: Rules, s: Sys, a: Action)
    requires Coupled(rules, s) && LeasesHold(s, a) && (a.GiveUp? || a.RemoveLetter?)
    ensures Coupled(rules, Act(rules, s, a))
  {
    match a
    case GiveUp(w) => GiveUpCoupled(rules, s, w);
    case RemoveLetter(w) => RemoveLetterCoupled(rules, s, w);
  }

  /** Every step keeps records, queue, submissions, workers, reconcilers and reviews coupled, crashes anywhere
      included, as long as no lease lapses while its holder lives. */
  lemma StepCoupled(rules: Rules, s: Sys, a: Action)
    requires Coupled(rules, s) && LeasesHold(s, a)
    ensures Coupled(rules, Act(rules, s, a))
  {
    if a.Recover? || a.Promote? { TimeStepCoupled(rules, s, a); }
    else if a.Renew? || a.Crash? { LeaseStepCoupled(rules, s, a); }
    else if a.Claim? || a.Begin? { StartStepCoupled(rules, s, a); }
    else if a.Succeed? || a.Fail? { FinalStepCoupled(rules, s, a); }
    else if a.AckJob? || a.RetryJob? { ToldStepCoupled(rules, s, a); }
    else if a.ListLetters? || a.ReadLetter? { ListStepCoupled(rules, s, a); }
    else if a.GiveUp? || a.RemoveLetter? { LetterStepCoupled(rules, s, a); }
    else if a.Look? { LookCoupled(rules, s, a.r, a.who, a.id, a.approve); }
    else if a.Fetch? { FetchCoupled(rules, s, a.r); }
    else if a.Decide? { DecideCoupled(rules, s, a.r); }
    else if a.Submit? || a.SubRead? || a.SubAcquire? || a.SubReread? { SubReadCoupled(rules, s, a); }
    else { SubStepCoupled(rules, s, a); }
  }

  // Slots.

  function ActiveOf(jobs: map<Id, JobRecord>, t: Tenant): set<Id> {
    set id <- jobs.Keys | Active(jobs[id].status) && jobs[id].tenant == t
  }

  /** Submissions that own a slot for no record of theirs. */
  predicate OwnsSlot(pc: SubPc) {
    pc.HasSlot? || pc.LostRace? || pc.Deleted?
  }

  function OwnersOf(subs: map<nat, Sub>, t: Tenant): set<nat> {
    set k <- subs.Keys | OwnsSlot(subs[k].pc) && subs[k].payload.tenant == t
  }

  predicate SlotExact(s: Sys, t: Tenant) {
    SlotOf(s.slots, t) == |ActiveOf(s.jobs, t)| + |OwnersOf(s.subs, t)|
  }

  /** Every tenant's count is its active jobs plus its submissions holding a slot without a record, and is
      within the limit. */
  ghost predicate SlotsExact(rules: Rules, s: Sys) {
    forall t :: SlotExact(s, t) && SlotOf(s.slots, t) <= rules.limit
  }

  function JobWeight(jobs: map<Id, JobRecord>, id: Id, t: Tenant): nat {
    if id in jobs && Active(jobs[id].status) && jobs[id].tenant == t then 1 else 0
  }

  function SubWeight(subs: map<nat, Sub>, k: nat, t: Tenant): nat {
    if k in subs && OwnsSlot(subs[k].pc) && subs[k].payload.tenant == t then 1 else 0
  }

  lemma Resized<T>(a: set<T>, b: set<T>, x: T)
    requires forall y :: y != x ==> (y in a <==> y in b)
    ensures |b| == |a| - (if x in a then 1 else 0) + (if x in b then 1 else 0)
  {
    var c := a - {x};
    assert b - {x} == c;
    if x in a { assert a == c + {x}; } else { assert a == c; }
    if x in b { assert b == c + {x}; } else { assert b == c; }
  }

  lemma JobWritten(jobs: map<Id, JobRecord>, id: Id, job: JobRecord, t: Tenant)
    ensures |ActiveOf(jobs[id := job], t)|
            == |ActiveOf(jobs, t)| - JobWeight(jobs, id, t) + JobWeight(jobs[id := job], id, t)
  {
    Resized(ActiveOf(jobs, t), ActiveOf(jobs[id := job], t), id);
  }

  lemma JobErased(jobs: map<Id, JobRecord>, id: Id, t: Tenant)
    ensures |ActiveOf(jobs - {id}, t)| == |ActiveOf(jobs, t)| - JobWeight(jobs, id, t)
  {
    Resized(ActiveOf(jobs, t), ActiveOf(jobs - {id}, t), id);
  }

  lemma SubWritten(subs: map<nat, Sub>, k: nat, sub: Sub, t: Tenant)
    ensures |OwnersOf(subs[k := sub], t)|
            == |OwnersOf(subs, t)| - SubWeight(subs, k, t) + SubWeight(subs[k := sub], k, t)
  {
    Resized(OwnersOf(subs, t), OwnersOf(subs[k := sub], t), k);
  }

  /** The count covers each active job and each owning submission, so it is positive there. */
  lemma Covered(rules: Rules, s: Sys, t: Tenant)
    requires SlotsExact(rules, s)
    ensures (exists id :: id in ActiveOf(s.jobs, t)) || (exists k :: k in OwnersOf(s.subs, t)) ==> SlotOf(s.slots, t) > 0
  {
    assert SlotExact(s, t);
  }

  /** The tenant whose slot a step gives back, if any. */
  function GivesBack(rules: Rules, s: Sys, a: Action): Option<Tenant> {
    match a
    case SubRelease(k) => if At(s, k, LostRace) then Some(s.subs[k].payload.tenant) else None
    case SubReleaseAgain(k) => if At(s, k, Vanished) then Some(s.subs[k].payload.tenant) else None
    case SubGiveUp(k) => if At(s, k, Deleted) then Some(s.subs[k].payload.tenant) else None
    case Succeed(w, _) => if PcOf(s, w).Working? then Some(PcOf(s, w).e.payload.tenant) else None
    case Fail(w) =>
      var pc := PcOf(s, w);
      if pc.Working? && pc.e.attempt >= rules.cfg.maxAttempts then Some(pc.e.payload.tenant) else None
    case GiveUp(w) =>
      var pc := PcOf(s, w);
      if pc.Closing? && pc.todo != [] then Some(pc.todo[0].payload.tenant) else None
    case _ => None
  }

  /** A submission step that only moves the submission and, perhaps, its tenant's count. */
  lemma SubSlots(rules: Rules, s: Sys, s': Sys, k: nat)
    requires SlotsExact(rules, s) && k in s'.subs
    requires s'.jobs == s.jobs && s'.subs == s.subs[k := s'.subs[k]]
    requires forall t :: SlotOf(s'.slots, t) == SlotOf(s.slots, t) - SubWeight(s.subs, k, t) + SubWeight(s'.subs, k, t)
    requires forall t :: SlotOf(s'.slots, t) <= rules.limit
    ensures SlotsExact(rules, s')
  {
    forall t ensures SlotExact(s', t) {
      assert SlotExact(s, t);
      SubWritten(s.subs, k, s'.subs[k], t);
    }
  }

  lemma ReleaseSlots(rules: Rules, s: Sys, k: nat, from: SubPc, to: SubPc)
    requires SlotsExact(rules, s) && OwnsSlot(from) && !OwnsSlot(to)
    ensures SlotsExact(rules, SlotReleased(s, k, from, to))
  {
    if At(s, k, from) {
      var t := s.subs[k].payload.tenant;
      assert SlotExact(s, t);
      assert k in OwnersOf(s.subs, t);
      SubSlots(rules, s, SlotReleased(s, k, from, to), k);
    }
  }

  lemma AcquireSlots(rules: Rules, s: Sys, k: nat)
    requires SlotsExact(rules, s)
    ensures SlotsExact(rules, SlotAcquired(rules, s, k))
  {
    if At(s, k, Absent) {
      assert SlotExact(s, s.subs[k].payload.tenant);
      SubSlots(rules, s, SlotAcquired(rules, s, k), k);
    }
  }

  lemma SubStepSlots(rules: Rules, s: Sys, a: Action)
    requires Coupled(rules, s) && SlotsExact(rules, s) && RecordStays(s, a)
    requires a.Submit? || a.SubRead? || a.SubReread? || a.SubReleaseAgain?
    ensures SlotsExact(rules, Act(rules, s, a))
  {
    var s', k := Act(rules, s, a), a.k;
    assert SubOk(s, k);
    if s' != s {
      SubSlots(rules, s, s', k);
    }
  }

  lemma CreateSlots(rules: Rules, s: Sys, k: nat)
    requires SlotsExact(rules, s)
    ensures SlotsExact(rules, RecordSet(s, k))
  {
    if At(s, k, HasSlot) {
      if s.subs[k].id in s.jobs {
        RaceLostSlots(rules, s, k);
      } else {
        RecordAdded(rules, s, RecordSet(s, k), k, s.subs[k].id);
      }
    }
  }

  lemma RaceLostSlots(rules: Rules, s: Sys, k: nat)
    requires SlotsExact(rules, s) && At(s, k, HasSlot) && s.subs[k].id in s.jobs
    ensures SlotsExact(rules, RecordSet(s, k))
  {
    SubSlots(rules, s, RecordSet(s, k), k);
  }

  /** A new record takes over the slot that its submission held. */
  lemma RecordAdded(rules: Rules, s: Sys, s': Sys, k: nat, id: Id)
    requires SlotsExact(rules, s) && k in s'.subs && id !in s.jobs && id in s'.jobs
    requires s'.slots == s.slots && s'.jobs == s.jobs[id := s'.jobs[id]] && s'.subs == s.subs[k := s'.subs[k]]
    requires forall t :: JobWeight(s'.jobs, id, t) + SubWeight(s'.subs, k, t) == SubWeight(s.subs, k, t)
    ensures SlotsExact(rules, s')
  {
    forall t ensures SlotExact(s', t) && SlotOf(s'.slots, t) <= rules.limit {
      assert SlotExact(s, t);
      SubWritten(s.subs, k, s'.subs[k], t);
      JobWritten(s.jobs, id, s'.jobs[id], t);
    }
  }

  lemma DeleteSlots(rules: Rules, s: Sys, k: nat)
    requires Coupled(rules, s) && SlotsExact(rules, s)
    ensures SlotsExact(rules, RecordDropped(s, k))
  {
    var s' := RecordDropped(s, k);
    if At(s, k, Refused) {
      var id := s.subs[k].id;
      assert SubOk(s, k) && JobOk(rules, s, id);
      forall t ensures SlotExact(s', t) && SlotOf(s'.slots, t) <= rules.limit {
        assert SlotExact(s, t);
        SubWritten(s.subs, k, s'.subs[k], t);
        JobErased(s.jobs, id, t);
      }
    }
  }

  lemma EnqueueSlots(rules: Rules, s: Sys, k: nat, now: real)
    requires SlotsExact(rules, s)
    ensures SlotsExact(rules, JobEnqueued(rules, s, k, now))
  {
    var s' := JobEnqueued(rules, s, k, now);
    if At(s, k, Created) {
      SubSlots(rules, s, s', k);
    }
  }

  /** A step that rewrites one record and gives the slot back exactly if the job stops being active. */
  lemma RecordSlots(rules: Rules, s: Sys, s': Sys, id: Id)
    requires SlotsExact(rules, s) && id in s.jobs && id in s'.jobs
    requires s'.subs == s.subs && s'.jobs == s.jobs[id := s'.jobs[id]] && s'.jobs[id].tenant == s.jobs[id].tenant
    requires Active(s'.jobs[id].status) ==> Active(s.jobs[id].status)
    requires s'.slots == if Active(s.jobs[id].status) && !Active(s'.jobs[id].status)
                         then Release(s.slots, s.jobs[id].tenant) else s.slots
    ensures SlotsExact(rules, s')
  {
    forall t ensures SlotExact(s', t) && SlotOf(s'.slots, t) <= rules.limit {
      assert SlotExact(s, t);
      JobWritten(s.jobs, id, s'.jobs[id], t);
      if JobWeight(s.jobs, id, t) == 1 { assert id in ActiveOf(s.jobs, t); }
    }
  }

  /** A worker's record is as it wrote it when it began, and a job with an open review is not active. (A lost
      worker's job that is begun again need not be so, see `BeginExactly`.) */
  predicate WorkAt(s: Sys, w: nat) {
    var pc := PcOf(s, w);
    pc.Working? ==> pc.e.jobId in s.jobs && s.jobs[pc.e.jobId] == pc.job
  }

  predicate RestAt(s: Sys, r: nat) {
    r in s.reviews && s.reviews[r].id in s.jobs ==> !Active(s.jobs[s.reviews[r].id].status)
  }

  ghost predicate Current(s: Sys) {
    (forall w :: WorkAt(s, w)) && (forall r :: RestAt(s, r))
  }

  /** Nobody starts to work, and no review opens. */
  ghost predicate NothingStarts(s: Sys, s': Sys) {
    && (forall w :: PcOf(s', w) == PcOf(s, w) || !PcOf(s', w).Working?)
    && (forall r <- s'.reviews.Keys :: r in s.reviews && s'.reviews[r].id == s.reviews[r].id)
  }

  /** The one record that changes belongs to no other worker, and to no open review if it is active then. */
  lemma CurrentKept(s: Sys, s': Sys, x: Id)
    requires Current(s) && NothingStarts(s, s')
    requires forall id :: id != x ==> (id in s'.jobs <==> id in s.jobs) && (id in s.jobs ==> s'.jobs[id] == s.jobs[id])
    requires forall w :: PcOf(s', w).Working? && PcOf(s', w).e.jobId == x ==> x in s'.jobs && s'.jobs[x] == PcOf(s', w).job
    requires x in s'.jobs && Active(s'.jobs[x].status) ==> forall r <- s'.reviews.Keys :: s'.reviews[r].id != x
    ensures Current(s')
  {
    forall w ensures WorkAt(s', w) { assert WorkAt(s, w); }
    forall r ensures RestAt(s', r) { assert RestAt(s, r); }
  }

  lemma CurrentFrame(s: Sys, s': Sys)
    requires Current(s) && NothingStarts(s, s') && s'.jobs == s.jobs
    ensures Current(s')
  {
    forall w ensures WorkAt(s', w) { assert WorkAt(s, w); }
    forall r ensures RestAt(s', r) { assert RestAt(s, r); }
  }

  lemma WorkerSlots(rules: Rules, s: Sys, s': Sys, w: nat)
    requires Coupled(rules, s) && SlotsExact(rules, s) && Holds(PcOf(s, w))
    requires var id := PcOf(s, w).e.jobId;
      && id in s.jobs && id in s'.jobs
      && s'.subs == s.subs && s'.jobs == s.jobs[id := s'.jobs[id]] && s'.jobs[id].tenant == s.jobs[id].tenant
      && Active(s.jobs[id].status)
      && s'.slots == if !Active(s'.jobs[id].status) then Release(s.slots, PcOf(s, w).e.payload.tenant) else s.slots
    ensures SlotsExact(rules, s')
  {
    assert WorkerOk(rules, s, w);
    TenantAgrees(rules, s, PcOf(s, w).e);
    RecordSlots(rules, s, s', PcOf(s, w).e.jobId);
  }

  lemma BeginSlots(rules: Rules, s: Sys, w: nat)
    requires Coupled(rules, s) && SlotsExact(rules, s) && JobOpen(s, Begin(w))
    ensures SlotsExact(rules, Begun(s, w))
  {
    assert WorkerOk(rules, s, w);
    if PcOf(s, w).Claimed? { WorkerSlots(rules, s, Begun(s, w), w); }
  }

  lemma SucceedSlots(rules: Rules, s: Sys, w: nat, report: Option<Json>)
    requires Coupled(rules, s) && SlotsExact(rules, s) && WorkAt(s, w)
    ensures SlotsExact(rules, Succeeded(rules, s, w, report))
  {
    assert WorkerOk(rules, s, w);
    if PcOf(s, w).Working? { WorkerSlots(rules, s, Succeeded(rules, s, w, report), w); }
  }

  lemma FailSlots(rules: Rules, s: Sys, w: nat)
    requires Coupled(rules, s) && SlotsExact(rules, s) && WorkAt(s, w)
    ensures SlotsExact(rules, FailedOnce(rules, s, w))
  {
    assert WorkerOk(rules, s, w);
    if PcOf(s, w).Working? { WorkerSlots(rules, s, FailedOnce(rules, s, w), w); }
  }

  lemma TenantAgrees(rules: Rules, s: Sys, e: Envelope)
    requires Coupled(rules, s) && e.jobId in s.h.origin
    requires e in s.h.issued || LetterOk(rules, s, e)
    ensures e.jobId in s.jobs && s.jobs[e.jobId].tenant == e.payload.tenant
  {
    assert JobOk(rules, s, e.jobId);
    if e in s.h.issued {
      assert Issuable(rules.cfg, e, s.h.origin);
    }
  }

  lemma GiveUpSlots(rules: Rules, s: Sys, w: nat)
    requires Coupled(rules, s) && SlotsExact(rules, s) && LetterStays(s, GiveUp(w))
    ensures SlotsExact(rules, GivenUp(s, w))
  {
    var pc := PcOf(s, w);
    if pc.Closing? {
      assert WorkerOk(rules, s, w) && LetterOk(rules, s, pc.todo[0]);
      TenantAgrees(rules, s, pc.todo[0]);
      RecordSlots(rules, s, GivenUp(s, w), pc.todo[0].jobId);
    }
  }

  lemma SlotsFrame(rules: Rules, s: Sys, s': Sys)
    requires SlotsExact(rules, s) && SameAccounts(s, s')
    ensures SlotsExact(rules, s')
  {
    forall t ensures SlotExact(s', t) && SlotOf(s'.slots, t) <= rules.limit { assert SlotExact(s, t); }
  }

  lemma DecideSlots(rules: Rules, s: Sys, r: nat)
    requires Coupled(rules, s) && SlotsExact(rules, s) && RestAt(s, r)
    ensures SlotsExact(rules, DecisionWritten(s, r))
  {
    assert ReviewOk(s, r);
    if r in s.reviews && s.reviews[r].Decided? {
      RecordSlots(rules, s, DecisionWritten(s, r), s.reviews[r].id);
    }
  }

  predicate SameAccounts(s: Sys, s': Sys) {
    s'.jobs == s.jobs && s'.subs == s.subs && s'.slots == s.slots
  }

  /** Steps of the queue change no record, submission or count. */
  lemma QueueAccounts(rules: Rules, s: Sys, a: Action)
    requires a.Recover? || a.Promote? || a.Claim? || a.Renew?
    ensures SameAccounts(s, Act(rules, s, a))
  {
    match a
    case Claim(w, now) => ClaimAccounts(rules, s, w, now);
    case Renew(w, until) => RenewAccounts(rules, s, w, until);
    case _ =>
  }

  lemma ClaimAccounts(rules: Rules, s: Sys, w: nat, now: real)
    ensures SameAccounts(s, JobClaimed(rules, s, w, now))
  {
    var s' := JobClaimed(rules, s, w, now);
    assert s' == s.(h := s'.h, workers := s'.workers, holder := s'.holder);
  }

  lemma RenewAccounts(rules: Rules, s: Sys, w: nat, until: real)
    ensures SameAccounts(s, LeaseRenewed(rules, s, w, until))
  {
  }

  lemma ReportAccounts(rules: Rules, s: Sys, a: Action)
    requires a.AckJob? || a.RetryJob? || a.Crash?
    ensures SameAccounts(s, Act(rules, s, a))
  {
  }

  lemma LetterAccounts(rules: Rules, s: Sys, a: Action)
    requires a.ListLetters? || a.ReadLetter? || a.RemoveLetter?
    ensures SameAccounts(s, Act(rules, s, a))
  {
  }

  lemma LookAccounts(s: Sys, r: nat, who: Principal, id: Id, approve: bool)
    ensures SameAccounts(s, ReviewOpened(s, r, who, id, approve))
  {
    LookShape(s, r, who, id, approve);
  }

  lemma FetchAccounts(s: Sys, r: nat)
    ensures SameAccounts(s, ReportFetched(s, r))
  {
    FetchShape(s, r);
  }

  lemma SubmissionSlots(rules: Rules, s: Sys, a: Action)
    requires Coupled(rules, s) && SlotsExact(rules, s) && RecordStays(s, a)
    requires a.Submit? || a.SubRead? || a.SubAcquire? || a.SubCreate? || a.SubRelease? || a.SubReread?
             || a.SubReleaseAgain? || a.SubEnqueue? || a.SubDelete? || a.SubGiveUp?
    ensures SlotsExact(rules, Act(rules, s, a))
  {
    match a
    case SubCreate(k) => CreateSlots(rules, s, k);
    case SubDelete(k) => DeleteSlots(rules, s, k);
    case SubEnqueue(k, now) => EnqueueSlots(rules, s, k, now);
    case SubAcquire(k) => AcquireSlots(rules, s, k);
    case SubRelease(k) => ReleaseSlots(rules, s, k, LostRace, Released);
    case SubGiveUp(k) => ReleaseSlots(rules, s, k, Deleted, Done(QueueRejected));
    case _ => SubStepSlots(rules, s, a);
  }

  /** Every undisturbed step keeps the slot accounts exact. */
  lemma StepSlots(rules: Rules, s: Sys, a: Action)
    requires Coupled(rules, s) && SlotsExact(rules, s) && Current(s)
    requires RecordStays(s, a) && LetterStays(s, a) && JobOpen(s, a)
    ensures SlotsExact(rules, Act(rules, s, a))
  {
    var s' := Act(rules, s, a);
    if a.Recover? || a.Promote? || a.Claim? || a.Renew? { QueueAccounts(rules, s, a); SlotsFrame(rules, s, s'); }
    else if a.AckJob? || a.RetryJob? || a.Crash? { ReportAccounts(rules, s, a); SlotsFrame(rules, s, s'); }
    else if a.ListLetters? || a.ReadLetter? || a.RemoveLetter? { LetterAccounts(rules, s, a); SlotsFrame(rules, s, s'); }
    else if a.Begin? { BeginSlots(rules, s, a.w); }
    else if a.Succeed? { SucceedSlots(rules, s, a.w, a.report); }
    else if a.Fail? { FailSlots(rules, s, a.w); }
    else if a.GiveUp? { GiveUpSlots(rules, s, a.w); }
    else if a.Look? { LookAccounts(s, a.r, a.who, a.id, a.approve); SlotsFrame(rules, s, s'); }
    else if a.Fetch? { FetchAccounts(s, a.r); SlotsFrame(rules, s, s'); }
    else if a.Decide? { DecideSlots(rules, s, a.r); }
    else { SubmissionSlots(rules, s, a); }
  }

  /** Whenever an undisturbed step gives a slot back, there is one: the floor at zero never fires. */
  lemma FloorNeverFires(rules: Rules, s: Sys, a: Action)
    requires Coupled(rules, s) && SlotsExact(rules, s) && Current(s) && RecordStays(s, a) && LetterStays(s, a)
    ensures GivesBack(rules, s, a).Some? ==> SlotOf(s.slots, GivesBack(rules, s, a).value) > 0
  {
    var g := GivesBack(rules, s, a);
    if g.Some? {
      Covered(rules, s, g.value);
      if a.SubRelease? || a.SubGiveUp? {
        assert a.k in OwnersOf(s.subs, g.value);
      } else {
        assert WorkerOk(rules, s, a.w) && WorkAt(s, a.w);
        var pc := PcOf(s, a.w);
        var e := if pc.Working? then pc.e else pc.todo[0];
        if !pc.Working? { assert LetterOk(rules, s, e); }
        TenantAgrees(rules, s, e);
        assert e.jobId in ActiveOf(s.jobs, g.value);
      }
    }
  }

  lemma {:induction false} RunCoupled(rules: Rules, s: Sys, actions: seq<Action>)
    requires Coupled(rules, s) && AllLeasesHold(rules, s, actions)
    ensures Coupled(rules, ActAll(rules, s, actions))
    decreases |actions|
  {
    if actions != [] {
      StepCoupled(rules, s, actions[0]);
      RunCoupled(rules, Act(rules, s, actions[0]), actions[1..]);
    }
  }

  lemma {:induction false} RunExact(rules: Rules, s: Sys, actions: seq<Action>)
    requires Coupled(rules, s) && SlotsExact(rules, s) && Current(s) && AllLeasesHold(rules, s, actions)
    requires AllRecordsStay(rules, s, actions) && AllLettersStay(rules, s, actions) && AllOpen(rules, s, actions)
    ensures SlotsExact(rules, ActAll(rules, s, actions)) && Current(ActAll(rules, s, actions))
    decreases |actions|
  {
    if actions != [] {
      StepCoupled(rules, s, actions[0]);
      StepSlots(rules, s, actions[0]);
      StepCurrent(rules, s, actions[0]);
      RunExact(rules, Act(rules, s, actions[0]), actions[1..]);
    }
  }

  /** A submission writes or drops the record of a job that was never accepted. */
  lemma EarlyCurrent(rules: Rules, s: Sys, s': Sys, x: Id)
    requires Coupled(rules, s) && Current(s) && x !in s.h.origin
    requires s'.workers == s.workers && s'.reviews == s.reviews
    requires forall id :: id != x ==> (id in s'.jobs <==> id in s.jobs) && (id in s.jobs ==> s'.jobs[id] == s.jobs[id])
    ensures Current(s')
  {
    DeletedUnused(rules, s, x);
    forall w ensures WorkAt(s', w) { assert WorkAt(s, w) && !HoldsJob(PcOf(s, w), x); }
    forall r ensures RestAt(s', r) { assert RestAt(s, r) && ReviewOk(s, r); }
  }

  lemma CreateCurrent(rules: Rules, s: Sys, k: nat)
    requires Coupled(rules, s) && Current(s)
    ensures Current(RecordSet(s, k))
  {
    CreateShape(s, k);
    if At(s, k, HasSlot) && s.subs[k].id !in s.jobs {
      assert JobOk(rules, s, s.subs[k].id);
      EarlyCurrent(rules, s, RecordSet(s, k), s.subs[k].id);
    } else {
      OneMovesCurrent(s, RecordSet(s, k), 0);
    }
  }

  lemma DeleteCurrent(rules: Rules, s: Sys, k: nat)
    requires Coupled(rules, s) && Current(s)
    ensures Current(RecordDropped(s, k))
  {
    DropShape(s, k);
    if At(s, k, Refused) {
      assert SubOk(s, k);
      EarlyCurrent(rules, s, RecordDropped(s, k), s.subs[k].id);
    } else {
      OneMovesCurrent(s, RecordDropped(s, k), 0);
    }
  }

  /** What the steps of submissions leave alone. */
  predicate SameWork(s: Sys, s': Sys) {
    s'.workers == s.workers && s'.reviews == s.reviews && s'.results == s.results
  }

  lemma CreateShape(s: Sys, k: nat)
    ensures var s' := RecordSet(s, k);
      && SameWork(s, s') && s'.h == s.h
      && (if At(s, k, HasSlot) && s.subs[k].id !in s.jobs
          then s.subs[k].id in s'.jobs && s'.jobs == s.jobs[s.subs[k].id := s'.jobs[s.subs[k].id]]
          else s'.jobs == s.jobs)
  {
  }

  lemma DropShape(s: Sys, k: nat)
    ensures var s' := RecordDropped(s, k);
      SameWork(s, s') && s'.jobs == if At(s, k, Refused) then s.jobs - {s.subs[k].id} else s.jobs
  {
  }

  lemma EnqueueShape(rules: Rules, s: Sys, k: nat, now: real)
    ensures var s' := JobEnqueued(rules, s, k, now); SameWork(s, s') && s'.jobs == s.jobs
  {
  }

  lemma ReleaseShape(s: Sys, k: nat, from: SubPc, to: SubPc)
    ensures var s' := SlotReleased(s, k, from, to); SameWork(s, s') && s'.jobs == s.jobs
  {
  }

  lemma ReadShape(rules: Rules, s: Sys, a: Action)
    requires a.Submit? || a.SubRead? || a.SubAcquire? || a.SubReread?
    ensures SameWork(s, Act(rules, s, a)) && Act(rules, s, a).jobs == s.jobs
  {
  }

  lemma SubShape(rules: Rules, s: Sys, a: Action)
    requires a.Submit? || a.SubRead? || a.SubAcquire? || a.SubRelease? || a.SubReread? || a.SubReleaseAgain?
             || a.SubEnqueue? || a.SubGiveUp?
    ensures SameWork(s, Act(rules, s, a)) && Act(rules, s, a).jobs == s.jobs
  {
    match a
    case SubRelease(k) => ReleaseShape(s, k, LostRace, Released);
    case SubReleaseAgain(k) => ReleaseShape(s, k, Vanished, Done(Unavailable));
    case SubGiveUp(k) => ReleaseShape(s, k, Deleted, Done(QueueRejected));
    case SubEnqueue(k, now) => EnqueueShape(rules, s, k, now);
    case _ => ReadShape(rules, s, a);
  }

  lemma SubCurrent(rules: Rules, s: Sys, a: Action)
    requires Current(s) && (a.Submit? || a.SubRead? || a.SubAcquire? || a.SubRelease? || a.SubReread?
                            || a.SubReleaseAgain? || a.SubEnqueue? || a.SubGiveUp?)
    ensures Current(Act(rules, s, a))
  {
    SubShape(rules, s, a);
    OneMovesCurrent(s, Act(rules, s, a), 0);
  }

  /** Records and reviews stay; at most one worker moves, and not to work. */
  predicate OneMoves(s: Sys, s': Sys, w: nat) {
    && s'.jobs == s.jobs && s'.reviews == s.reviews
    && (s'.workers == s.workers || (s'.workers == s.workers[w := PcOf(s', w)] && !PcOf(s', w).Working?))
  }

  lemma OneMovesCurrent(s: Sys, s': Sys, w: nat)
    requires Current(s) && OneMoves(s, s', w)
    ensures Current(s')
  {
    CurrentFrame(s, s');
  }

  lemma ClaimMoves(rules: Rules, s: Sys, w: nat, now: real)
    ensures var s' := JobClaimed(rules, s, w, now); OneMoves(s, s', w) && s'.results == s.results
    ensures PcOf(JobClaimed(rules, s, w, now), w) == PcOf(s, w) || PcOf(JobClaimed(rules, s, w, now), w).Claimed?
  {
    var got := Handed(rules.cfg, s.h.m, DoTake(now));
    if PcOf(s, w).Free? && got != [] {
      assert JobClaimed(rules, s, w, now).workers == s.workers[w := Claimed(got[0])];
    }
  }

  lemma AckMoves(rules: Rules, s: Sys, w: nat)
    ensures var s' := Acked(rules, s, w); OneMoves(s, s', w) && s'.results == s.results
  {
  }

  lemma RetryMoves(rules: Rules, s: Sys, w: nat, error: string, now: real)
    ensures var s' := Retried(rules, s, w, error, now); OneMoves(s, s', w) && s'.results == s.results
  {
  }

  lemma CrashMoves(rules: Rules, s: Sys, w: nat)
    ensures var s' := Crashed(rules, s, w); OneMoves(s, s', w) && s'.results == s.results
  {
  }

  lemma ListMoves(s: Sys, w: nat)
    ensures var s' := LettersListed(s, w); OneMoves(s, s', w) && s'.results == s.results
  {
  }

  lemma ReadMoves(s: Sys, w: nat)
    ensures var s' := LetterRead(s, w); OneMoves(s, s', w) && s'.results == s.results
  {
  }

  lemma RemoveMoves(rules: Rules, s: Sys, w: nat)
    ensures var s' := LetterRemoved(rules, s, w); OneMoves(s, s', w) && s'.results == s.results
  {
  }

  /** The worker that a step is about. */
  function WorkerOf(a: Action): nat {
    if a.Claim? || a.Renew? || a.Begin? || a.Succeed? || a.Fail? || a.AckJob? || a.RetryJob? || a.Crash?
       || a.ListLetters? || a.ReadLetter? || a.GiveUp? || a.RemoveLetter? then a.w else 0
  }

  lemma QueueMoves(rules: Rules, s: Sys, a: Action)
    requires a.Recover? || a.Promote? || a.Claim? || a.Renew?
    ensures var s' := Act(rules, s, a); OneMoves(s, s', WorkerOf(a)) && s'.results == s.results
  {
    match a
    case Claim(w, now) => ClaimMoves(rules, s, w, now);
    case Renew(w, until) => RenewMoves(rules, s, w, until);
    case _ =>
  }

  lemma RenewMoves(rules: Rules, s: Sys, w: nat, until: real)
    ensures var s' := LeaseRenewed(rules, s, w, until); OneMoves(s, s', w) && s'.results == s.results
  {
    assert LeaseRenewed(rules, s, w, until) == s.(h := LeaseRenewed(rules, s, w, until).h);
  }

  lemma ReportMoves(rules: Rules, s: Sys, a: Action)
    requires a.AckJob? || a.RetryJob? || a.Crash?
    ensures var s' := Act(rules, s, a); OneMoves(s, s', WorkerOf(a)) && s'.results == s.results
  {
    match a
    case AckJob(w) => AckMoves(rules, s, w);
    case RetryJob(w, error, now) => RetryMoves(rules, s, w, error, now);
    case Crash(w) => CrashMoves(rules, s, w);
  }

  lemma LetterMoves(rules: Rules, s: Sys, a: Action)
    requires a.ListLetters? || a.ReadLetter? || a.RemoveLetter?
    ensures var s' := Act(rules, s, a); OneMoves(s, s', WorkerOf(a)) && s'.results == s.results
  {
    match a
    case ListLetters(w) => ListMoves(s, w);
    case ReadLetter(w) => ReadMoves(s, w);
    case RemoveLetter(w) => RemoveMoves(rules, s, w);
  }

  lemma BeginCurrent(rules: Rules, s: Sys, w: nat)
    requires Coupled(rules, s) && Current(s) && JobOpen(s, Begin(w))
    ensures Current(Begun(s, w))
  {
    var s', pc := Begun(s, w), PcOf(s, w);
    if pc.Claimed? {
      var x := pc.e.jobId;
      OneHolder(rules, s, w, x);
      forall v ensures WorkAt(s', v) {
        assert WorkAt(s, v) && (v != w ==> !HoldsJob(PcOf(s, v), x));
      }
      forall r ensures RestAt(s', r) { assert RestAt(s, r); }
    } else {
      assert s' == s;
    }
  }

  /** The end of processing: the job's record, which had no open review, is not the worker's any more. */
  lemma FinalCurrent(rules: Rules, s: Sys, s': Sys, w: nat)
    requires Coupled(rules, s) && Current(s) && PcOf(s, w).Working? && PcOf(s', w).Finished?
    requires var x := PcOf(s, w).e.jobId;
      s' == s.(workers := s.workers[w := PcOf(s', w)], jobs := s'.jobs, results := s'.results, slots := s'.slots)
      && x in s'.jobs && s'.jobs == s.jobs[x := s'.jobs[x]]
    ensures Current(s')
  {
    var x := PcOf(s, w).e.jobId;
    OneHolder(rules, s, w, x);
    assert WorkAt(s, w) && WorkerOk(rules, s, w);
    forall v | PcOf(s', v).Working? ensures PcOf(s', v).e.jobId != x {
      assert v != w && !HoldsJob(PcOf(s, v), x);
    }
    forall r <- s'.reviews.Keys ensures s'.reviews[r].id != x { assert RestAt(s, r); }
    CurrentKept(s, s', x);
  }

  lemma ProcessedCurrent(rules: Rules, s: Sys, a: Action)
    requires Coupled(rules, s) && Current(s) && (a.Succeed? || a.Fail?)
    ensures Current(Act(rules, s, a))
  {
    if PcOf(s, a.w).Working? { FinalCurrent(rules, s, Act(rules, s, a), a.w); }
  }

  lemma GiveUpCurrent(rules: Rules, s: Sys, w: nat)
    requires Coupled(rules, s) && Current(s)
    ensures Current(GivenUp(s, w))
  {
    var s', pc := GivenUp(s, w), PcOf(s, w);
    assert WorkerOk(rules, s, w);
    if pc.Closing? {
      var x := pc.todo[0].jobId;
      assert LetterOk(rules, s, pc.todo[0]);
      NotHeld(rules, s, x);
      forall v | PcOf(s', v).Working? ensures PcOf(s', v).e.jobId != x { assert !HoldsJob(PcOf(s, v), x); }
      CurrentKept(s, s', x);
    } else {
      CurrentFrame(s, s');
    }
  }

  lemma LookCurrent(s: Sys, r: nat, who: Principal, id: Id, approve: bool)
    requires Current(s)
    ensures Current(ReviewOpened(s, r, who, id, approve))
  {
    var s' := ReviewOpened(s, r, who, id, approve);
    LookShape(s, r, who, id, approve);
    forall w ensures WorkAt(s', w) { assert WorkAt(s, w); }
    forall v ensures RestAt(s', v) { assert RestAt(s, v); }
  }

  lemma FetchCurrent(s: Sys, r: nat)
    requires Current(s)
    ensures Current(ReportFetched(s, r))
  {
    FetchShape(s, r);
    forall v <- ReportFetched(s, r).reviews.Keys
      ensures v in s.reviews && ReportFetched(s, r).reviews[v].id == s.reviews[v].id {}
    CurrentFrame(s, ReportFetched(s, r));
  }

  lemma DecideCurrent(rules: Rules, s: Sys, r: nat)
    requires Coupled(rules, s) && Current(s)
    ensures Current(DecisionWritten(s, r))
  {
    var s' := DecisionWritten(s, r);
    if r in s.reviews && s.reviews[r].Decided? {
      var x := s.reviews[r].id;
      assert ReviewOk(s, r) && RestAt(s, r);
      forall v | PcOf(s', v).Working? ensures PcOf(s', v).e.jobId != x { assert WorkAt(s, v) && WorkerOk(rules, s, v); }
      CurrentKept(s, s', x);
    }
  }

  lemma StepCurrent(rules: Rules, s: Sys, a: Action)
    requires Coupled(rules, s) && Current(s) && JobOpen(s, a)
    ensures Current(Act(rules, s, a))
  {
    var s' := Act(rules, s, a);
    if a.Recover? || a.Promote? || a.Claim? || a.Renew? { QueueMoves(rules, s, a); OneMovesCurrent(s, s', WorkerOf(a)); }
    else if a.AckJob? || a.RetryJob? || a.Crash? { ReportMoves(rules, s, a); OneMovesCurrent(s, s', WorkerOf(a)); }
    else if a.ListLetters? || a.ReadLetter? || a.RemoveLetter? {
      LetterMoves(rules, s, a);
      OneMovesCurrent(s, s', WorkerOf(a));
    }
    else if a.Begin? { BeginCurrent(rules, s, a.w); }
    else if a.Succeed? || a.Fail? { ProcessedCurrent(rules, s, a); }
    else if a.GiveUp? { GiveUpCurrent(rules, s, a.w); }
    else if a.Look? { LookCurrent(s, a.r, a.who, a.id, a.approve); }
    else if a.Fetch? { FetchCurrent(s, a.r); }
    else if a.Decide? { DecideCurrent(rules, s, a.r); }
    else if a.SubCreate? { CreateCurrent(rules, s, a.k); }
    else if a.SubDelete? { DeleteCurrent(rules, s, a.k); }
    else { SubCurrent(rules, s, a); }
  }

  /** A job whose record is active is somewhere in the queue, or a submission is about to enqueue it. */
  lemma ActiveJobsAreLive(rules: Rules, s: Sys, id: Id)
    requires Coupled(rules, s) && id in s.jobs && Active(s.jobs[id].status)
    ensures PlaceOf(s.h.m, id) != Gone
            || (id in s.creator && s.creator[id] in s.subs && s.subs[s.creator[id]].id == id
                && (s.subs[s.creator[id]].pc.Created? || s.subs[s.creator[id]].pc.Refused?))
  {
    assert JobOk(rules, s, id);
  }

  lemma InitialExact(rules: Rules, left: map<Id, real>)
    ensures SlotsExact(rules, Initial(left)) && Current(Initial(left))
  {
    forall t ensures SlotExact(Initial(left), t) {
      assert ActiveOf(map[], t) == {} && OwnersOf(map[], t) == {};
    }
  }

  /** Slot conservation over whole runs of any number of submissions, workers and reconcilers with crashes
      anywhere, as long as nothing disturbs the accounts. */
  lemma SlotConservation(rules: Rules, left: map<Id, real>, actions: seq<Action>, t: Tenant)
    requires AllLeasesHold(rules, Initial(left), actions) && AllRecordsStay(rules, Initial(left), actions)
    requires AllLettersStay(rules, Initial(left), actions) && AllOpen(rules, Initial(left), actions)
    ensures var s := ActAll(rules, Initial(left), actions);
      && SlotOf(s.slots, t) == |ActiveOf(s.jobs, t)| + |OwnersOf(s.subs, t)|
      && SlotOf(s.slots, t) <= rules.limit
  {
    InitialCoupled(rules, left);
    InitialExact(rules, left);
    RunExact(rules, Initial(left), actions);
    assert SlotExact(ActAll(rules, Initial(left), actions), t);
  }

  // The disturbances, exactly.

  /** Beginning a job keeps all accounts exact if and only if its record is active. */
  lemma BeginExactly(rules: Rules, s: Sys, w: nat)
    requires Coupled(rules, s) && SlotsExact(rules, s) && PcOf(s, w).Claimed?
    ensures var id := PcOf(s, w).e.jobId;
      id in s.jobs && (SlotsExact(rules, Begun(s, w)) <==> Active(s.jobs[id].status))
  {
    assert WorkerOk(rules, s, w);
    var s', id := Begun(s, w), PcOf(s, w).e.jobId;
    if Active(s.jobs[id].status) {
      BeginSlots(rules, s, w);
    } else {
      var t := s.jobs[id].tenant;
      assert SlotExact(s, t);
      assert s'.jobs == s.jobs[id := s'.jobs[id]];
      JobWritten(s.jobs, id, s'.jobs[id], t);
      assert !SlotExact(s', t);
    }
  }

  /** Closing a job keeps all accounts exact if and only if its record is still active, or its tenant's count
      is zero anyway. */
  lemma GiveUpExactly(rules: Rules, s: Sys, w: nat)
    requires Coupled(rules, s) && SlotsExact(rules, s) && PcOf(s, w).Closing?
    ensures PcOf(s, w).todo != []
    ensures var e := PcOf(s, w).todo[0];
      e.jobId in s.jobs
      && (SlotsExact(rules, GivenUp(s, w)) <==>
            Active(s.jobs[e.jobId].status) || SlotOf(s.slots, e.payload.tenant) == 0)
  {
    assert WorkerOk(rules, s, w);
    var s', e := GivenUp(s, w), PcOf(s, w).todo[0];
    if Active(s.jobs[e.jobId].status) {
      GiveUpSlots(rules, s, w);
    } else {
      TenantAgrees(rules, s, e);
      forall t ensures |ActiveOf(s'.jobs, t)| == |ActiveOf(s.jobs, t)| {
        JobWritten(s.jobs, e.jobId, s'.jobs[e.jobId], t);
      }
      assert SlotExact(s, e.payload.tenant);
      if SlotOf(s.slots, e.payload.tenant) == 0 {
        forall t ensures SlotExact(s', t) && SlotOf(s'.slots, t) <= rules.limit { assert SlotExact(s, t); }
      } else {
        assert !SlotExact(s', e.payload.tenant);
      }
    }
  }

  /** A decision keeps all accounts exact if and only if it does not fall on an active record. */
  lemma DecideExactly(rules: Rules, s: Sys, r: nat)
    requires Coupled(rules, s) && SlotsExact(rules, s) && r in s.reviews && s.reviews[r].Decided?
    ensures var id := s.reviews[r].id;
      id in s.jobs && (SlotsExact(rules, DecisionWritten(s, r)) <==> !Active(s.jobs[id].status))
  {
    assert ReviewOk(s, r);
    var s', id := DecisionWritten(s, r), s.reviews[r].id;
    if Active(s.jobs[id].status) {
      var t := s.jobs[id].tenant;
      assert SlotExact(s, t);
      JobWritten(s.jobs, id, s'.jobs[id], t);
      assert !SlotExact(s', t);
    } else {
      DecideSlots(rules, s, r);
    }
  }

  /** A submission that lost the race reads the winner's record and, if it is gone, gives its slot back a
      second time. These two steps keep the accounts exact if and only if the record is still there, or the
      tenant's count is zero anyway. */
  lemma RereadExactly(rules: Rules, s: Sys, k: nat)
    requires Coupled(rules, s) && SlotsExact(rules, s) && At(s, k, Released)
    ensures var s1 := Reread(s, k); var s2 := SlotReleased(s1, k, Vanished, Done(Unavailable));
      SlotsExact(rules, s2) <==> s.subs[k].id in s.jobs || SlotOf(s.slots, s.subs[k].payload.tenant) == 0
  {
    var s1 := Reread(s, k);
    var s2 := SlotReleased(s1, k, Vanished, Done(Unavailable));
    var t := s.subs[k].payload.tenant;
    assert SlotExact(s, t);
    SubWritten(s.subs, k, s1.subs[k], t);
    SubWritten(s1.subs, k, s2.subs[k], t);
    SubSlots(rules, s, s1, k);
    if s.subs[k].id in s.jobs || SlotOf(s.slots, t) == 0 {
      SubSlots(rules, s1, s2, k);
    } else {
      assert !SlotExact(s2, t);
    }
  }
}
