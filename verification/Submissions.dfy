/** Submissions on a queue without leftover markers: the race for one job id has one winner. */
module Submissions {
  import opened Basics
  import opened Envelopes
  import opened QueueSpec
  import opened QueueInvariant
  import opened QueueRuns
  import opened Protocol
  import opened ProtocolInvariant
  import opened ProtocolRuns

  /** Every marker belongs to an accepted job, and no submission was refused or lost its winner. */
  predicate FreshSub(s: Sys, k: nat) {
    k in s.subs ==>
      var id, pc := s.subs[k].id, s.subs[k].pc;
      && !pc.Refused? && !pc.Deleted? && !pc.Vanished?
      && pc != Done(QueueRejected) && pc != Done(Unavailable)
      && (pc.LostRace? || pc.Released? || pc == Done(Existing) ==> id in s.jobs)
  }

  ghost predicate NoLeftovers(s: Sys) {
    && (forall id <- s.h.m.known.Keys :: id in s.h.origin)
    && (forall k :: FreshSub(s, k))
  }

  /** The clock is not before its epoch: a missing marker counts as expired at 0. */
  predicate ClockOk(a: Action) {
    a.SubEnqueue? ==> a.now >= 0.0
  }

  predicate AllClocksOk(actions: seq<Action>) {
    forall a <- actions :: ClockOk(a)
  }

  lemma KnownKept(cfg: Config, h: History, op: Op)
    requires Inv(cfg, h.m) && !op.DoEnqueue?
    ensures Apply(cfg, h.m, op).known == h.m.known
  {
    match op
    case DoRecover(now) => RecoverStaleKeeps(cfg, h.m, now);
    case DoPromote(now) => PromoteDueKeeps(cfg, h.m, now);
    case _ =>
  }

  lemma EnqueueFresh(rules: Rules, s: Sys, k: nat, now: real)
    requires Coupled(rules, s) && NoLeftovers(s) && now >= 0.0
    ensures NoLeftovers(JobEnqueued(rules, s, k, now))
  {
    var s' := JobEnqueued(rules, s, k, now);
    assert SubOk(s, k);
    if At(s, k, Created) {
      assert s.subs[k].id !in s.h.m.known;
      assert Accepts(rules.cfg, s.h.m, DoEnqueue(s.subs[k].id, s.subs[k].payload, now));
      forall j ensures FreshSub(s', j) { assert FreshSub(s, j); }
    }
  }

  /** Steps that leave queue markers and submissions alone, and drop no record. */
  lemma FrameFresh(s: Sys, s': Sys)
    requires NoLeftovers(s) && KeepsRecords(s, s')
    ensures NoLeftovers(s')
  {
    forall k ensures FreshSub(s', k) {
      assert FreshSub(s, k);
      if k in s.subs && s.subs[k].id in s.jobs { assert s.subs[k].id in s.jobs.Keys; }
    }
  }

  /** A submission step other than the enqueue, given what became of the submission. */
  lemma SubFresh(s: Sys, s': Sys, k: nat)
    requires NoLeftovers(s) && s'.h == s.h && forall id <- s.jobs.Keys :: id in s'.jobs
    requires k in s'.subs && s'.subs == s.subs[k := s'.subs[k]] && FreshSub(s', k)
    ensures NoLeftovers(s')
  {
    forall j ensures FreshSub(s', j) {
      assert FreshSub(s, j);
      if j in s.subs && s.subs[j].id in s.jobs { assert s.subs[j].id in s.jobs.Keys; }
    }
  }

  lemma ReadFresh(rules: Rules, s: Sys, a: Action)
    requires NoLeftovers(s) && (a.Submit? || a.SubRead? || a.SubReread? || a.SubDelete?)
    ensures NoLeftovers(Act(rules, s, a))
  {
    var s' := Act(rules, s, a);
    assert FreshSub(s, a.k);
    if s' != s { SubFresh(s, s', a.k); }
  }

  lemma SlotFresh(rules: Rules, s: Sys, a: Action)
    requires NoLeftovers(s) && (a.SubAcquire? || a.SubRelease? || a.SubReleaseAgain? || a.SubGiveUp?)
    ensures NoLeftovers(Act(rules, s, a))
  {
    var s' := Act(rules, s, a);
    assert FreshSub(s, a.k);
    if s' != s { SubFresh(s, s', a.k); }
  }

  lemma CreateSub(s: Sys, k: nat)
    requires At(s, k, HasSlot)
    ensures var s', sub := RecordSet(s, k), s.subs[k];
      k in s'.subs && s'.subs == s.subs[k := s'.subs[k]]
      && s'.subs[k] == sub.(pc := if sub.id in s.jobs then LostRace else Created)
  {
    var pc := if s.subs[k].id in s.jobs then LostRace else Created;
    assert RecordSet(s, k).subs == SubTo(s.subs, k, pc);
  }

  lemma CreateFresh(s: Sys, k: nat)
    requires NoLeftovers(s)
    ensures NoLeftovers(RecordSet(s, k))
  {
    CreateShape(s, k);
    if At(s, k, HasSlot) {
      CreateSub(s, k);
      SubFresh(s, RecordSet(s, k), k);
    }
  }

  lemma LeaseFresh(rules: Rules, s: Sys, op: Op)
    requires Coupled(rules, s) && NoLeftovers(s) && !op.DoEnqueue?
    ensures NoLeftovers(QueueOp(rules, s, op))
  {
    KnownKept(rules.cfg, s.h, op);
    FrameFresh(s, QueueOp(rules, s, op));
  }

  lemma ClaimFresh(rules: Rules, s: Sys, w: nat, now: real)
    requires NoLeftovers(s)
    ensures NoLeftovers(JobClaimed(rules, s, w, now))
  {
    FrameFresh(s, JobClaimed(rules, s, w, now));
  }

  predicate KeepsRecords(s: Sys, s': Sys) {
    s'.h.m.known == s.h.m.known && s'.h.origin == s.h.origin && s'.subs == s.subs
    && forall id <- s.jobs.Keys :: id in s'.jobs
  }

  lemma BeginKeeps(s: Sys, w: nat)
    ensures KeepsRecords(s, Begun(s, w))
  {
  }

  lemma BeginFresh(s: Sys, w: nat)
    requires NoLeftovers(s)
    ensures NoLeftovers(Begun(s, w))
  {
    var s' := Begun(s, w);
    if PcOf(s, w).Claimed? {
      BeginKeeps(s, w);
      FrameFresh(s, s');
    }
  }

  lemma SucceedFresh(rules: Rules, s: Sys, w: nat, report: Option<Json>)
    requires NoLeftovers(s)
    ensures NoLeftovers(Succeeded(rules, s, w, report))
  {
    FrameFresh(s, Succeeded(rules, s, w, report));
  }

  lemma FailFresh(rules: Rules, s: Sys, w: nat)
    requires NoLeftovers(s)
    ensures NoLeftovers(FailedOnce(rules, s, w))
  {
    FrameFresh(s, FailedOnce(rules, s, w));
  }

  lemma CrashFresh(rules: Rules, s: Sys, w: nat)
    requires NoLeftovers(s)
    ensures NoLeftovers(Crashed(rules, s, w))
  {
    FrameFresh(s, Crashed(rules, s, w));
  }

  lemma AckFresh(rules: Rules, s: Sys, w: nat)
    requires NoLeftovers(s)
    ensures NoLeftovers(Acked(rules, s, w))
  {
    FrameFresh(s, Acked(rules, s, w));
  }

  lemma RetryFresh(rules: Rules, s: Sys, w: nat, error: string, now: real)
    requires NoLeftovers(s)
    ensures NoLeftovers(Retried(rules, s, w, error, now))
  {
    FrameFresh(s, Retried(rules, s, w, error, now));
  }

  lemma ListFresh(s: Sys, w: nat)
    requires NoLeftovers(s)
    ensures NoLeftovers(LettersListed(s, w))
  {
    FrameFresh(s, LettersListed(s, w));
  }

  lemma ReadLetterFresh(s: Sys, w: nat)
    requires NoLeftovers(s)
    ensures NoLeftovers(LetterRead(s, w))
  {
    assert LetterRead(s, w) == s.(workers := LetterRead(s, w).workers);
    FrameFresh(s, LetterRead(s, w));
  }

  lemma GiveUpFresh(s: Sys, w: nat)
    requires NoLeftovers(s)
    ensures NoLeftovers(GivenUp(s, w))
  {
    var s' := GivenUp(s, w);
    assert s' == s.(workers := s'.workers, jobs := s'.jobs, slots := s'.slots) && s.jobs.Keys <= s'.jobs.Keys;
    FrameFresh(s, s');
  }

  lemma RemoveFresh(rules: Rules, s: Sys, w: nat)
    requires NoLeftovers(s)
    ensures NoLeftovers(LetterRemoved(rules, s, w))
  {
    FrameFresh(s, LetterRemoved(rules, s, w));
  }

  lemma LookFresh(s: Sys, r: nat, who: Principal, id: Id, approve: bool)
    requires NoLeftovers(s)
    ensures NoLeftovers(ReviewOpened(s, r, who, id, approve))
  {
    FrameFresh(s, ReviewOpened(s, r, who, id, approve));
  }

  lemma FetchFresh(s: Sys, r: nat)
    requires NoLeftovers(s)
    ensures NoLeftovers(ReportFetched(s, r))
  {
    FrameFresh(s, ReportFetched(s, r));
  }

  lemma DecideFresh(s: Sys, r: nat)
    requires NoLeftovers(s)
    ensures NoLeftovers(DecisionWritten(s, r))
  {
    FrameFresh(s, DecisionWritten(s, r));
  }

  lemma StepFresh(rules: Rules, s: Sys, a: Action)
    requires Coupled(rules, s) && NoLeftovers(s) && ClockOk(a)
    ensures NoLeftovers(Act(rules, s, a)) && RecordStays(s, a)
  {
    if a.SubReleaseAgain? { assert FreshSub(s, a.k); }
    if a.SubEnqueue? { EnqueueFresh(rules, s, a.k, a.now); }
    else if a.Submit? || a.SubRead? || a.SubReread? || a.SubDelete? { ReadFresh(rules, s, a); }
    else if a.SubAcquire? || a.SubRelease? || a.SubReleaseAgain? || a.SubGiveUp? { SlotFresh(rules, s, a); }
    else if a.SubCreate? { CreateFresh(s, a.k); }
    else if a.Recover? { LeaseFresh(rules, s, DoRecover(a.now)); }
    else if a.Promote? { LeaseFresh(rules, s, DoPromote(a.now)); }
    else if a.Renew? { if Holds(PcOf(s, a.w)) { LeaseFresh(rules, s, DoRenew(PcOf(s, a.w).e.jobId, a.until)); } }
    else if a.Claim? { ClaimFresh(rules, s, a.w, a.now); }
    else if a.Begin? { BeginFresh(s, a.w); }
    else if a.Succeed? { SucceedFresh(rules, s, a.w, a.report); }
    else if a.Fail? { FailFresh(rules, s, a.w); }
    else if a.Crash? { CrashFresh(rules, s, a.w); }
    else if a.AckJob? { AckFresh(rules, s, a.w); }
    else if a.RetryJob? { RetryFresh(rules, s, a.w, a.error, a.now); }
    else if a.ListLetters? { ListFresh(s, a.w); }
    else if a.ReadLetter? { ReadLetterFresh(s, a.w); }
    else if a.GiveUp? { GiveUpFresh(s, a.w); }
    else if a.RemoveLetter? { RemoveFresh(rules, s, a.w); }
    else if a.Look? { LookFresh(s, a.r, a.who, a.id, a.approve); }
    else if a.Fetch? { FetchFresh(s, a.r); }
    else { DecideFresh(s, a.r); }
  }

  lemma {:induction false} RunFresh(rules: Rules, s: Sys, actions: seq<Action>)
    requires Coupled(rules, s) && NoLeftovers(s) && AllLeasesHold(rules, s, actions) && AllClocksOk(actions)
    ensures AllRecordsStay(rules, s, actions)
    ensures var s' := ActAll(rules, s, actions); Coupled(rules, s') && NoLeftovers(s')
    decreases |actions|
  {
    if actions != [] {
      StepFresh(rules, s, actions[0]);
      StepCoupled(rules, s, actions[0]);
      RunFresh(rules, Act(rules, s, actions[0]), actions[1..]);
    }
  }

  /** Without leftover markers no record vanishes, so submissions do not disturb the slot accounts. */
  lemma FreshConservation(rules: Rules, actions: seq<Action>, t: Tenant)
    requires AllLeasesHold(rules, Initial(map[]), actions) && AllClocksOk(actions)
    requires AllLettersStay(rules, Initial(map[]), actions) && AllOpen(rules, Initial(map[]), actions)
    ensures var s := ActAll(rules, Initial(map[]), actions);
      && SlotOf(s.slots, t) == |ActiveOf(s.jobs, t)| + |OwnersOf(s.subs, t)|
      && SlotOf(s.slots, t) <= rules.limit
  {
    InitialCoupled(rules, map[]);
    RunFresh(rules, Initial(map[]), actions);
    SlotConservation(rules, map[], actions, t);
  }

  // Submissions on their own.

  /** No worker, reconciler or reviewer acts. */
  predicate Unworked(a: Action) {
    a.Submit? || a.SubRead? || a.SubAcquire? || a.SubCreate? || a.SubRelease? || a.SubReread? || a.SubReleaseAgain?
    || a.SubEnqueue? || a.SubDelete? || a.SubGiveUp? || a.Recover? || a.Promote?
  }

  predicate AllUnworked(actions: seq<Action>) {
    forall a <- actions :: Unworked(a)
  }

  predicate AllPending(s: Sys) {
    s.holder == map[] && forall id <- s.jobs.Keys :: s.jobs[id].status.Pending?
  }

  lemma RecordPending(s: Sys, k: nat)
    requires AllPending(s)
    ensures AllPending(RecordSet(s, k)) && AllPending(RecordDropped(s, k))
  {
  }

  lemma QueuePending(rules: Rules, s: Sys, a: Action)
    requires AllPending(s) && (a.Recover? || a.Promote? || a.SubEnqueue?)
    ensures AllPending(Act(rules, s, a))
  {
  }

  lemma StepPending(rules: Rules, s: Sys, a: Action)
    requires AllPending(s) && Unworked(a)
    ensures AllPending(Act(rules, s, a)) && LeasesHold(s, a)
  {
    if a.SubCreate? || a.SubDelete? { RecordPending(s, a.k); }
    else if a.Recover? || a.Promote? || a.SubEnqueue? { QueuePending(rules, s, a); }
  }

  lemma {:induction false} RunPending(rules: Rules, s: Sys, actions: seq<Action>)
    requires AllPending(s) && AllUnworked(actions)
    ensures AllPending(ActAll(rules, s, actions)) && AllLeasesHold(rules, s, actions)
    ensures AllLettersStay(rules, s, actions) && AllOpen(rules, s, actions)
    decreases |actions|
  {
    if actions != [] {
      assert actions[0] in actions;
      StepPending(rules, s, actions[0]);
      RunPending(rules, Act(rules, s, actions[0]), actions[1..]);
    }
  }

  function JobsOf(jobs: map<Id, JobRecord>, t: Tenant): set<Id> {
    set id <- jobs.Keys | jobs[id].tenant == t
  }

  /** All submissions of the tenant have replied. */
  ghost predicate TenantServed(s: Sys, t: Tenant) {
    forall k :: k in s.subs && s.subs[k].payload.tenant == t ==> s.subs[k].pc.Done?
  }

  /** Before any worker acts, and once all its submissions have replied, a tenant has one slot taken for each
      job that was created. */
  lemma OneSlotEach(rules: Rules, actions: seq<Action>, t: Tenant)
    requires AllClocksOk(actions) && AllUnworked(actions)
    ensures var s := ActAll(rules, Initial(map[]), actions);
      TenantServed(s, t) ==> SlotOf(s.slots, t) == |JobsOf(s.jobs, t)|
  {
    var s := ActAll(rules, Initial(map[]), actions);
    RunPending(rules, Initial(map[]), actions);
    FreshConservation(rules, actions, t);
    if TenantServed(s, t) {
      assert OwnersOf(s.subs, t) == {};
      assert ActiveOf(s.jobs, t) == JobsOf(s.jobs, t);
    }
  }

  predicate Won(s: Sys, k: nat, id: Id) {
    At(s, k, Done(Enqueued)) && s.subs[k].id == id
  }

  /** The replies of a submission on a fresh queue. */
  predicate Answered(pc: SubPc) {
    pc == Done(Enqueued) || pc == Done(Existing) || pc == Done(LimitReached)
  }

  /** All submissions of `id` have replied. */
  ghost predicate AllReplied(s: Sys, id: Id) {
    forall k :: k in s.subs && s.subs[k].id == id ==> s.subs[k].pc.Done?
  }

  /** Concurrent submissions of one id, interleaved arbitrarily with working stores, workers that may crash
      anywhere and reconcilers: at most one enqueues;
      once all have replied, either none got a slot and no record exists, or exactly one enqueued the job
      and every other one either found its record or was turned away at the limit. As long as no worker acts,
      the tenant's slots are then the jobs created. */
  lemma OneWinner(rules: Rules, actions: seq<Action>, id: Id, t: Tenant)
    requires AllLeasesHold(rules, Initial(map[]), actions) && AllClocksOk(actions)
    ensures var s := ActAll(rules, Initial(map[]), actions);
      && (forall j, k :: Won(s, j, id) && Won(s, k, id) ==> j == k)
      && (AllReplied(s, id) && id in s.jobs ==>
            id in s.creator && Won(s, s.creator[id], id) && id in s.h.origin)
      && (AllReplied(s, id) && id !in s.jobs ==>
            forall k :: k in s.subs && s.subs[k].id == id ==> s.subs[k].pc == Done(LimitReached))
      && (AllReplied(s, id) ==>
            forall k :: k in s.subs && s.subs[k].id == id ==>
              Answered(s.subs[k].pc))
      && (AllUnworked(actions) && TenantServed(s, t) ==> SlotOf(s.slots, t) == |JobsOf(s.jobs, t)|)
  {
    InitialCoupled(rules, map[]);
    RunFresh(rules, Initial(map[]), actions);
    var s := ActAll(rules, Initial(map[]), actions);
    Outcomes(rules, s, id);
    if AllUnworked(actions) { OneSlotEach(rules, actions, t); }
  }

  lemma Outcomes(rules: Rules, s: Sys, id: Id)
    requires Coupled(rules, s) && NoLeftovers(s)
    ensures forall j, k :: Won(s, j, id) && Won(s, k, id) ==> j == k
    ensures AllReplied(s, id) && id in s.jobs ==>
            id in s.creator && Won(s, s.creator[id], id) && id in s.h.origin
    ensures AllReplied(s, id) && id !in s.jobs ==>
            forall k :: k in s.subs && s.subs[k].id == id ==> s.subs[k].pc == Done(LimitReached)
    ensures AllReplied(s, id) ==> forall k :: k in s.subs && s.subs[k].id == id ==> Answered(s.subs[k].pc)
  {
    assert JobOk(rules, s, id);
    forall j, k | Won(s, j, id) && Won(s, k, id) ensures j == k
    {
      assert SubOk(s, j) && SubOk(s, k);
    }
    if AllReplied(s, id) {
      forall k | k in s.subs && s.subs[k].id == id
        ensures Answered(s.subs[k].pc)
        ensures id !in s.jobs ==> s.subs[k].pc == Done(LimitReached)
      {
        assert FreshSub(s, k) && SubOk(s, k);
        match s.subs[k].pc.outcome
        case Enqueued =>
        case Existing =>
        case _ =>
      }
    }
  }
}
