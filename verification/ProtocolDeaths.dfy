/** Workers that die: which deaths disturb the accounts, and that each of these can. */
module ProtocolDeaths {
  import opened Basics
  import opened Envelopes
  import opened Dicts
  import opened QueueSpec
  import opened QueueInvariant
  import opened QueueRuns
  import opened Protocol
  import opened ProtocolInvariant
  import opened ProtocolRuns

  /** No worker dies after finalising a job with success, before telling the queue, with attempts left. */
  predicate Spared(rules: Rules, s: Sys, a: Action) {
    a.Crash? ==> !Unreported(rules, PcOf(s, a.w))
  }

  predicate AllSpared(rules: Rules, s: Sys, actions: seq<Action>)
    decreases |actions|
  {
    actions == [] || (Spared(rules, s, actions[0]) && AllSpared(rules, Act(rules, s, actions[0]), actions[1..]))
  }

  lemma SubOrphans(rules: Rules, s: Sys, a: Action)
    requires a.Submit? || a.SubRead? || a.SubAcquire? || a.SubRelease? || a.SubReread? || a.SubReleaseAgain?
             || a.SubEnqueue? || a.SubGiveUp?
    ensures Act(rules, s, a).orphans == s.orphans
  {
  }

  lemma CreateOrphans(s: Sys, k: nat)
    ensures RecordSet(s, k).orphans == s.orphans
  {
  }

  lemma DropOrphans(s: Sys, k: nat)
    ensures RecordDropped(s, k).orphans == s.orphans
  {
  }

  lemma QueueOrphans(rules: Rules, s: Sys, a: Action)
    requires a.Recover? || a.Promote? || a.Claim? || a.Renew? || a.AckJob? || a.RetryJob?
    ensures Act(rules, s, a).orphans == s.orphans
  {
  }

  lemma BeginOrphans(s: Sys, w: nat)
    ensures Begun(s, w).orphans == s.orphans
  {
  }

  lemma ReviewOrphans(s: Sys, r: nat, who: Principal, id: Id, approve: bool)
    ensures ReviewOpened(s, r, who, id, approve).orphans == s.orphans
    ensures ReportFetched(s, r).orphans == s.orphans && DecisionWritten(s, r).orphans == s.orphans
  {
  }

  lemma FinalOrphans(rules: Rules, s: Sys, a: Action)
    requires a.Succeed? || a.Fail?
    ensures Act(rules, s, a).orphans == s.orphans
  {
  }

  lemma LetterOrphans(rules: Rules, s: Sys, a: Action)
    requires a.ListLetters? || a.ReadLetter? || a.GiveUp? || a.RemoveLetter?
    ensures Act(rules, s, a).orphans == s.orphans
  {
    match a
    case GiveUp(w) => GiveUpOrphans(s, w);
    case _ =>
  }

  lemma GiveUpOrphans(s: Sys, w: nat)
    ensures GivenUp(s, w).orphans == s.orphans
  {
  }

  lemma SparedOrphans(rules: Rules, s: Sys, a: Action)
    requires Spared(rules, s, a)
    ensures Act(rules, s, a).orphans == s.orphans
  {
    if a.Recover? || a.Promote? || a.Claim? || a.Renew? || a.AckJob? || a.RetryJob? { QueueOrphans(rules, s, a); }
    else if a.Begin? { BeginOrphans(s, a.w); }
    else if a.Look? { ReviewOrphans(s, a.r, a.who, a.id, a.approve); }
    else if a.Fetch? || a.Decide? { ReviewOrphans(s, a.r, Principal("", ""), "", false); }
    else if a.Succeed? || a.Fail? { FinalOrphans(rules, s, a); }
    else if a.ListLetters? || a.ReadLetter? || a.GiveUp? || a.RemoveLetter? { LetterOrphans(rules, s, a); }
    else if a.SubCreate? { CreateOrphans(s, a.k); }
    else if a.SubDelete? { DropOrphans(s, a.k); }
    else if !a.Crash? { SubOrphans(rules, s, a); }
  }

  /** If no worker dies there, every job that a worker begins is active. */
  lemma {:induction false} SparedIsOpen(rules: Rules, s: Sys, actions: seq<Action>)
    requires Coupled(rules, s) && s.orphans == {}
    requires AllLeasesHold(rules, s, actions) && AllSpared(rules, s, actions)
    ensures AllOpen(rules, s, actions)
    decreases |actions|
  {
    if actions != [] {
      var a := actions[0];
      if a.Begin? { assert WorkerOk(rules, s, a.w); }
      StepCoupled(rules, s, a);
      SparedOrphans(rules, s, a);
      SparedIsOpen(rules, Act(rules, s, a), actions[1..]);
    }
  }

  /** Slot conservation with every other crash allowed: while a job is processed, after a failure, and after
      a success on the last attempt. */
  lemma SparedConservation(rules: Rules, left: map<Id, real>, actions: seq<Action>, t: Tenant)
    requires AllLeasesHold(rules, Initial(left), actions) && AllSpared(rules, Initial(left), actions)
    requires AllRecordsStay(rules, Initial(left), actions) && AllLettersStay(rules, Initial(left), actions)
    ensures var s := ActAll(rules, Initial(left), actions);
      && SlotOf(s.slots, t) == |ActiveOf(s.jobs, t)| + |OwnersOf(s.subs, t)|
      && SlotOf(s.slots, t) <= rules.limit
  {
    InitialCoupled(rules, left);
    SparedIsOpen(rules, Initial(left), actions);
    SlotConservation(rules, left, actions, t);
  }

  // Deaths inside the steps that write a record and give back a slot.

  /** A worker dies after the final record of a success, before it gives the slot back. */
  function DiedKeeping(rules: Rules, s: Sys, w: nat, report: Option<Json>): Sys {
    Crashed(rules, Succeeded(rules, s, w, report).(slots := s.slots), w)
  }

  /** A worker dies after it gave back the slot of a job that failed for good, before the record. */
  function DiedReleasing(rules: Rules, s: Sys, w: nat): Sys {
    if !PcOf(s, w).Working? then s else
      Crashed(rules, s.(slots := Release(s.slots, PcOf(s, w).e.payload.tenant)), w)
  }

  /** A reconciler dies after it closed a job, before it gives the slot back. */
  function DiedClosing(rules: Rules, s: Sys, w: nat): Sys {
    Crashed(rules, GivenUp(s, w).(slots := s.slots), w)
  }

  /** The first of these deaths leaves a slot that no job owns, unless the job was not active any more; the
      second one takes a slot that is still owned, unless the tenant has none. */
  lemma WorkerDeathsMiscount(rules: Rules, s: Sys, w: nat, report: Option<Json>)
    requires Coupled(rules, s) && SlotsExact(rules, s) && PcOf(s, w).Working?
    ensures PcOf(s, w).e.jobId in s.jobs
    ensures var s', e := DiedKeeping(rules, s, w, report), PcOf(s, w).e; var t := e.payload.tenant;
      SlotOf(s'.slots, t) == |ActiveOf(s'.jobs, t)| + |OwnersOf(s'.subs, t)|
                             + if Active(s.jobs[e.jobId].status) then 1 else 0
    ensures var s', e := DiedReleasing(rules, s, w), PcOf(s, w).e; var t := e.payload.tenant;
      && (Active(s.jobs[e.jobId].status) ==> SlotOf(s.slots, t) > 0)
      && SlotOf(s'.slots, t) == |ActiveOf(s'.jobs, t)| + |OwnersOf(s'.subs, t)| - if SlotOf(s.slots, t) > 0 then 1 else 0
  {
    var e, s' := PcOf(s, w).e, DiedKeeping(rules, s, w, report);
    assert WorkerOk(rules, s, w) && SlotExact(s, e.payload.tenant);
    TenantAgrees(rules, s, e);
    assert s'.jobs == s.jobs[e.jobId := s'.jobs[e.jobId]];
    JobWritten(s.jobs, e.jobId, s'.jobs[e.jobId], e.payload.tenant);
    if Active(s.jobs[e.jobId].status) { assert e.jobId in ActiveOf(s.jobs, e.payload.tenant); }
  }

  /** The reconciler's death keeps all accounts exact if and only if the job had been closed already. */
  lemma ClosingDeathExactly(rules: Rules, s: Sys, w: nat)
    requires Coupled(rules, s) && SlotsExact(rules, s) && PcOf(s, w).Closing?
    ensures PcOf(s, w).todo != []
    ensures var id := PcOf(s, w).todo[0].jobId;
      id in s.jobs && (SlotsExact(rules, DiedClosing(rules, s, w)) <==> !Active(s.jobs[id].status))
  {
    assert WorkerOk(rules, s, w);
    var s', id := DiedClosing(rules, s, w), PcOf(s, w).todo[0].jobId;
    assert LetterOk(rules, s, PcOf(s, w).todo[0]);
    assert s'.jobs == s.jobs[id := s'.jobs[id]];
    forall t ensures |ActiveOf(s'.jobs, t)| == |ActiveOf(s.jobs, t)| - JobWeight(s.jobs, id, t) {
      JobWritten(s.jobs, id, s'.jobs[id], t);
    }
    assert SlotExact(s, s.jobs[id].tenant);
    if Active(s.jobs[id].status) {
      assert !SlotExact(s', s.jobs[id].tenant);
    } else {
      forall t ensures SlotExact(s', t) && SlotOf(s'.slots, t) <= rules.limit { assert SlotExact(s, t); }
    }
  }

  // A run from some state on, in which nothing disturbs the accounts and no clock goes backwards.

  /** The clock reading of a step, where the step depends on it; a renewal reads it one lease before its end. */
  function ClockRead(rules: Rules, a: Action, clock: real): real {
    match a
    case SubEnqueue(_, now) => now
    case Recover(now) => now
    case Promote(now) => now
    case Claim(_, now) => now
    case Renew(_, until) => until - rules.cfg.lease
    case RetryJob(_, _, now) => now
    case _ => clock
  }

  predicate InTime(rules: Rules, actions: seq<Action>, clock: real)
    decreases |actions|
  {
    actions == [] ||
    (ClockRead(rules, actions[0], clock) >= clock && InTime(rules, actions[1..], ClockRead(rules, actions[0], clock)))
  }

  function LastReading(rules: Rules, actions: seq<Action>, clock: real): real
    decreases |actions|
  {
    if actions == [] then clock else LastReading(rules, actions[1..], ClockRead(rules, actions[0], clock))
  }

  /** The steps, the state after them, and the clock before and after them. */
  datatype Trace = Trace(actions: seq<Action>, s: Sys, since: real, now: real)

  /** What a trace asks of a step. */
  predicate Harmless(rules: Rules, s: Sys, a: Action) {
    LeasesHold(s, a) && Spared(rules, s, a) && RecordStays(s, a) && LetterStays(s, a) && JobOpen(s, a)
  }

  ghost predicate Reached(rules: Rules, from: Sys, tr: Trace) {
    && ActAll(rules, from, tr.actions) == tr.s
    && InTime(rules, tr.actions, tr.since) && LastReading(rules, tr.actions, tr.since) == tr.now
    && AllLeasesHold(rules, from, tr.actions) && AllSpared(rules, from, tr.actions)
    && AllRecordsStay(rules, from, tr.actions) && AllLettersStay(rules, from, tr.actions)
    && AllOpen(rules, from, tr.actions)
  }

  lemma {:induction false} LastClock(rules: Rules, actions: seq<Action>, clock: real, a: Action)
    requires InTime(rules, actions, clock)
    requires var now := LastReading(rules, actions, clock); ClockRead(rules, a, now) >= now
    ensures InTime(rules, actions + [a], clock)
    ensures LastReading(rules, actions + [a], clock) == ClockRead(rules, a, LastReading(rules, actions, clock))
    decreases |actions|
  {
    var all := actions + [a];
    if actions == [] {
      assert all[0] == a && all[1..] == [];
    } else {
      assert all[0] == actions[0] && all[1..] == actions[1..] + [a];
      LastClock(rules, actions[1..], ClockRead(rules, actions[0], clock), a);
    }
  }

  predicate Steps(rules: Rules, s: Sys, actions: seq<Action>) {
    && AllLeasesHold(rules, s, actions) && AllSpared(rules, s, actions)
    && AllRecordsStay(rules, s, actions) && AllLettersStay(rules, s, actions) && AllOpen(rules, s, actions)
  }

  lemma {:induction false} LastStep(rules: Rules, s: Sys, actions: seq<Action>, a: Action)
    requires Steps(rules, s, actions) && Harmless(rules, ActAll(rules, s, actions), a)
    ensures Steps(rules, s, actions + [a])
    ensures ActAll(rules, s, actions + [a]) == Act(rules, ActAll(rules, s, actions), a)
    decreases |actions|
  {
    var all := actions + [a];
    if actions == [] {
      assert all[0] == a && all[1..] == [];
      assert Steps(rules, Act(rules, s, a), []);
    } else {
      assert all[0] == actions[0] && all[1..] == actions[1..] + [a];
      LastStep(rules, Act(rules, s, actions[0]), actions[1..], a);
    }
  }

  lemma NoSteps(rules: Rules, s: Sys, clock: real)
    ensures Reached(rules, s, Trace([], s, clock, clock))
  {
  }

  lemma Next(rules: Rules, from: Sys, tr: Trace, a: Action) returns (tr': Trace)
    requires Reached(rules, from, tr) && Harmless(rules, tr.s, a) && ClockRead(rules, a, tr.now) >= tr.now
    ensures Reached(rules, from, tr') && tr'.s == Act(rules, tr.s, a)
    ensures tr'.since == tr.since && tr'.now == ClockRead(rules, a, tr.now)
  {
    LastStep(rules, from, tr.actions, a);
    LastClock(rules, tr.actions, tr.since, a);
    tr' := Trace(tr.actions + [a], Act(rules, tr.s, a), tr.since, ClockRead(rules, a, tr.now));
  }

  /** The same step, from a coupled state to a coupled state. */
  lemma NextCoupled(rules: Rules, from: Sys, tr: Trace, a: Action) returns (tr': Trace)
    requires Reached(rules, from, tr) && Harmless(rules, tr.s, a) && Coupled(rules, tr.s)
    requires ClockRead(rules, a, tr.now) >= tr.now
    ensures Reached(rules, from, tr') && tr'.s == Act(rules, tr.s, a) && Coupled(rules, tr'.s)
    ensures tr'.since == tr.since && tr'.now == ClockRead(rules, a, tr.now)
  {
    tr' := Next(rules, from, tr, a);
    StepCoupled(rules, tr.s, a);
  }

  lemma RecoverNext(rules: Rules, from: Sys, tr: Trace, now: real) returns (tr': Trace)
    requires Reached(rules, from, tr) && Coupled(rules, tr.s) && LeasesHold(tr.s, Recover(now)) && now >= tr.now
    ensures Reached(rules, from, tr') && Coupled(rules, tr'.s) && tr'.s == QueueOp(rules, tr.s, DoRecover(now))
    ensures tr'.since == tr.since && tr'.now == now
  {
    tr' := NextCoupled(rules, from, tr, Recover(now));
  }

  lemma RenewNext(rules: Rules, from: Sys, tr: Trace, w: nat, now: real) returns (tr': Trace)
    requires Reached(rules, from, tr) && Coupled(rules, tr.s) && now >= tr.now
    ensures Reached(rules, from, tr') && Coupled(rules, tr'.s)
    ensures tr'.s == LeaseRenewed(rules, tr.s, w, now + rules.cfg.lease)
    ensures tr'.since == tr.since && tr'.now == now
  {
    tr' := NextCoupled(rules, from, tr, Renew(w, now + rules.cfg.lease));
  }

  lemma ClaimNext(rules: Rules, from: Sys, tr: Trace, w: nat) returns (tr': Trace)
    requires Reached(rules, from, tr) && Coupled(rules, tr.s)
    ensures Reached(rules, from, tr') && Coupled(rules, tr'.s) && tr'.s == JobClaimed(rules, tr.s, w, tr.now)
    ensures tr'.since == tr.since && tr'.now == tr.now
  {
    tr' := NextCoupled(rules, from, tr, Claim(w, tr.now));
  }

  // After a death: the other holders renew their leases, the dead worker's lease runs out, and fresh workers
  // claim until one of them gets the job.

  /** Everything but the leases is as before. */
  predicate OnlyLeases(s: Sys, s': Sys) {
    s' == s.(h := s.h.(m := s.h.m.(inflight := s'.h.m.inflight)))
  }

  lemma RenewOne(rules: Rules, from: Sys, tr: Trace, id: Id, now: real) returns (tr': Trace)
    requires Reached(rules, from, tr) && Coupled(rules, tr.s) && id in tr.s.holder && now >= tr.now
    ensures Reached(rules, from, tr') && Coupled(rules, tr'.s) && tr'.since == tr.since && tr'.now == now
    ensures OnlyLeases(tr.s, tr'.s)
    ensures tr'.s.h.m.inflight == Put(tr.s.h.m.inflight, id, now + rules.cfg.lease)
  {
    var s := tr.s;
    var w := s.holder[id];
    assert JobOk(rules, s, id);
    HeldInFlight(rules, s, id);
    assert InvAt(rules.cfg, s.h.m, id);
    Listed(rules.cfg, s.h.m, id);
    tr' := RenewNext(rules, from, tr, w, now);
    assert Holds(PcOf(s, w)) && PcOf(s, w).e.jobId == id;
    assert s.h.issued + ToSet(Handed(rules.cfg, s.h.m, DoRenew(id, now + rules.cfg.lease))) == s.h.issued;
  }

  lemma {:induction false} RenewAll(rules: Rules, from: Sys, tr: Trace, todo: set<Id>, now: real) returns (tr': Trace)
    requires Reached(rules, from, tr) && Coupled(rules, tr.s) && todo <= tr.s.holder.Keys && now >= tr.now
    ensures Reached(rules, from, tr') && Coupled(rules, tr'.s) && OnlyLeases(tr.s, tr'.s)
    ensures tr'.since == tr.since && tr'.now <= now
    ensures forall id <- todo :: id in tr'.s.h.m.inflight.at && tr'.s.h.m.inflight.at[id] == now + rules.cfg.lease
    ensures forall id :: id !in todo && id in tr.s.h.m.inflight.at ==>
              id in tr'.s.h.m.inflight.at && tr'.s.h.m.inflight.at[id] == tr.s.h.m.inflight.at[id]
    decreases |todo|
  {
    if todo == {} {
      tr' := tr;
    } else {
      var id :| id in todo;
      var tr1 := RenewOne(rules, from, tr, id, now);
      tr' := RenewAll(rules, from, tr1, todo - {id}, now);
    }
  }

  predicate FreeFrom(s: Sys, n: nat) {
    forall w <- s.workers.Keys :: w >= n ==> s.workers[w].Free?
  }

  lemma {:induction false} AboveAll(keys: set<nat>) returns (n: nat)
    ensures forall k <- keys :: k < n
    decreases |keys|
  {
    if keys == {} {
      n := 0;
    } else {
      var k :| k in keys;
      var m := AboveAll(keys - {k});
      n := if m > k then m else k + 1;
      forall j <- keys ensures j < n {
        if j != k { assert j in keys - {k}; }
      }
    }
  }

  lemma {:induction false} ClaimUntil(rules: Rules, from: Sys, tr: Trace, n: nat, x: Id) returns (tr': Trace, v: nat)
    requires Reached(rules, from, tr) && Coupled(rules, tr.s) && x in tr.s.h.m.ready && FreeFrom(tr.s, n)
    ensures Reached(rules, from, tr') && Coupled(rules, tr'.s) && SameAccounts(tr.s, tr'.s)
    ensures PcOf(tr'.s, v).Claimed? && PcOf(tr'.s, v).e.jobId == x
    ensures tr'.since == tr.since && tr'.now == tr.now
    decreases |tr.s.h.m.ready|
  {
    tr' := ClaimNext(rules, from, tr, n);
    v := n;
    TakeHead(rules, tr.s, n, tr.now);
    if tr.s.h.m.ready[0] != x {
      tr', v := ClaimUntil(rules, from, tr', n + 1, x);
    }
  }

  lemma TakeHead(rules: Rules, s: Sys, n: nat, now: real)
    requires Coupled(rules, s) && s.h.m.ready != [] && PcOf(s, n).Free?
    ensures var s' := JobClaimed(rules, s, n, now);
      && SameAccounts(s, s') && s'.h.m.ready == s.h.m.ready[1..]
      && PcOf(s', n).Claimed? && PcOf(s', n).e.jobId == s.h.m.ready[0]
      && s'.workers == s.workers[n := PcOf(s', n)]
  {
    TakeKeeps(rules.cfg, s.h.m, now);
    assert InvAt(rules.cfg, Take(rules.cfg, s.h.m, now).0, s.h.m.ready[0]);
  }

  /** The holders renew their leases, so that a recovery now takes none of their jobs. */
  lemma OthersRenewed(rules: Rules, from: Sys, tr: Trace, x: Id, now: real) returns (tr': Trace)
    requires Reached(rules, from, tr) && Coupled(rules, tr.s) && now >= tr.now
    requires x in tr.s.h.m.inflight.at && x !in tr.s.holder
    ensures Reached(rules, from, tr') && Coupled(rules, tr'.s) && OnlyLeases(tr.s, tr'.s)
    ensures tr'.since == tr.since && tr'.now <= now
    ensures x in tr'.s.h.m.inflight.at && tr'.s.h.m.inflight.at[x] == tr.s.h.m.inflight.at[x]
    ensures LeasesHold(tr'.s, Recover(now))
  {
    tr' := RenewAll(rules, from, tr, tr.s.holder.Keys, now);
  }

  function Later(a: real, b: real): (c: real)
    ensures c >= a && c >= b
  {
    if a >= b then a else b
  }

  /** The lease of a job that nobody holds has run out, the others are renewed, and the job goes back to the
      queue. */
  lemma LapseOne(rules: Rules, from: Sys, tr: Trace, x: Id) returns (tr': Trace)
    requires Reached(rules, from, tr) && Coupled(rules, tr.s)
    requires x in tr.s.h.m.inflight.at && x !in tr.s.holder
    requires x in tr.s.h.m.envelopes && tr.s.h.m.envelopes[x].attempt < rules.cfg.maxAttempts
    ensures Reached(rules, from, tr') && Coupled(rules, tr'.s) && SameAccounts(tr.s, tr'.s)
    ensures x in tr'.s.h.m.ready && tr'.s.workers == tr.s.workers && tr'.since == tr.since
  {
    var now := Later(tr.s.h.m.inflight.at[x], tr.now);
    var tr1 := OthersRenewed(rules, from, tr, x, now);
    tr' := RecoverNext(rules, from, tr1, now);
    Lapsed(rules, tr1.s, x, now);
  }

  lemma Lapsed(rules: Rules, s: Sys, x: Id, now: real)
    requires Coupled(rules, s) && x in s.h.m.inflight.at && s.h.m.inflight.at[x] <= now
    requires x in s.h.m.envelopes && s.h.m.envelopes[x].attempt < rules.cfg.maxAttempts
    ensures var s' := QueueOp(rules, s, DoRecover(now)); SameAccounts(s, s') && s'.workers == s.workers && x in s'.h.m.ready
  {
    RecoverStaleKeeps(rules.cfg, s.h.m, now);
    assert PlaceOf(RecoverStale(rules.cfg, s.h.m, now), x) == Ready;
  }

  /** From every reachable state in which a worker has finalised a job with success and attempts are left: if
      it dies now, there is a run without any other disturbance, on a clock that does not go back, in which
      another worker begins the job, and its record, settled or with the reviewers, is running again while its
      tenant's account is wrong. */
  lemma DeathBreaks(rules: Rules, s: Sys, w: nat, clock: real) returns (tr: Trace, v: nat)
    requires Coupled(rules, s) && SlotsExact(rules, s) && Unreported(rules, PcOf(s, w))
    ensures Reached(rules, Crashed(rules, s, w), tr) && tr.since == clock
    ensures var id, s' := PcOf(s, w).e.jobId, Begun(tr.s, v);
      id in s.jobs && !Active(s.jobs[id].status)
      && id in s'.jobs && s'.jobs[id].status.IsRunning? && !SlotsExact(rules, s')
  {
    var s1, x := Crashed(rules, s, w), PcOf(s, w).e.jobId;
    assert WorkerOk(rules, s, w);
    assert InvAt(rules.cfg, s.h.m, x);
    Listed(rules.cfg, s.h.m, x);
    CrashCoupled(rules, s, w);
    NoSteps(rules, s1, clock);
    var tr1 := LapseOne(rules, s1, Trace([], s1, clock, clock), x);
    var n := AboveAll(tr1.s.workers.Keys);
    tr, v := ClaimUntil(rules, s1, tr1, n, x);
    SlotsFrame(rules, s, tr.s);
    BeginExactly(rules, tr.s, v);
  }
}

/** Concrete runs that end just before a disturbance, and what the disturbance does to the accounts. */
module ProtocolRaces {
  import opened Basics
  import opened Envelopes
  import Dicts
  import opened QueueSpec
  import opened QueueInvariant
  import opened QueueRuns
  import opened Protocol
  import opened ProtocolInvariant
  import opened ProtocolRuns
  import opened ProtocolDeaths
  import ReportGating

  /** Three attempts, or only one. */
  const THREE: Rules := Rules(Settings(3, 10.0, 1.0, 1000.0), 5, true)
  const ONE: Rules := Rules(Settings(1, 10.0, 1.0, 1000.0), 5, true)
  const WORK: Payload := Payload(Lit("null"), "p", "t", 0.0)

  predicate Accounts(s: Sys, jobs: set<Id>, slots: nat) {
    && s.jobs.Keys == jobs && SlotOf(s.slots, "t") == slots
    && forall id <- jobs :: s.jobs[id] == JobRecord(id, "t", Pending, 0, None, None)
  }

  // Single actions, each without the others' cases.

  lemma Acquires(rules: Rules, from: Sys, tr: Trace, k: nat) returns (tr': Trace)
    requires Reached(rules, from, tr)
    ensures Reached(rules, from, tr') && tr'.s == SlotAcquired(rules, tr.s, k)
    ensures tr'.since == tr.since && tr'.now == tr.now
  {
    tr' := Next(rules, from, tr, SubAcquire(k));
  }

  lemma Looks(rules: Rules, from: Sys, tr: Trace, k: nat) returns (tr': Trace)
    requires Reached(rules, from, tr)
    ensures Reached(rules, from, tr') && tr'.s == LookedUp(tr.s, k)
    ensures tr'.since == tr.since && tr'.now == tr.now
  {
    tr' := Next(rules, from, tr, SubRead(k));
  }

  lemma Asks(rules: Rules, from: Sys, tr: Trace, k: nat, id: Id, p: Payload) returns (tr': Trace)
    requires Reached(rules, from, tr)
    ensures Reached(rules, from, tr') && tr'.s == Submitted(tr.s, k, id, p)
    ensures tr'.since == tr.since && tr'.now == tr.now
  {
    tr' := Next(rules, from, tr, Submit(k, id, p));
  }

  lemma Creates(rules: Rules, from: Sys, tr: Trace, k: nat) returns (tr': Trace)
    requires Reached(rules, from, tr)
    ensures Reached(rules, from, tr') && tr'.s == RecordSet(tr.s, k)
    ensures tr'.since == tr.since && tr'.now == tr.now
  {
    tr' := Next(rules, from, tr, SubCreate(k));
  }

  lemma Begins(rules: Rules, from: Sys, tr: Trace, w: nat) returns (tr': Trace)
    requires Reached(rules, from, tr) && Harmless(rules, tr.s, Begin(w))
    ensures Reached(rules, from, tr') && tr'.s == Begun(tr.s, w)
    ensures tr'.since == tr.since && tr'.now == tr.now
  {
    tr' := Next(rules, from, tr, Begin(w));
  }

  lemma Views(rules: Rules, from: Sys, tr: Trace, r: nat, who: Principal, id: Id, approve: bool) returns (tr': Trace)
    requires Reached(rules, from, tr)
    ensures Reached(rules, from, tr') && tr'.s == ReviewOpened(tr.s, r, who, id, approve)
    ensures tr'.since == tr.since && tr'.now == tr.now
  {
    tr' := Next(rules, from, tr, Look(r, who, id, approve));
  }

  lemma Fetches(rules: Rules, from: Sys, tr: Trace, r: nat) returns (tr': Trace)
    requires Reached(rules, from, tr)
    ensures Reached(rules, from, tr') && tr'.s == ReportFetched(tr.s, r)
    ensures tr'.since == tr.since && tr'.now == tr.now
  {
    tr' := Next(rules, from, tr, Fetch(r));
  }

  lemma Decides(rules: Rules, from: Sys, tr: Trace, r: nat) returns (tr': Trace)
    requires Reached(rules, from, tr)
    ensures Reached(rules, from, tr') && tr'.s == DecisionWritten(tr.s, r)
    ensures tr'.since == tr.since && tr'.now == tr.now
  {
    tr' := Next(rules, from, tr, Decide(r));
  }

  lemma GivesUp(rules: Rules, from: Sys, tr: Trace, w: nat) returns (tr': Trace)
    requires Reached(rules, from, tr) && Harmless(rules, tr.s, GiveUp(w))
    ensures Reached(rules, from, tr') && tr'.s == GivenUp(tr.s, w)
    ensures tr'.since == tr.since && tr'.now == tr.now
  {
    tr' := Next(rules, from, tr, GiveUp(w));
  }

  lemma Hands(rules: Rules, from: Sys, tr: Trace, k: nat) returns (tr': Trace)
    requires Reached(rules, from, tr) && tr.now == 0.0
    ensures Reached(rules, from, tr') && tr'.s == JobEnqueued(rules, tr.s, k, 0.0)
    ensures tr'.since == tr.since && tr'.now == 0.0
  {
    tr' := Next(rules, from, tr, SubEnqueue(k, 0.0));
  }

  lemma Claims(rules: Rules, from: Sys, tr: Trace, w: nat) returns (tr': Trace)
    requires Reached(rules, from, tr) && tr.now == 0.0
    ensures Reached(rules, from, tr') && tr'.s == JobClaimed(rules, tr.s, w, 0.0)
    ensures tr'.since == tr.since && tr'.now == 0.0
  {
    tr' := Next(rules, from, tr, Claim(w, 0.0));
  }

  lemma Dies(rules: Rules, from: Sys, tr: Trace, w: nat) returns (tr': Trace)
    requires Reached(rules, from, tr) && Harmless(rules, tr.s, Crash(w))
    ensures Reached(rules, from, tr') && tr'.s == Crashed(rules, tr.s, w)
    ensures tr'.since == tr.since && tr'.now == tr.now
  {
    tr' := Next(rules, from, tr, Crash(w));
  }

  lemma ReadsLetter(rules: Rules, from: Sys, tr: Trace, w: nat) returns (tr': Trace)
    requires Reached(rules, from, tr)
    ensures Reached(rules, from, tr') && tr'.s == LetterRead(tr.s, w)
    ensures tr'.since == tr.since && tr'.now == tr.now
  {
    tr' := Next(rules, from, tr, ReadLetter(w));
  }

  // First run: a marker for "a" is left over, without a record. Submissions 1 and 2 ask for "a",
  // submission 3 for "b".

  const LEFT: map<Id, real> := map["a" := 100.0]

  ghost predicate Raced(tr: Trace) {
    Reached(THREE, Initial(LEFT), tr) && tr.since == tr.now == 0.0
  }

  predicate Subs(s: Sys, pc1: SubPc, pc2: SubPc, pc3: SubPc) {
    && s.subs.Keys == {1, 2, 3}
    && s.subs[1] == Sub("a", WORK, pc1) && s.subs[2] == Sub("a", WORK, pc2) && s.subs[3] == Sub("b", WORK, pc3)
    && s.h.m.known == LEFT
  }

  lemma Arrived() returns (tr: Trace)
    ensures Raced(tr) && Subs(tr.s, Start, Start, Start) && Accounts(tr.s, {}, 0)
  {
    tr := Trace([], Initial(LEFT), 0.0, 0.0);
    NoSteps(THREE, tr.s, 0.0);
    tr := Asks(THREE, Initial(LEFT), tr, 1, "a", WORK);
    tr := Asks(THREE, Initial(LEFT), tr, 2, "a", WORK);
    tr := Asks(THREE, Initial(LEFT), tr, 3, "b", WORK);
  }

  lemma AllAbsent() returns (tr: Trace)
    ensures Raced(tr) && Subs(tr.s, Absent, Absent, Absent) && Accounts(tr.s, {}, 0)
  {
    tr := Arrived();
    tr := Looks(THREE, Initial(LEFT), tr, 1);
    assert Subs(tr.s, Absent, Start, Start) && Accounts(tr.s, {}, 0);
    tr := Looks(THREE, Initial(LEFT), tr, 2);
    assert Subs(tr.s, Absent, Absent, Start) && Accounts(tr.s, {}, 0);
    tr := Looks(THREE, Initial(LEFT), tr, 3);
  }

  lemma TwoAcquired() returns (tr: Trace)
    ensures Raced(tr) && Subs(tr.s, HasSlot, HasSlot, Absent) && Accounts(tr.s, {}, 2)
  {
    tr := AllAbsent();
    tr := Acquires(THREE, Initial(LEFT), tr, 1);
    assert Subs(tr.s, HasSlot, Absent, Absent) && Accounts(tr.s, {}, 1);
    tr := Acquires(THREE, Initial(LEFT), tr, 2);
  }

  lemma AllAcquired() returns (tr: Trace)
    ensures Raced(tr) && Subs(tr.s, HasSlot, HasSlot, HasSlot) && Accounts(tr.s, {}, 3)
  {
    tr := TwoAcquired();
    tr := Acquires(THREE, Initial(LEFT), tr, 3);
  }

  lemma OneCreated() returns (tr: Trace)
    ensures Raced(tr) && Subs(tr.s, Created, HasSlot, HasSlot) && Accounts(tr.s, {"a"}, 3)
  {
    tr := AllAcquired();
    tr := Creates(THREE, Initial(LEFT), tr, 1);
  }

  lemma TwoCreated() returns (tr: Trace)
    ensures Raced(tr) && Subs(tr.s, Created, HasSlot, Created) && Accounts(tr.s, {"a", "b"}, 3)
  {
    tr := OneCreated();
    tr := Creates(THREE, Initial(LEFT), tr, 3);
  }

  lemma RaceLost() returns (tr: Trace)
    ensures Raced(tr) && Subs(tr.s, Created, LostRace, Created) && Accounts(tr.s, {"a", "b"}, 3)
  {
    tr := TwoCreated();
    tr := Creates(THREE, Initial(LEFT), tr, 2);
  }

  /** Submission 2 loses the race and gives its slot back. */
  lemma LoserReleased() returns (tr: Trace)
    ensures Raced(tr) && Subs(tr.s, Created, Released, Created) && Accounts(tr.s, {"a", "b"}, 2)
  {
    tr := RaceLost();
    tr := Next(THREE, Initial(LEFT), tr, SubRelease(2));
  }

  lemma EnqueueRefused() returns (tr: Trace)
    ensures Raced(tr) && Subs(tr.s, Refused, Released, Created) && Accounts(tr.s, {"a", "b"}, 2)
  {
    tr := LoserReleased();
    assert !Accepts(THREE.cfg, tr.s.h.m, DoEnqueue("a", WORK, 0.0));
    tr := Hands(THREE, Initial(LEFT), tr, 1);
  }

  lemma RecordGone() returns (tr: Trace)
    ensures Raced(tr) && Subs(tr.s, Deleted, Released, Created) && Accounts(tr.s, {"b"}, 2)
  {
    tr := EnqueueRefused();
    tr := Next(THREE, Initial(LEFT), tr, SubDelete(1));
  }

  /** The leftover marker makes the queue refuse the winner, which deletes its record. */
  lemma WinnerRefused() returns (tr: Trace)
    ensures Raced(tr) && Subs(tr.s, Done(QueueRejected), Released, Created) && Accounts(tr.s, {"b"}, 1)
  {
    tr := RecordGone();
    tr := Next(THREE, Initial(LEFT), tr, SubGiveUp(1));
  }

  /** Submission 2 now finds no record and releases a slot it no longer has: "b" is active and the tenant
      is accounted none. */
  lemma SlotReleasedTwice() returns (tr: Trace)
    ensures Raced(tr) && At(tr.s, 2, Vanished)
    ensures var s' := SlotReleased(tr.s, 2, Vanished, Done(Unavailable));
      "b" in ActiveOf(s'.jobs, "t") && SlotOf(s'.slots, "t") == 0 && !SlotExact(s', "t")
  {
    tr := WinnerRefused();
    tr := Next(THREE, Initial(LEFT), tr, SubReread(2));
    assert Subs(tr.s, Done(QueueRejected), Vanished, Created) && Accounts(tr.s, {"b"}, 1);
    var s' := SlotReleased(tr.s, 2, Vanished, Done(Unavailable));
    assert "b" in ActiveOf(s'.jobs, "t");
  }

  // Second run: one job on its own, up to the end of its first attempt.

  const E0: Envelope := Envelope("a", WORK, 0, None, None)
  const E1: Envelope := E0.(attempt := 1)

  ghost predicate Ran(rules: Rules, tr: Trace) {
    Reached(rules, Initial(map[]), tr) && tr.since == tr.now == 0.0
  }

  predicate Only(s: Sys, pc: SubPc, slots: nat) {
    && s.subs == map[1 := Sub("a", WORK, pc)] && SlotOf(s.slots, "t") == slots
    && s.workers == map[] && s.h == START && s.orphans == {} && s.results == map[] && s.reviews == map[]
  }

  lemma Asked(rules: Rules) returns (tr: Trace)
    requires rules == THREE || rules == ONE
    ensures Ran(rules, tr) && Only(tr.s, Start, 0) && tr.s.jobs == map[]
  {
    tr := Trace([], Initial(map[]), 0.0, 0.0);
    NoSteps(rules, tr.s, 0.0);
    tr := Asks(rules, Initial(map[]), tr, 1, "a", WORK);
  }

  lemma Unrecorded(rules: Rules) returns (tr: Trace)
    requires rules == THREE || rules == ONE
    ensures Ran(rules, tr) && Only(tr.s, Absent, 0) && tr.s.jobs == map[]
  {
    tr := Asked(rules);
    tr := Looks(rules, Initial(map[]), tr, 1);
  }

  lemma SlotTaken(rules: Rules) returns (tr: Trace)
    requires rules == THREE || rules == ONE
    ensures Ran(rules, tr) && Only(tr.s, HasSlot, 1) && tr.s.jobs == map[]
  {
    tr := Unrecorded(rules);
    tr := Acquires(rules, Initial(map[]), tr, 1);
  }

  lemma Recorded(rules: Rules) returns (tr: Trace)
    requires rules == THREE || rules == ONE
    ensures Ran(rules, tr) && Only(tr.s, Created, 1)
    ensures tr.s.jobs == map["a" := JobRecord("a", "t", Pending, 0, None, None)]
  {
    tr := SlotTaken(rules);
    tr := Creates(rules, Initial(map[]), tr, 1);
  }

  /** The job's envelope and its tenant's count. */
  predicate Job(s: Sys, e: Envelope, status: Status, slots: nat) {
    && s.h.m.scheduled == Dicts.EMPTY && s.h.m.envelopes == map["a" := e]
    && s.jobs.Keys == {"a"} && s.jobs["a"].status == status && s.jobs["a"].tenant == "t"
    && SlotOf(s.slots, "t") == slots && s.subs.Keys == {1} && s.orphans == {}
    && s.results == map[] && s.reviews == map[]
  }

  predicate Waiting(s: Sys) {
    s.h.m.ready == ["a"] && s.h.m.inflight == Dicts.EMPTY && s.h.m.dead == []
  }

  predicate Leased(s: Sys) {
    s.h.m.ready == [] && s.h.m.inflight == Dicts.Dict(["a"], map["a" := 10.0]) && s.h.m.dead == []
  }

  lemma Queued(rules: Rules) returns (tr: Trace)
    requires rules == THREE || rules == ONE
    ensures Ran(rules, tr) && Job(tr.s, E0, Pending, 1) && Waiting(tr.s) && tr.s.workers == map[]
  {
    tr := Recorded(rules);
    EnqueueState(rules, tr.s);
    tr := Hands(rules, Initial(map[]), tr, 1);
  }

  lemma EnqueueState(rules: Rules, s: Sys)
    requires (rules == THREE || rules == ONE) && Only(s, Created, 1)
    requires s.jobs == map["a" := JobRecord("a", "t", Pending, 0, None, None)]
    ensures var s' := JobEnqueued(rules, s, 1, 0.0); Job(s', E0, Pending, 1) && Waiting(s') && s'.workers == map[]
  {
    assert Accepts(rules.cfg, s.h.m, DoEnqueue("a", WORK, 0.0));
  }

  lemma ClaimState(rules: Rules, s: Sys)
    requires (rules == THREE || rules == ONE) && Job(s, E0, Pending, 1) && Waiting(s) && s.workers == map[]
    ensures var s' := JobClaimed(rules, s, 7, 0.0);
      Job(s', E1, Pending, 1) && Leased(s') && PcOf(s', 7) == Claimed(E1) && s'.workers.Keys == {7}
  {
  }

  lemma FirstClaim(rules: Rules) returns (tr: Trace)
    requires rules == THREE || rules == ONE
    ensures Ran(rules, tr) && Job(tr.s, E1, Pending, 1) && Leased(tr.s)
    ensures PcOf(tr.s, 7) == Claimed(E1) && tr.s.workers.Keys == {7}
  {
    tr := Queued(rules);
    ClaimState(rules, tr.s);
    tr := Claims(rules, Initial(map[]), tr, 7);
  }

  lemma FirstBegin() returns (tr: Trace)
    ensures Ran(THREE, tr) && Job(tr.s, E1, IsRunning, 1) && Leased(tr.s)
    ensures PcOf(tr.s, 7) == Working(E1, tr.s.jobs["a"]) && tr.s.workers.Keys == {7}
  {
    tr := FirstClaim(THREE);
    tr := Begins(THREE, Initial(map[]), tr, 7);
  }

  const REPORT: Json := Lit("1")

  lemma FirstSuccess() returns (tr: Trace)
    ensures Ran(THREE, tr) && PcOf(tr.s, 7) == Finished(E1, true)
    ensures tr.s.jobs.Keys == {"a"} && tr.s.jobs["a"].tenant == "t" && tr.s.jobs["a"].status == AwaitingApproval
    ensures tr.s.jobs["a"].report == None
    ensures tr.s.results == map["a" := Some(REPORT)] && tr.s.reviews == map[]
  {
    tr := FirstBegin();
    tr := Next(THREE, Initial(map[]), tr, Succeed(7, Some(REPORT)));
  }

  /** If the worker dies now, the job can be delivered again: its record, already with the reviewers, is
      running once more, and its tenant's account is wrong. */
  lemma RunsUnaccounted() returns (before: Trace, after: Trace, v: nat)
    ensures Ran(THREE, before) && Unreported(THREE, PcOf(before.s, 7))
    ensures Reached(THREE, Crashed(THREE, before.s, 7), after) && after.since == before.now
    ensures var s' := Begun(after.s, v);
      "a" in s'.jobs && s'.jobs["a"].status == IsRunning && !SlotsExact(THREE, s')
  {
    before := FirstSuccess();
    RanCoupled(THREE, before);
    after, v := DeathBreaks(THREE, before.s, 7, before.now);
  }

  // The same job in review: two reviewers look at it, one approves it, and then the other one rejects it.

  const ANN: Principal := Principal("ann", "t")
  const BOB: Principal := Principal("bob", "t")

  lemma FirstLooks() returns (tr: Trace)
    ensures Ran(THREE, tr) && tr.s.jobs.Keys == {"a"} && tr.s.results == map["a" := Some(REPORT)]
    ensures tr.s.jobs["a"].tenant == "t" && tr.s.jobs["a"].status == AwaitingApproval && tr.s.jobs["a"].report == None
    ensures tr.s.reviews == map[1 := Looked("a", ANN, tr.s.jobs["a"])]
  {
    tr := FirstSuccess();
    tr := Views(THREE, Initial(map[]), tr, 1, ANN, "a", true);
  }

  lemma BothLook() returns (tr: Trace)
    ensures Ran(THREE, tr) && tr.s.jobs.Keys == {"a"} && tr.s.results == map["a" := Some(REPORT)]
    ensures tr.s.jobs["a"].status == AwaitingApproval && tr.s.jobs["a"].report == None && tr.s.reviews.Keys == {1, 2}
    ensures tr.s.reviews[1] == Looked("a", ANN, tr.s.jobs["a"])
    ensures tr.s.reviews[2] == Decided("a", tr.s.jobs["a"].(status := Rejected, approvedBy := Some(BOB)))
  {
    tr := FirstLooks();
    tr := Views(THREE, Initial(map[]), tr, 2, BOB, "a", false);
  }

  lemma FirstFetches() returns (tr: Trace)
    ensures Ran(THREE, tr) && tr.s.jobs.Keys == {"a"} && tr.s.reviews.Keys == {1, 2}
    ensures tr.s.jobs["a"].status == AwaitingApproval && tr.s.jobs["a"].report == None
    ensures tr.s.reviews[1] ==
      Decided("a", tr.s.jobs["a"].(status := Approved, report := Some(REPORT), approvedBy := Some(ANN)))
    ensures tr.s.reviews[2] == Decided("a", tr.s.jobs["a"].(status := Rejected, approvedBy := Some(BOB)))
  {
    tr := BothLook();
    tr := Fetches(THREE, Initial(map[]), tr, 1);
  }

  /** The job is approved and its report shown; the second decision takes it back. */
  lemma ApprovalOverturned() returns (tr: Trace)
    ensures Ran(THREE, tr) && "a" in tr.s.jobs && tr.s.jobs["a"].status == Approved
    ensures tr.s.jobs["a"].report == Some(REPORT)
    ensures var s' := DecisionWritten(tr.s, 2);
      "a" in s'.jobs && s'.jobs["a"].status == Rejected && s'.jobs["a"].report == None
      && !ReportGating.SettledKeptAt(tr.s, s', "a")
  {
    tr := FirstFetches();
    var job := tr.s.jobs["a"];
    tr := Decides(THREE, Initial(map[]), tr, 1);
    assert tr.s.reviews == map[2 := Decided("a", job.(status := Rejected, approvedBy := Some(BOB)))];
  }

  // Third run: a job with a single attempt dies with its worker, and two reconcilers close it. Submission 2
  // of the same tenant holds a slot for its own record.

  predicate Dead(s: Sys) {
    s.h.m.ready == [] && s.h.m.inflight == Dicts.EMPTY && s.h.m.dead == ["a"]
  }

  const LETTER: Envelope := E1.(lastError := Some(LEASE_EXPIRED))

  lemma CrashState(s: Sys)
    requires Coupled(ONE, s) && Job(s, E1, Pending, 1) && Leased(s)
    requires PcOf(s, 7) == Claimed(E1) && s.workers.Keys == {7}
    ensures var s' := Crashed(ONE, s, 7);
      Job(s', E1, Pending, 1) && Leased(s') && s'.workers == map[7 := Free] && s'.holder == map[]
  {
    OnlyHolder(ONE, s, 7, "a");
  }

  lemma RanCoupled(rules: Rules, tr: Trace)
    requires Ran(rules, tr)
    ensures Coupled(rules, tr.s) && SlotsExact(rules, tr.s)
  {
    InitialCoupled(rules, map[]);
    InitialExact(rules, map[]);
    RunCoupled(rules, Initial(map[]), tr.actions);
    RunExact(rules, Initial(map[]), tr.actions);
  }

  lemma WorkerDied() returns (tr: Trace)
    ensures Ran(ONE, tr) && Job(tr.s, E1, Pending, 1) && Leased(tr.s) && tr.s.workers == map[7 := Free]
    ensures tr.s.holder == map[]
  {
    tr := FirstClaim(ONE);
    CrashAfter(tr);
    tr := Dies(ONE, Initial(map[]), tr, 7);
  }

  lemma CrashAfter(tr: Trace)
    requires Ran(ONE, tr) && Job(tr.s, E1, Pending, 1) && Leased(tr.s)
    requires PcOf(tr.s, 7) == Claimed(E1) && tr.s.workers.Keys == {7}
    ensures var s' := Crashed(ONE, tr.s, 7);
      Job(s', E1, Pending, 1) && Leased(s') && s'.workers == map[7 := Free] && s'.holder == map[]
  {
    RanCoupled(ONE, tr);
    CrashState(tr.s);
  }

  lemma OnlyHolder(rules: Rules, s: Sys, w: nat, id: Id)
    requires Coupled(rules, s) && s.workers.Keys == {w} && HoldsJob(PcOf(s, w), id)
    ensures s.holder - {id} == map[]
  {
    forall x <- s.holder.Keys ensures x == id {
      assert JobOk(rules, s, x);
    }
  }

  /** After the recovery at 10. */
  ghost predicate RanLate(tr: Trace) {
    Reached(ONE, Initial(map[]), tr) && tr.since == 0.0 && tr.now == 10.0
  }

  lemma Buried() returns (tr: Trace)
    ensures RanLate(tr) && Job(tr.s, LETTER, Pending, 1) && Dead(tr.s) && tr.s.workers == map[7 := Free]
  {
    tr := WorkerDied();
    var m := tr.s.h.m;
    assert Dicts.Due(m.inflight, 10.0) == ["a"];
    assert ["a"][1..] == [];
    assert RecoverAll(ONE.cfg, m, ["a"]) == RecoverOne(ONE.cfg, m, "a");
    assert Dicts.Del(m.inflight, "a") == Dicts.EMPTY;
    tr := Next(ONE, Initial(map[]), tr, Recover(10.0));
  }

  /** The two records and the count; letters are what the reconcilers have before them. */
  predicate Two(s: Sys, pc: SubPc, statusA: Status, bRecorded: bool, slots: nat) {
    && s.h.m.dead == ["a"] && s.h.m.envelopes == map["a" := LETTER]
    && s.subs.Keys == {1, 2} && s.subs[2] == Sub("b", WORK, pc)
    && s.jobs.Keys == (if bRecorded then {"a", "b"} else {"a"})
    && s.jobs["a"].status == statusA && s.jobs["a"].tenant == "t"
    && (bRecorded ==> s.jobs["b"] == JobRecord("b", "t", Pending, 0, None, None))
    && SlotOf(s.slots, "t") == slots
  }

  lemma SecondArrives() returns (tr: Trace)
    ensures RanLate(tr) && Two(tr.s, Absent, Pending, false, 1) && tr.s.workers == map[7 := Free]
  {
    tr := Buried();
    tr := Asks(ONE, Initial(map[]), tr, 2, "b", WORK);
    assert Two(tr.s, Start, Pending, false, 1);
    tr := Looks(ONE, Initial(map[]), tr, 2);
  }

  lemma SecondAcquires() returns (tr: Trace)
    ensures RanLate(tr) && Two(tr.s, HasSlot, Pending, false, 2) && tr.s.workers == map[7 := Free]
  {
    tr := SecondArrives();
    tr := Acquires(ONE, Initial(map[]), tr, 2);
  }

  lemma SecondCreates() returns (tr: Trace)
    ensures RanLate(tr) && Two(tr.s, Created, Pending, true, 2) && tr.s.workers == map[7 := Free]
  {
    tr := SecondAcquires();
    tr := Creates(ONE, Initial(map[]), tr, 2);
  }

  lemma OneLetter(s: Sys)
    requires s.h.m.dead == ["a"] && s.h.m.envelopes == map["a" := LETTER]
    ensures LettersOf(s.h.m.envelopes, s.h.m.dead) == [LETTER]
  {
    assert ["a"][1..] == [];
    assert LettersOf(s.h.m.envelopes, []) == [];
  }

  lemma FirstLists() returns (tr: Trace)
    ensures RanLate(tr) && Two(tr.s, Created, Pending, true, 2)
    ensures PcOf(tr.s, 7) == Reconciling([LETTER]) && PcOf(tr.s, 8) == Free
  {
    tr := SecondCreates();
    OneLetter(tr.s);
    tr := Next(ONE, Initial(map[]), tr, ListLetters(7));
  }

  lemma BothListed() returns (tr: Trace)
    ensures RanLate(tr) && Two(tr.s, Created, Pending, true, 2)
    ensures PcOf(tr.s, 7) == Reconciling([LETTER]) && PcOf(tr.s, 8) == Reconciling([LETTER])
  {
    tr := FirstLists();
    OneLetter(tr.s);
    tr := Next(ONE, Initial(map[]), tr, ListLetters(8));
  }

  lemma BothRead() returns (tr: Trace)
    ensures RanLate(tr) && Two(tr.s, Created, Pending, true, 2)
    ensures PcOf(tr.s, 7) == Closing([LETTER], tr.s.jobs["a"]) && PcOf(tr.s, 8) == Closing([LETTER], tr.s.jobs["a"])
  {
    tr := BothListed();
    tr := ReadsLetter(ONE, Initial(map[]), tr, 7);
    assert PcOf(tr.s, 7) == Closing([LETTER], tr.s.jobs["a"]) && Two(tr.s, Created, Pending, true, 2);
    tr := ReadsLetter(ONE, Initial(map[]), tr, 8);
  }

  lemma FirstCloses() returns (tr: Trace)
    ensures RanLate(tr) && Two(tr.s, Created, Failed, true, 1)
    ensures PcOf(tr.s, 8).Closing? && PcOf(tr.s, 8).todo == [LETTER]
  {
    tr := BothRead();
    tr := GivesUp(ONE, Initial(map[]), tr, 7);
  }

  /** The second reconciler gives the same slot back: "b" is active and the tenant is accounted none. */
  lemma TwoReconcilers() returns (tr: Trace)
    ensures RanLate(tr) && PcOf(tr.s, 8).Closing?
    ensures var s' := GivenUp(tr.s, 8);
      "b" in ActiveOf(s'.jobs, "t") && SlotOf(s'.slots, "t") == 0 && !SlotExact(s', "t")
  {
    tr := FirstCloses();
    var s' := GivenUp(tr.s, 8);
    assert s'.jobs["b"] == tr.s.jobs["b"];
    assert "b" in ActiveOf(s'.jobs, "t");
  }
}
