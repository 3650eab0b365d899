/** The exact condition of each write of a Redis claim, and the runs in which all of them are met. */
module RedisClaims {
  import opened Basics
  import opened Envelopes
  import opened RedisCommands
  import opened RedisWorld
  import opened RedisSafety
  import QueueSpec

  predicate LeaseAt(l: Log, id: Id) {
    id in l.s.r.leases ==> id in l.s.r.inflight
  }

  /** Every lease belongs to a job in flight. */
  ghost predicate LeasesInFlight(l: Log) {
    forall id :: LeaseAt(l, id)
  }

  predicate EnvelopeAt(l: Log, id: Id) {
    id in l.s.r.envelopes ==> id in l.live
  }

  /** Every envelope belongs to a job that has not left the queue. */
  ghost predicate EnvelopesLive(l: Log) {
    forall id :: EnvelopeAt(l, id)
  }

  /** The attempts that a job may have where it is listed. */
  predicate Fits(cfg: Config, r: Redis, id: Id, attempt: nat) {
    && attempt <= cfg.maxAttempts
    && (id in r.ready || id in r.scheduled ==> attempt < cfg.maxAttempts)
    && (id in r.dead ==> attempt == cfg.maxAttempts)
  }

  predicate CapAt(cfg: Config, l: Log, id: Id) {
    id in l.s.r.envelopes ==> Fits(cfg, l.s.r, id, l.s.r.envelopes[id].attempt)
  }

  predicate CapPc(cfg: Config, pc: Pc) {
    match pc
    case Fetched(_, e) => e.attempt <= cfg.maxAttempts
    case Stored(e) => e.attempt <= cfg.maxAttempts
    case Holding(e) => e.attempt <= cfg.maxAttempts
    case _ => true
  }

  /** No envelope in the table or in the hands of a process exceeds the cap; waiting jobs are below it and
      dead letters have reached it. */
  ghost predicate Capped(cfg: Config, l: Log) {
    && (forall id :: CapAt(cfg, l, id))
    && (forall w :: CapPc(cfg, PcOf(l.s, w)))
  }

  /** Each of the three conditions passes from `l` to `l'` at one id, the last one if `fits`. */
  predicate KeptAt(cfg: Config, fits: bool, l: Log, l': Log, id: Id) {
    && (LeaseAt(l, id) ==> LeaseAt(l', id))
    && (EnvelopeAt(l, id) ==> EnvelopeAt(l', id))
    && (fits && CapAt(cfg, l, id) ==> CapAt(cfg, l', id))
  }

  lemma WithoutFirst(s: seq<Id>, y: Id, k: Id)
    ensures k != y ==> (k in RemoveFirst(s, y) <==> k in s)
    ensures Count(s, y) <= 1 ==> y !in RemoveFirst(s, y)
  {
    CountRemoveFirst(s, y, k);
    CountRemoveFirst(s, y, y);
    CountPositive(s, k);
    CountPositive(RemoveFirst(s, y), k);
    CountPositive(s, y);
    CountPositive(RemoveFirst(s, y), y);
  }

  /** A job is listed in at most one place. */
  lemma OnePlace(l: Log, id: Id)
    requires SafeAt(l, id)
    ensures Count(l.s.r.inflight, id) <= 1 && Count(l.s.r.dead, id) <= 1
    ensures id in l.s.r.inflight ==> id !in l.s.r.ready && id !in l.s.r.scheduled && id !in l.s.r.dead && id in l.live
    ensures id in l.s.r.dead ==> id !in l.s.r.ready && id !in l.s.r.scheduled && id in l.live
    ensures id in l.s.r.scheduled || id in l.s.r.ready ==> id in l.live
  {
    CountPositive(l.s.r.ready, id);
    CountPositive(l.s.r.inflight, id);
    CountPositive(l.s.r.dead, id);
  }

  lemma EnqueueKeepsAt(cfg: Config, l: Log, a: Action, k: Id)
    requires SafeAt(l, k) && a.Enqueue?
    requires EventOf(cfg, l.s, a).Accepted? ==> a.id !in l.origin
    ensures KeptAt(cfg, true, l, Exec(cfg, l, a), k)
  {
    OnePlace(l, k);
  }

  /** A script that takes an in-flight id elsewhere and stores an envelope that fits there. */
  lemma TransferKeepsAt(cfg: Config, fits: bool, l: Log, l': Log, e: Envelope, k: Id)
    requires SafeAt(l, e.jobId) && SafeAt(l, k) && e.jobId in l.s.r.inflight && l'.live == l.live
    requires l'.s.r.envelopes == l.s.r.envelopes[e.jobId := e] && l'.s.r.leases == l.s.r.leases - {e.jobId}
    requires l'.s.r.inflight == RemoveFirst(l.s.r.inflight, e.jobId)
    requires var r, r' := l.s.r, l'.s.r;
      || (r'.ready == [e.jobId] + r.ready && r'.scheduled == r.scheduled && r'.dead == r.dead
          && e.attempt < cfg.maxAttempts)
      || (r'.ready == r.ready && r'.scheduled.Keys == r.scheduled.Keys + {e.jobId} && r'.dead == r.dead
          && e.attempt < cfg.maxAttempts)
      || (r'.ready == r.ready && r'.scheduled == r.scheduled && r'.dead == [e.jobId] + r.dead
          && (fits ==> e.attempt == cfg.maxAttempts))
    ensures KeptAt(cfg, fits, l, l', k)
  {
    OnePlace(l, e.jobId);
    OnePlace(l, k);
    WithoutFirst(l.s.r.inflight, e.jobId, k);
    assert k in l'.s.r.scheduled <==> k in l'.s.r.scheduled.Keys;
  }

  lemma RecoverKeepsAt(cfg: Config, l: Log, w: nat, k: Id)
    requires Safe(l)
    ensures KeptAt(cfg, CapPc(cfg, PcOf(l.s, w)), l, Exec(cfg, l, RunRecover(w)), k)
  {
    var l', pc := Exec(cfg, l, RunRecover(w)), PcOf(l.s, w);
    if pc.Fetched? && pc.e.jobId in l.s.r.inflight {
      assert SafeAt(l, pc.e.jobId) && SafeAt(l, k);
      TransferKeepsAt(cfg, CapPc(cfg, pc), l, l', pc.e.(lastError := Some(LEASE_EXPIRED)), k);
    }
  }

  lemma RetryKeepsAt(cfg: Config, l: Log, w: nat, error: string, now: real, k: Id)
    requires Safe(l)
    ensures KeptAt(cfg, CapPc(cfg, PcOf(l.s, w)), l, Exec(cfg, l, Retry(w, error, now)), k)
  {
    var l', pc := Exec(cfg, l, Retry(w, error, now)), PcOf(l.s, w);
    if pc.Holding? && pc.e.jobId in l.s.r.inflight {
      assert SafeAt(l, pc.e.jobId) && SafeAt(l, k);
      if pc.e.attempt >= cfg.maxAttempts {
        TransferKeepsAt(cfg, CapPc(cfg, pc), l, l', pc.e.(retryAt := None, lastError := Some(error)), k);
      } else {
        var at := now + QueueSpec.Delay(cfg, pc.e.attempt);
        assert l'.s.r.scheduled == l.s.r.scheduled[pc.e.jobId := at];
        TransferKeepsAt(cfg, CapPc(cfg, pc), l, l', pc.e.(retryAt := Some(at), lastError := Some(error)), k);
      }
    }
  }

  lemma AckKeepsAt(cfg: Config, l: Log, w: nat, k: Id)
    requires Safe(l)
    ensures KeptAt(cfg, true, l, Exec(cfg, l, Ack(w)), k)
  {
    var pc := PcOf(l.s, w);
    if pc.Holding? {
      WithoutFirst(l.s.r.inflight, pc.e.jobId, k);
    }
  }

  lemma RemoveLetterKeepsAt(cfg: Config, l: Log, w: nat, k: Id)
    requires Safe(l)
    ensures KeptAt(cfg, true, l, Exec(cfg, l, RemoveLetter(w)), k)
  {
    var pc := PcOf(l.s, w);
    if pc.Draining? && pc.got != [] {
      WithoutFirst(l.s.r.dead, pc.got[0].jobId, k);
    }
  }

  lemma PopKeepsAt(cfg: Config, l: Log, w: nat, k: Id)
    requires Safe(l)
    ensures KeptAt(cfg, true, l, Exec(cfg, l, Pop(w)), k)
  {
    var ready := l.s.r.ready;
    if PcOf(l.s, w).Idle? && ready != [] {
      assert ready == ready[..|ready| - 1] + [ready[|ready| - 1]];
    }
  }

  lemma DropMissingKeepsAt(cfg: Config, l: Log, w: nat, k: Id)
    requires Safe(l)
    ensures KeptAt(cfg, true, l, Exec(cfg, l, DropMissing(w)), k)
  {
    var pc := PcOf(l.s, w);
    assert SafePc(l, pc);
    if pc.Missing? {
      assert SafeAt(l, pc.id);
      OnePlace(l, pc.id);
      RemoveFirstAbsent(l.s.r.inflight, pc.id);
    }
  }

  lemma PromoteKeepsAt(cfg: Config, l: Log, w: nat, k: Id)
    requires Safe(l)
    ensures KeptAt(cfg, true, l, Exec(cfg, l, RunPromote(w)), k)
  {
    var pc := PcOf(l.s, w);
    assert SafeAt(l, k);
    OnePlace(l, k);
  }

  lemma RenewKeepsAt(cfg: Config, l: Log, w: nat, now: real, k: Id)
    ensures KeptAt(cfg, true, l, Exec(cfg, l, Renew(w, now)), k)
  {
  }

  /** Reading changes nothing in Redis, and neither does a crash. */
  lemma ReadsKeep(cfg: Config, l: Log, a: Action)
    requires a.ReadLeases? || a.ReadInflight? || a.ReadScore? || a.FetchExpired? || a.ReadMoved? || a.ReadDue?
      || a.ReadDead? || a.ReadLetter? || a.SkipLetter? || a.Crash?
    ensures Exec(cfg, l, a).s.r == l.s.r && Exec(cfg, l, a).live == l.live
  {
  }

  /** Every action but the two writes of a claim. */
  lemma OtherActionsKeepAt(cfg: Config, fits: bool, l: Log, a: Action, k: Id)
    requires Safe(l) && (fits ==> forall w :: CapPc(cfg, PcOf(l.s, w)))
    requires EventOf(cfg, l.s, a).Accepted? ==> EventOf(cfg, l.s, a).id !in l.origin
    requires !a.StoreClaim? && !a.AddLease?
    ensures KeptAt(cfg, fits, l, Exec(cfg, l, a), k)
  {
    assert SafeAt(l, k);
    match a
    case Enqueue(_, _, _) => EnqueueKeepsAt(cfg, l, a, k);
    case RunRecover(w) => RecoverKeepsAt(cfg, l, w, k);
    case Retry(w, error, now) => RetryKeepsAt(cfg, l, w, error, now, k);
    case Ack(w) => AckKeepsAt(cfg, l, w, k);
    case RemoveLetter(w) => RemoveLetterKeepsAt(cfg, l, w, k);
    case Pop(w) => PopKeepsAt(cfg, l, w, k);
    case DropMissing(w) => DropMissingKeepsAt(cfg, l, w, k);
    case RunPromote(w) => PromoteKeepsAt(cfg, l, w, k);
    case Renew(w, now) => RenewKeepsAt(cfg, l, w, now, k);
    case _ => ReadsKeep(cfg, l, a);
  }

  lemma CapPcKept(cfg: Config, l: Log, a: Action, v: nat)
    requires Capped(cfg, l)
    requires a.StoreClaim? && PcOf(l.s, a.w).Claiming? ==> PcOf(l.s, a.w).e.attempt <= cfg.maxAttempts
    ensures CapPc(cfg, PcOf(Exec(cfg, l, a).s, v))
  {
    assert CapPc(cfg, PcOf(l.s, v));
    if a.FetchExpired? {
      assert CapAt(cfg, l, a.id);
    }
  }

  /** Every action but the two writes of a claim keeps each of the three conditions. */
  lemma OtherActionsKeep(cfg: Config, l: Log, a: Action)
    requires Safe(l) && !a.StoreClaim? && !a.AddLease?
    requires EventOf(cfg, l.s, a).Accepted? ==> EventOf(cfg, l.s, a).id !in l.origin
    ensures var l' := Exec(cfg, l, a);
      && (LeasesInFlight(l) ==> LeasesInFlight(l'))
      && (EnvelopesLive(l) ==> EnvelopesLive(l'))
      && (Capped(cfg, l) ==> Capped(cfg, l'))
  {
    var l' := Exec(cfg, l, a);
    forall k ensures KeptAt(cfg, Capped(cfg, l), l, l', k) {
      OtherActionsKeepAt(cfg, Capped(cfg, l), l, a, k);
    }
    if LeasesInFlight(l) {
      forall k ensures LeaseAt(l', k) { assert LeaseAt(l, k) && KeptAt(cfg, Capped(cfg, l), l, l', k); }
    }
    if EnvelopesLive(l) {
      forall k ensures EnvelopeAt(l', k) { assert EnvelopeAt(l, k) && KeptAt(cfg, Capped(cfg, l), l, l', k); }
    }
    if Capped(cfg, l) {
      forall k ensures CapAt(cfg, l', k) { assert CapAt(cfg, l, k) && KeptAt(cfg, Capped(cfg, l), l, l', k); }
      forall v ensures CapPc(cfg, PcOf(l'.s, v)) { CapPcKept(cfg, l, a, v); }
    }
  }

  /** Setting the lease keeps every lease on a job in flight if and only if this job is still in flight. */
  lemma AddLeaseExactly(cfg: Config, l: Log, w: nat, now: real)
    requires LeasesInFlight(l) && PcOf(l.s, w).Stored?
    ensures var id := PcOf(l.s, w).e.jobId;
      LeasesInFlight(Exec(cfg, l, AddLease(w, now))) <==> id in l.s.r.inflight
  {
    var id, l' := PcOf(l.s, w).e.jobId, Exec(cfg, l, AddLease(w, now));
    assert l'.s.r.inflight == l.s.r.inflight && l'.s.r.leases == l.s.r.leases[id := now + cfg.lease];
    if id in l.s.r.inflight {
      forall k ensures LeaseAt(l', k) { assert LeaseAt(l, k); }
    } else {
      assert !LeaseAt(l', id);
    }
  }

  /** Writing the envelope back leaves no envelope of a departed job if and only if this job is still in
      the queue. */
  lemma StoreClaimLiveExactly(cfg: Config, l: Log, w: nat)
    requires EnvelopesLive(l) && PcOf(l.s, w).Claiming?
    ensures var id := PcOf(l.s, w).e.jobId;
      EnvelopesLive(Exec(cfg, l, StoreClaim(w))) <==> id in l.live
  {
    var e, l' := PcOf(l.s, w).e, Exec(cfg, l, StoreClaim(w));
    assert l'.live == l.live && l'.s.r.envelopes == l.s.r.envelopes[e.jobId := e];
    if e.jobId in l.live {
      forall k ensures EnvelopeAt(l', k) { assert EnvelopeAt(l, k); }
    } else {
      assert !EnvelopeAt(l', e.jobId);
    }
  }

  /** Writing the envelope back keeps the cap if and only if the attempt it writes fits the place where
      the job is by then. */
  lemma StoreClaimCapExactly(cfg: Config, l: Log, w: nat)
    requires Capped(cfg, l) && PcOf(l.s, w).Claiming?
    ensures var e := PcOf(l.s, w).e;
      Capped(cfg, Exec(cfg, l, StoreClaim(w))) <==> Fits(cfg, l.s.r, e.jobId, e.attempt)
  {
    var e, l' := PcOf(l.s, w).e, Exec(cfg, l, StoreClaim(w));
    assert l'.s.r == l.s.r.(envelopes := l.s.r.envelopes[e.jobId := e]);
    if Fits(cfg, l.s.r, e.jobId, e.attempt) {
      forall k ensures CapAt(cfg, l', k) { assert CapAt(cfg, l, k); }
      forall v ensures CapPc(cfg, PcOf(l'.s, v)) { CapPcKept(cfg, l, StoreClaim(w), v); }
    } else {
      assert !CapAt(cfg, l', e.jobId);
    }
  }

  /** The three conditions at once, with the envelopes equal to the live jobs. */
  ghost predicate Tidy(cfg: Config, l: Log) {
    Safe(l) && LeasesInFlight(l) && Capped(cfg, l) && l.s.r.envelopes.Keys == l.live.Keys
  }

  lemma TidyMeans(cfg: Config, l: Log)
    ensures Tidy(cfg, l) <==> Safe(l) && LeasesInFlight(l) && Capped(cfg, l) && EnvelopesLive(l)
  {
    if Safe(l) && EnvelopesLive(l) {
      forall k ensures k in l.s.r.envelopes.Keys <==> k in l.live.Keys {
        assert SafeAt(l, k) && EnvelopeAt(l, k);
      }
    }
    if Tidy(cfg, l) {
      forall k ensures EnvelopeAt(l, k) { assert k in l.s.r.envelopes.Keys <==> k in l.live.Keys; }
    }
  }

  /** What a claim could check before each of its writes: the job is still in flight, and the attempt to be
      written is within the cap. */
  predicate ClaimHolds(cfg: Config, l: Log, a: Action) {
    && (a.StoreClaim? && PcOf(l.s, a.w).Claiming? ==>
          var e := PcOf(l.s, a.w).e; e.jobId in l.s.r.inflight && e.attempt <= cfg.maxAttempts)
    && (a.AddLease? && PcOf(l.s, a.w).Stored? ==> PcOf(l.s, a.w).e.jobId in l.s.r.inflight)
  }

  predicate ClaimsHold(cfg: Config, l: Log, actions: seq<Action>)
    decreases |actions|
  {
    actions == [] || (ClaimHolds(cfg, l, actions[0]) && ClaimsHold(cfg, Exec(cfg, l, actions[0]), actions[1..]))
  }

  lemma StoreClaimTidy(cfg: Config, l: Log, w: nat)
    requires Tidy(cfg, l) && ClaimHolds(cfg, l, StoreClaim(w)) && PcOf(l.s, w).Claiming?
    ensures var l' := Exec(cfg, l, StoreClaim(w)); LeasesInFlight(l') && Capped(cfg, l') && EnvelopesLive(l')
  {
    var id, l' := PcOf(l.s, w).e.jobId, Exec(cfg, l, StoreClaim(w));
    TidyMeans(cfg, l);
    assert SafeAt(l, id);
    OnePlace(l, id);
    StoreClaimLiveExactly(cfg, l, w);
    StoreClaimCapExactly(cfg, l, w);
    forall k ensures LeaseAt(l', k) { assert LeaseAt(l, k); }
  }

  lemma AddLeaseTidy(cfg: Config, l: Log, w: nat, now: real)
    requires Tidy(cfg, l) && ClaimHolds(cfg, l, AddLease(w, now)) && PcOf(l.s, w).Stored?
    ensures var l' := Exec(cfg, l, AddLease(w, now)); LeasesInFlight(l') && Capped(cfg, l') && EnvelopesLive(l')
  {
    var l' := Exec(cfg, l, AddLease(w, now));
    TidyMeans(cfg, l);
    AddLeaseExactly(cfg, l, w, now);
    forall k ensures EnvelopeAt(l', k) && CapAt(cfg, l', k) { assert EnvelopeAt(l, k) && CapAt(cfg, l, k); }
    forall v ensures CapPc(cfg, PcOf(l'.s, v)) { CapPcKept(cfg, l, AddLease(w, now), v); }
  }

  lemma StepTidy(cfg: Config, l: Log, a: Action)
    requires Tidy(cfg, l) && ClaimHolds(cfg, l, a)
    requires EventOf(cfg, l.s, a).Accepted? ==> EventOf(cfg, l.s, a).id !in l.origin
    ensures Tidy(cfg, Exec(cfg, l, a))
  {
    var l' := Exec(cfg, l, a);
    StepSafe(cfg, l, a);
    TidyMeans(cfg, l);
    TidyMeans(cfg, l');
    if a.StoreClaim? {
      if PcOf(l.s, a.w).Claiming? { StoreClaimTidy(cfg, l, a.w); } else { assert l' == l; }
    } else if a.AddLease? {
      if PcOf(l.s, a.w).Stored? { AddLeaseTidy(cfg, l, a.w, a.now); } else { assert l' == l; }
    } else {
      OtherActionsKeep(cfg, l, a);
    }
  }

  /** Over every run whose claims find their jobs in flight and within the cap when they write, leases,
      envelopes and attempts are as in the memory queue. */
  lemma {:induction false} RunTidy(cfg: Config, l: Log, actions: seq<Action>)
    requires Tidy(cfg, l) && MarkersHold(cfg, l, actions) && ClaimsHold(cfg, l, actions)
    ensures Tidy(cfg, ExecAll(cfg, l, actions))
    decreases |actions|
  {
    if actions != [] {
      StepTidy(cfg, l, actions[0]);
      RunTidy(cfg, Exec(cfg, l, actions[0]), actions[1..]);
    }
  }

  lemma BeginTidy(cfg: Config)
    ensures Tidy(cfg, BEGIN)
  {
    assert Safe(BEGIN);
    forall k ensures CapAt(cfg, BEGIN, k) && LeaseAt(BEGIN, k) {}
    assert Capped(cfg, BEGIN);
  }

  /** The job whose claim is under way in a process: moved to the in-flight list, lease not yet set. */
  function UnderWay(pc: Pc): Option<Id> {
    match pc
    case Moved(id) => Some(id)
    case Claiming(e) => Some(e.jobId)
    case Stored(e) => Some(e.jobId)
    case _ => None
  }

  /** The action takes no job out of flight whose claim is under way. (A recovery does, which sees an
      in-flight job without a lease, and so do an `ack` and a `retry` by a former holder.) */
  predicate Undisturbed(cfg: Config, l: Log, a: Action) {
    forall w <- l.s.pcs.Keys :: var job := UnderWay(PcOf(l.s, w));
      job.Some? && job.value in l.s.r.inflight ==> job.value in Exec(cfg, l, a).s.r.inflight
  }

  predicate AllUndisturbed(cfg: Config, l: Log, actions: seq<Action>)
    decreases |actions|
  {
    actions == [] || (Undisturbed(cfg, l, actions[0]) && AllUndisturbed(cfg, Exec(cfg, l, actions[0]), actions[1..]))
  }

  /** A claim under way has its job in flight to itself, and an attempt left for it. */
  predicate ClaimAt(cfg: Config, l: Log, w: nat) {
    var pc := PcOf(l.s, w); var job := UnderWay(pc);
    && (job.Some? ==> job.value in l.s.r.inflight)
    && (pc.Moved? && pc.id in l.s.r.envelopes ==> l.s.r.envelopes[pc.id].attempt < cfg.maxAttempts)
    && (pc.Claiming? ==> pc.e.attempt <= cfg.maxAttempts)
  }

  predicate Apart(l: Log, v: nat, w: nat) {
    v != w && UnderWay(PcOf(l.s, v)).Some? ==> UnderWay(PcOf(l.s, v)) != UnderWay(PcOf(l.s, w))
  }

  ghost predicate ClaimsApart(cfg: Config, l: Log) {
    && (forall w :: ClaimAt(cfg, l, w))
    && (forall v, w :: Apart(l, v, w))
  }

  /** The scripts that take a job out of flight take that one and leave the envelopes of the others. */
  lemma TakenOut(cfg: Config, l: Log, a: Action, id: Id)
    requires SafeAt(l, id) && id in l.s.r.inflight && (a.RunRecover? || a.Retry? || a.Ack?)
    ensures var r, r' := l.s.r, Exec(cfg, l, a).s.r;
      id in r'.inflight && id in r'.envelopes ==> id in r.envelopes && r'.envelopes[id] == r.envelopes[id]
  {
    OnePlace(l, id);
    WithoutFirst(l.s.r.inflight, id, id);
  }

  /** The envelope of a job that stays in flight changes only when a claim of it is written back. */
  lemma InFlightEnvelope(cfg: Config, l: Log, a: Action, id: Id)
    requires Safe(l) && id in l.s.r.inflight && id in Exec(cfg, l, a).s.r.inflight
    requires EventOf(cfg, l.s, a).Accepted? ==> EventOf(cfg, l.s, a).id !in l.origin
    requires a.StoreClaim? && PcOf(l.s, a.w).Claiming? ==> PcOf(l.s, a.w).e.jobId != id
    ensures var r, r' := l.s.r, Exec(cfg, l, a).s.r;
      id in r'.envelopes ==> id in r.envelopes && r'.envelopes[id] == r.envelopes[id]
  {
    assert SafeAt(l, id);
    if a.ReadLeases? || a.ReadInflight? || a.ReadScore? || a.FetchExpired? || a.ReadMoved? || a.ReadDue?
      || a.ReadDead? || a.ReadLetter? || a.SkipLetter? || a.Crash? {
      ReadsKeep(cfg, l, a);
    } else if a.RunRecover? || a.Retry? || a.Ack? {
      TakenOut(cfg, l, a, id);
    } else {
      OnePlace(l, id);
    }
  }

  /** How a step moves a process: `Pop` alone starts a claim, which goes on by reading the envelope and
      writing it back. */
  predicate PcMoves(r: Redis, pc: Pc, pc': Pc) {
    || pc' == pc
    || UnderWay(pc') == None
    || (pc.Moved? && pc.id in r.envelopes && pc' == Claiming(Claimed(r.envelopes[pc.id])))
    || (pc.Claiming? && pc' == Stored(pc.e))
  }

  lemma RecoverMoves(cfg: Config, s: World, a: Action, w: nat)
    requires a.ReadLeases? || a.ReadInflight? || a.ReadScore? || a.FetchExpired? || a.RunRecover?
    ensures PcMoves(s.r, PcOf(s, w), PcOf(ActRecover(cfg, s, a), w))
  {
  }

  lemma ClaimMoves(cfg: Config, s: World, a: Action, w: nat)
    requires a.ReadMoved? || a.DropMissing? || a.StoreClaim? || a.AddLease?
    ensures PcMoves(s.r, PcOf(s, w), PcOf(ActClaim(cfg, s, a), w))
  {
  }

  lemma StepMoves(cfg: Config, l: Log, a: Action, w: nat)
    requires !a.Pop?
    ensures PcMoves(l.s.r, PcOf(l.s, w), PcOf(Exec(cfg, l, a).s, w))
  {
    if a.ReadLeases? || a.ReadInflight? || a.ReadScore? || a.FetchExpired? || a.RunRecover? {
      RecoverMoves(cfg, l.s, a, w);
    } else if a.ReadMoved? || a.DropMissing? || a.StoreClaim? || a.AddLease? {
      ClaimMoves(cfg, l.s, a, w);
    }
  }

  lemma UnderWayKept(cfg: Config, l: Log, a: Action, w: nat)
    requires Safe(l) && !a.Pop?
    ensures var job, job' := UnderWay(PcOf(l.s, w)), UnderWay(PcOf(Exec(cfg, l, a).s, w));
      job' == None || job' == job
  {
    var pc := PcOf(l.s, w);
    StepMoves(cfg, l, a, w);
    if pc.Moved? {
      assert SafeAt(l, pc.id);
    }
  }

  /** A job in the ready list has no claim under way. */
  lemma ReadyIsFree(cfg: Config, l: Log, id: Id, v: nat)
    requires Safe(l) && ClaimsApart(cfg, l) && id in l.s.r.ready
    ensures UnderWay(PcOf(l.s, v)) != Some(id)
  {
    assert SafeAt(l, id);
    OnePlace(l, id);
    assert ClaimAt(cfg, l, v);
  }

  lemma PopApart(cfg: Config, l: Log, p: nat)
    requires Tidy(cfg, l) && ClaimsApart(cfg, l)
    ensures ClaimsApart(cfg, Exec(cfg, l, Pop(p)))
  {
    var l', ready := Exec(cfg, l, Pop(p)), l.s.r.ready;
    if PcOf(l.s, p).Idle? && ready != [] {
      var id := ready[|ready| - 1];
      assert id in ready && CapAt(cfg, l, id);
      forall w ensures ClaimAt(cfg, l', w) { assert ClaimAt(cfg, l, w); }
      forall v, w ensures Apart(l', v, w) {
        assert Apart(l, v, w);
        ReadyIsFree(cfg, l, id, v);
        ReadyIsFree(cfg, l, id, w);
      }
    } else {
      assert l' == l;
    }
  }

  /** No other claim writes the envelope of a job that this process has moved. */
  lemma MovedEnvelope(cfg: Config, l: Log, a: Action, w: nat)
    requires Safe(l) && ClaimsApart(cfg, l) && PcOf(l.s, w).Moved?
    requires PcOf(l.s, w).id in Exec(cfg, l, a).s.r.inflight
    requires EventOf(cfg, l.s, a).Accepted? ==> EventOf(cfg, l.s, a).id !in l.origin
    ensures var id, r, r' := PcOf(l.s, w).id, l.s.r, Exec(cfg, l, a).s.r;
      id in r'.envelopes ==> id in r.envelopes && r'.envelopes[id] == r.envelopes[id]
  {
    assert ClaimAt(cfg, l, w);
    if a.StoreClaim? { assert Apart(l, w, a.w); }
    InFlightEnvelope(cfg, l, a, PcOf(l.s, w).id);
  }

  lemma InFlightKept(cfg: Config, l: Log, a: Action, w: nat, id: Id)
    requires Undisturbed(cfg, l, a) && UnderWay(PcOf(l.s, w)) == Some(id) && id in l.s.r.inflight
    ensures id in Exec(cfg, l, a).s.r.inflight
  {
    assert w in l.s.pcs.Keys;
  }

  lemma ClaimAtKept(cfg: Config, l: Log, a: Action, w: nat)
    requires Tidy(cfg, l) && ClaimsApart(cfg, l) && Undisturbed(cfg, l, a) && !a.Pop?
    requires EventOf(cfg, l.s, a).Accepted? ==> EventOf(cfg, l.s, a).id !in l.origin
    ensures ClaimAt(cfg, Exec(cfg, l, a), w)
  {
    var pc, pc' := PcOf(l.s, w), PcOf(Exec(cfg, l, a).s, w);
    assert ClaimAt(cfg, l, w);
    StepMoves(cfg, l, a, w);
    UnderWayKept(cfg, l, a, w);
    if UnderWay(pc').Some? {
      InFlightKept(cfg, l, a, w, UnderWay(pc').value);
      if pc'.Moved? {
        MovedEnvelope(cfg, l, a, w);
      }
    }
  }

  lemma StepApart(cfg: Config, l: Log, a: Action)
    requires Tidy(cfg, l) && ClaimsApart(cfg, l) && Undisturbed(cfg, l, a)
    requires EventOf(cfg, l.s, a).Accepted? ==> EventOf(cfg, l.s, a).id !in l.origin
    ensures ClaimHolds(cfg, l, a) && Tidy(cfg, Exec(cfg, l, a)) && ClaimsApart(cfg, Exec(cfg, l, a))
  {
    if a.StoreClaim? || a.AddLease? {
      assert ClaimAt(cfg, l, a.w);
    }
    StepTidy(cfg, l, a);
    if a.Pop? {
      PopApart(cfg, l, a.w);
    } else {
      forall w ensures ClaimAt(cfg, Exec(cfg, l, a), w) { ClaimAtKept(cfg, l, a, w); }
      forall v, w ensures Apart(Exec(cfg, l, a), v, w) {
        assert Apart(l, v, w);
        UnderWayKept(cfg, l, a, v);
        UnderWayKept(cfg, l, a, w);
      }
    }
  }

  lemma {:induction false} RunApart(cfg: Config, l: Log, actions: seq<Action>)
    requires Tidy(cfg, l) && ClaimsApart(cfg, l)
    requires MarkersHold(cfg, l, actions) && AllUndisturbed(cfg, l, actions)
    ensures Tidy(cfg, ExecAll(cfg, l, actions)) && ClaimsApart(cfg, ExecAll(cfg, l, actions))
    ensures ClaimsHold(cfg, l, actions)
    decreases |actions|
  {
    if actions != [] {
      StepApart(cfg, l, actions[0]);
      RunApart(cfg, Exec(cfg, l, actions[0]), actions[1..]);
    }
  }

  /** Over every run in which no job is taken out of flight while a claim of it is under way: leases belong
      to jobs in flight, envelopes to live jobs, attempts stay within the cap, and at most one claim of a
      job is under way at a time. */
  lemma UndisturbedClaims(cfg: Config, actions: seq<Action>, id: Id, v: nat, w: nat)
    requires MarkersHold(cfg, BEGIN, actions) && AllUndisturbed(cfg, BEGIN, actions)
    ensures var l := ExecAll(cfg, BEGIN, actions); var r := l.s.r;
      && (id in r.leases ==> id in r.inflight)
      && (id in r.envelopes <==> id in l.live)
      && (id in r.envelopes ==> Fits(cfg, r, id, r.envelopes[id].attempt))
      && (UnderWay(PcOf(l.s, v)) == Some(id) == UnderWay(PcOf(l.s, w)) ==> v == w)
  {
    BeginTidy(cfg);
    assert ClaimsApart(cfg, BEGIN);
    RunApart(cfg, BEGIN, actions);
    var l := ExecAll(cfg, BEGIN, actions);
    assert LeaseAt(l, id) && CapAt(cfg, l, id) && Apart(l, v, w);
    assert id in l.s.r.envelopes.Keys <==> id in l.live.Keys;
  }

  /** The same with the checks that the claim's own writes could make. */
  lemma CheckedClaims(cfg: Config, actions: seq<Action>, id: Id)
    requires MarkersHold(cfg, BEGIN, actions) && ClaimsHold(cfg, BEGIN, actions)
    ensures var l := ExecAll(cfg, BEGIN, actions); var r := l.s.r;
      && (id in r.leases ==> id in r.inflight)
      && (id in r.envelopes <==> id in l.live)
      && (id in r.envelopes ==> Fits(cfg, r, id, r.envelopes[id].attempt))
  {
    BeginTidy(cfg);
    RunTidy(cfg, BEGIN, actions);
    var l := ExecAll(cfg, BEGIN, actions);
    assert LeaseAt(l, id) && CapAt(cfg, l, id);
    assert id in l.s.r.envelopes.Keys <==> id in l.live.Keys;
  }

  // What the job protocol needs of its queue: a held job is in flight, to one process, with the envelope that
  // this process holds.

  function Busy(pc: Pc): Option<Id> {
    if pc.Holding? then Some(pc.e.jobId) else UnderWay(pc)
  }

  predicate ActsFor(a: Action, w: nat) {
    !a.Enqueue? && a.w == w
  }

  /** The action takes no job out of flight that another process claims or holds. */
  predicate Unrobbed(cfg: Config, l: Log, a: Action) {
    forall w <- l.s.pcs.Keys :: var job := Busy(PcOf(l.s, w));
      !ActsFor(a, w) && job.Some? && job.value in l.s.r.inflight ==> job.value in Exec(cfg, l, a).s.r.inflight
  }

  predicate AllUnrobbed(cfg: Config, l: Log, actions: seq<Action>)
    decreases |actions|
  {
    actions == [] || (Unrobbed(cfg, l, actions[0]) && AllUnrobbed(cfg, Exec(cfg, l, actions[0]), actions[1..]))
  }

  predicate HoldAt(l: Log, w: nat) {
    var pc := PcOf(l.s, w); var job := Busy(pc);
    && (job.Some? ==> job.value in l.s.r.inflight)
    && (pc.Stored? || pc.Holding? ==> pc.e.jobId in l.s.r.envelopes && l.s.r.envelopes[pc.e.jobId] == pc.e)
  }

  predicate HeldApart(l: Log, v: nat, w: nat) {
    v != w && Busy(PcOf(l.s, v)).Some? ==> Busy(PcOf(l.s, v)) != Busy(PcOf(l.s, w))
  }

  ghost predicate Held(l: Log) {
    (forall w :: HoldAt(l, w)) && (forall v, w :: HeldApart(l, v, w))
  }

  /** A process that goes on with its own job leaves the in-flight list alone. */
  lemma OwnStep(cfg: Config, l: Log, a: Action)
    requires !a.Enqueue? && Busy(PcOf(l.s, a.w)).Some? && Busy(PcOf(Exec(cfg, l, a).s, a.w)).Some?
    ensures var r, r', pc := l.s.r, Exec(cfg, l, a).s.r, PcOf(l.s, a.w);
      && r'.inflight == r.inflight
      && r'.envelopes == if a.StoreClaim? && pc.Claiming? then r.envelopes[pc.e.jobId := pc.e] else r.envelopes
  {
  }

  lemma HeldEnvelope(cfg: Config, l: Log, a: Action, w: nat)
    requires Safe(l) && Held(l) && !ActsFor(a, w) && (PcOf(l.s, w).Stored? || PcOf(l.s, w).Holding?)
    requires PcOf(l.s, w).e.jobId in Exec(cfg, l, a).s.r.inflight && PcOf(l.s, w).e.jobId in Exec(cfg, l, a).s.r.envelopes
    requires EventOf(cfg, l.s, a).Accepted? ==> EventOf(cfg, l.s, a).id !in l.origin
    ensures Exec(cfg, l, a).s.r.envelopes[PcOf(l.s, w).e.jobId] == PcOf(l.s, w).e
  {
    assert HoldAt(l, w);
    if a.StoreClaim? { assert HeldApart(l, w, a.w); }
    InFlightEnvelope(cfg, l, a, PcOf(l.s, w).e.jobId);
  }

  lemma OthersHold(cfg: Config, l: Log, a: Action, w: nat)
    requires Tidy(cfg, l) && Held(l) && Unrobbed(cfg, l, a) && !ActsFor(a, w) && Safe(Exec(cfg, l, a))
    requires PcOf(Exec(cfg, l, a).s, w) == PcOf(l.s, w)
    requires EventOf(cfg, l.s, a).Accepted? ==> EventOf(cfg, l.s, a).id !in l.origin
    ensures HoldAt(Exec(cfg, l, a), w)
  {
    var l', pc := Exec(cfg, l, a), PcOf(l.s, w);
    assert HoldAt(l, w);
    if Busy(pc).Some? {
      assert w in l.s.pcs.Keys;
      assert SafeAt(l', Busy(pc).value);
      OnePlace(l', Busy(pc).value);
      if pc.Stored? || pc.Holding? { HeldEnvelope(cfg, l, a, w); }
    }
  }

  lemma OtherPcs(cfg: Config, l: Log, a: Action, w: nat)
    requires !ActsFor(a, w)
    ensures PcOf(Exec(cfg, l, a).s, w) == PcOf(l.s, w)
  {
  }

  /** How a process goes on with its job: it reads the envelope, writes it back, and sets the lease. */
  predicate GoesOn(r: Redis, pc: Pc, pc': Pc, stores: bool) {
    || Busy(pc') == None
    || (pc' == pc && !(stores && pc.Claiming?))
    || (pc.Moved? && pc.id in r.envelopes && pc' == Claiming(Claimed(r.envelopes[pc.id])))
    || (stores && pc.Claiming? && pc' == Stored(pc.e))
    || (pc.Stored? && pc' == Holding(pc.e))
  }

  lemma RecoverGoesOn(cfg: Config, s: World, a: Action)
    requires a.ReadLeases? || a.ReadInflight? || a.ReadScore? || a.FetchExpired? || a.RunRecover?
    ensures GoesOn(s.r, PcOf(s, a.w), PcOf(ActRecover(cfg, s, a), a.w), false)
  {
  }

  lemma ClaimGoesOn(cfg: Config, s: World, a: Action)
    requires a.ReadMoved? || a.DropMissing? || a.StoreClaim? || a.AddLease?
    ensures GoesOn(s.r, PcOf(s, a.w), PcOf(ActClaim(cfg, s, a), a.w), a.StoreClaim?)
  {
  }

  lemma StepGoesOn(cfg: Config, l: Log, a: Action)
    requires !a.Enqueue? && !a.Pop?
    ensures GoesOn(l.s.r, PcOf(l.s, a.w), PcOf(Exec(cfg, l, a).s, a.w), a.StoreClaim?)
  {
    if a.ReadLeases? || a.ReadInflight? || a.ReadScore? || a.FetchExpired? || a.RunRecover? {
      RecoverGoesOn(cfg, l.s, a);
    } else if a.ReadMoved? || a.DropMissing? || a.StoreClaim? || a.AddLease? {
      ClaimGoesOn(cfg, l.s, a);
    }
  }

  /** Other than by a `Pop`, no process becomes busy. */
  lemma BusyKept(cfg: Config, l: Log, a: Action)
    requires Safe(l) && !a.Enqueue? && !a.Pop? && Busy(PcOf(Exec(cfg, l, a).s, a.w)).Some?
    ensures Busy(PcOf(l.s, a.w)) == Busy(PcOf(Exec(cfg, l, a).s, a.w))
  {
    StepGoesOn(cfg, l, a);
    if PcOf(l.s, a.w).Moved? { assert SafeAt(l, PcOf(l.s, a.w).id); }
  }

  lemma HoldCarried(l: Log, l': Log, w: nat, stores: bool)
    requires Safe(l) && HoldAt(l, w) && GoesOn(l.s.r, PcOf(l.s, w), PcOf(l'.s, w), stores)
    requires Busy(PcOf(l'.s, w)).Some? ==> l'.s.r.inflight == l.s.r.inflight
    requires Busy(PcOf(l'.s, w)).Some? ==>
               l'.s.r.envelopes == if stores && PcOf(l.s, w).Claiming?
                                   then l.s.r.envelopes[PcOf(l.s, w).e.jobId := PcOf(l.s, w).e] else l.s.r.envelopes
    ensures HoldAt(l', w)
  {
    if PcOf(l.s, w).Moved? { assert SafeAt(l, PcOf(l.s, w).id); }
  }

  lemma OwnHold(cfg: Config, l: Log, a: Action)
    requires Tidy(cfg, l) && Held(l) && !a.Enqueue? && !a.Pop?
    ensures HoldAt(Exec(cfg, l, a), a.w)
  {
    assert HoldAt(l, a.w);
    StepGoesOn(cfg, l, a);
    if Busy(PcOf(Exec(cfg, l, a).s, a.w)).Some? {
      BusyKept(cfg, l, a);
      OwnStep(cfg, l, a);
    }
    HoldCarried(l, Exec(cfg, l, a), a.w, a.StoreClaim?);
  }

  lemma ReadyIsUnheld(l: Log, id: Id, v: nat)
    requires Safe(l) && Held(l) && id in l.s.r.ready
    ensures Busy(PcOf(l.s, v)) != Some(id)
  {
    assert SafeAt(l, id);
    OnePlace(l, id);
    assert HoldAt(l, v);
  }

  lemma PopHeld(cfg: Config, l: Log, p: nat)
    requires Tidy(cfg, l) && Held(l)
    ensures Held(Exec(cfg, l, Pop(p)))
  {
    var l', ready := Exec(cfg, l, Pop(p)), l.s.r.ready;
    if PcOf(l.s, p).Idle? && ready != [] {
      var id := ready[|ready| - 1];
      assert id in ready;
      forall w ensures HoldAt(l', w) { assert HoldAt(l, w); }
      forall v, w ensures HeldApart(l', v, w) {
        assert HeldApart(l, v, w);
        ReadyIsUnheld(l, id, v);
        ReadyIsUnheld(l, id, w);
      }
    } else {
      assert l' == l;
    }
  }

  lemma HoldKept(cfg: Config, l: Log, a: Action, w: nat)
    requires Tidy(cfg, l) && Held(l) && Unrobbed(cfg, l, a) && !a.Pop? && Safe(Exec(cfg, l, a))
    requires EventOf(cfg, l.s, a).Accepted? ==> EventOf(cfg, l.s, a).id !in l.origin
    ensures HoldAt(Exec(cfg, l, a), w)
  {
    if ActsFor(a, w) {
      OwnHold(cfg, l, a);
    } else {
      OtherPcs(cfg, l, a, w);
      OthersHold(cfg, l, a, w);
    }
  }

  /** Nobody becomes busy but by a `Pop`. */
  lemma ApartKept(cfg: Config, l: Log, a: Action, v: nat, w: nat)
    requires Safe(l) && Held(l) && !a.Pop?
    ensures HeldApart(Exec(cfg, l, a), v, w)
  {
    assert HeldApart(l, v, w);
    forall u | u == v || u == w
      ensures Busy(PcOf(Exec(cfg, l, a).s, u)).None? || Busy(PcOf(Exec(cfg, l, a).s, u)) == Busy(PcOf(l.s, u))
    {
      if !ActsFor(a, u) { OtherPcs(cfg, l, a, u); }
      else if Busy(PcOf(Exec(cfg, l, a).s, u)).Some? { BusyKept(cfg, l, a); }
    }
  }

  /** No process robs itself of its claim. */
  lemma UnrobbedIsUndisturbed(cfg: Config, l: Log, a: Action)
    requires Unrobbed(cfg, l, a)
    ensures Undisturbed(cfg, l, a)
  {
    forall w <- l.s.pcs.Keys | UnderWay(PcOf(l.s, w)).Some? && UnderWay(PcOf(l.s, w)).value in l.s.r.inflight
      ensures UnderWay(PcOf(l.s, w)).value in Exec(cfg, l, a).s.r.inflight
    {
      if ActsFor(a, w) { OwnClaimStays(cfg, l, a); }
    }
  }

  lemma OwnClaimStays(cfg: Config, l: Log, a: Action)
    requires !a.Enqueue? && UnderWay(PcOf(l.s, a.w)).Some?
    ensures Exec(cfg, l, a).s.r.inflight == l.s.r.inflight
  {
  }

  lemma StepHeld(cfg: Config, l: Log, a: Action)
    requires Tidy(cfg, l) && ClaimsApart(cfg, l) && Held(l) && Unrobbed(cfg, l, a)
    requires EventOf(cfg, l.s, a).Accepted? ==> EventOf(cfg, l.s, a).id !in l.origin
    ensures var l' := Exec(cfg, l, a); Tidy(cfg, l') && ClaimsApart(cfg, l') && Held(l')
  {
    UnrobbedIsUndisturbed(cfg, l, a);
    StepApart(cfg, l, a);
    if a.Pop? {
      PopHeld(cfg, l, a.w);
    } else {
      forall w ensures HoldAt(Exec(cfg, l, a), w) { HoldKept(cfg, l, a, w); }
      forall v, w ensures HeldApart(Exec(cfg, l, a), v, w) { ApartKept(cfg, l, a, v, w); }
    }
  }

  lemma {:induction false} RunHeld(cfg: Config, l: Log, actions: seq<Action>)
    requires Tidy(cfg, l) && ClaimsApart(cfg, l) && Held(l)
    requires MarkersHold(cfg, l, actions) && AllUnrobbed(cfg, l, actions)
    ensures Held(ExecAll(cfg, l, actions))
    decreases |actions|
  {
    if actions != [] {
      StepHeld(cfg, l, actions[0]);
      RunHeld(cfg, Exec(cfg, l, actions[0]), actions[1..]);
    }
  }

  /** Over every run in which no job is taken out of flight that another process claims or holds: a job is held
      by one process at most, is in flight as long as it is, and its stored envelope is the holder's. So two
      live workers never hold one job. */
  lemma OneHolder(cfg: Config, actions: seq<Action>, v: nat, w: nat)
    requires MarkersHold(cfg, BEGIN, actions) && AllUnrobbed(cfg, BEGIN, actions)
    ensures var l := ExecAll(cfg, BEGIN, actions); var pc := PcOf(l.s, v);
      && (pc.Holding? ==> pc.e.jobId in l.s.r.inflight
                          && pc.e.jobId in l.s.r.envelopes && l.s.r.envelopes[pc.e.jobId] == pc.e)
      && (Busy(pc).Some? && Busy(pc) == Busy(PcOf(l.s, w)) ==> v == w)
  {
    BeginTidy(cfg);
    assert ClaimsApart(cfg, BEGIN) && Held(BEGIN);
    RunHeld(cfg, BEGIN, actions);
    var l := ExecAll(cfg, BEGIN, actions);
    assert HoldAt(l, v) && HeldApart(l, v, w);
  }
}
