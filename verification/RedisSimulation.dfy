/** Uninterrupted operations of the Redis backend do what the memory backend does: scripts and batches, as
    functions on the two states. */
module RedisSimulation {
  import opened Basics
  import opened Envelopes
  import opened Dicts
  import opened QueueInvariant
  import opened RedisCommands
  import Q = QueueSpec
  import opened QueueRuns

  /** The one field that the two backends treat differently: Redis clears it on a claim. */
  predicate SameButRetryAt(e: Envelope, f: Envelope) {
    e.(retryAt := None) == f.(retryAt := None)
  }

  ghost predicate SameEnvelopes(a: map<Id, Envelope>, b: map<Id, Envelope>) {
    a.Keys == b.Keys && forall id <- a.Keys :: SameButRetryAt(a[id], b[id])
  }

  /** Lists are stored reversed, the in-flight table is the lease table, and its domain is the in-flight
      list; the order of Python's tables has no counterpart. */
  ghost predicate Sim(cfg: Config, r: Redis, m: Q.Mem) {
    && Inv(cfg, m)
    && r.markers == m.known
    && SameEnvelopes(r.envelopes, m.envelopes)
    && Reverse(r.ready) == m.ready
    && Reverse(r.dead) == m.dead
    && r.leases == m.inflight.at
    && r.scheduled == m.scheduled.at
    && NoDup(r.inflight)
    && (forall id :: id in r.inflight <==> id in r.leases)
  }

  lemma {:induction false} RemoveFirstLast(s: seq<Id>, h: Id, x: Id)
    ensures RemoveFirst(s + [h], x) == if x in s then RemoveFirst(s, x) + [h] else if h == x then s else s + [h]
  {
    if s != [] {
      RemoveFirstLast(s[1..], h, x);
      assert (s + [h])[1..] == s[1..] + [h];
      assert s == [s[0]] + s[1..];
    }
  }

  lemma {:induction false} ReverseMember(s: seq<Id>, x: Id)
    ensures x in Reverse(s) <==> x in s
  {
    CountReverse(s, x);
    CountPositive(s, x);
    CountPositive(Reverse(s), x);
  }

  lemma {:induction false} ReverseRemove(s: seq<Id>, x: Id)
    requires NoDup(s)
    ensures Reverse(RemoveFirst(s, x)) == RemoveFirst(Reverse(s), x)
  {
    if s != [] {
      var rest := s[1..];
      ReverseRemove(rest, x);
      RemoveFirstLast(Reverse(rest), s[0], x);
      ReverseMember(rest, x);
      if s[0] == x {
        assert x !in rest;
      } else {
        assert ([s[0]] + RemoveFirst(rest, x))[1..] == RemoveFirst(rest, x);
        if x !in rest {
          RemoveFirstAbsent(rest, x);
        }
      }
    }
  }

  lemma InflightAgree(cfg: Config, r: Redis, m: Q.Mem, id: Id)
    requires Sim(cfg, r, m)
    ensures id in r.inflight <==> id in m.inflight.at
    ensures id in r.inflight ==> id in r.envelopes && id in m.envelopes && SameButRetryAt(r.envelopes[id], m.envelopes[id])
  {
    assert id in r.inflight <==> id in r.leases;
    assert InvAt(cfg, m, id);
    Listed(cfg, m, id);
  }

  lemma EnqueueSim(cfg: Config, r: Redis, m: Q.Mem, id: Id, p: Payload, now: real)
    requires Sim(cfg, r, m) && !Q.Refused(id, p) && now >= 0.0
    requires Q.Enqueue(cfg, m, id, p, now).1.Accepted? ==> id !in m.envelopes
    ensures var (r', ok) := EnqueueScript(r, Envelope(id, p, 0, None, None), now, cfg.ttl);
      var (m', reply) := Q.Enqueue(cfg, m, id, p, now);
      Sim(cfg, r', m') && (ok <==> reply.Accepted?)
  {
    if Q.Enqueue(cfg, m, id, p, now).1.Accepted? {
      EnqueueKeeps(cfg, m, id, p, now);
      ReversePush(r.ready, id);
    }
  }

  lemma AckSim(cfg: Config, r: Redis, m: Q.Mem, id: Id)
    requires Sim(cfg, r, m)
    ensures var (r', ok) := AckScript(r, id); var (m', done) := Q.Ack(m, id);
      Sim(cfg, r', m') && ok == done
  {
    InflightAgree(cfg, r, m, id);
    AckKeeps(cfg, m, id);
    RemoveFirstKeepsNoDup(r.inflight, id);
  }

  lemma RenewSim(cfg: Config, r: Redis, m: Q.Mem, id: Id, until: real)
    requires Sim(cfg, r, m)
    ensures var (r', ok) := RenewScript(r, id, until); var (m', done) := Q.Renew(m, id, until);
      Sim(cfg, r', m') && ok == done
  {
    InflightAgree(cfg, r, m, id);
    RenewKeeps(cfg, m, id, until);
  }

  lemma RemoveDeadSim(cfg: Config, r: Redis, m: Q.Mem, id: Id)
    requires Sim(cfg, r, m)
    ensures var (r', ok) := RemoveDeadScript(r, id); var (m', done) := Q.RemoveDead(m, id);
      Sim(cfg, r', m') && ok == done
  {
    RemoveDeadKeeps(cfg, m, id);
    ReverseMember(r.dead, id);
    DeadNoDup(cfg, r, m);
    ReverseRemove(r.dead, id);
  }

  lemma DeadNoDup(cfg: Config, r: Redis, m: Q.Mem)
    requires Sim(cfg, r, m)
    ensures NoDup(r.dead)
  {
    forall x <- r.dead ensures Count(r.dead, x) <= 1 {
      CountReverse(r.dead, x);
      assert InvAt(cfg, m, x);
    }
    NoDupIffCount(r.dead);
  }

  lemma SetEnvelope(a: map<Id, Envelope>, b: map<Id, Envelope>, id: Id, e: Envelope, f: Envelope)
    requires SameEnvelopes(a, b) && SameButRetryAt(e, f)
    ensures SameEnvelopes(a[id := e], b[id := f])
  {
  }

  /** Both backends take `id` out of flight, store its envelope and put it somewhere else. */
  lemma LeaveFlight(cfg: Config, r: Redis, m: Q.Mem, r': Redis, m': Q.Mem, e: Envelope, f: Envelope)
    requires Sim(cfg, r, m) && Inv(cfg, m')
    requires SameButRetryAt(e, f) && e.jobId in m.inflight.at
    requires r'.markers == r.markers && m'.known == m.known
    requires r'.inflight == RemoveFirst(r.inflight, e.jobId) && r'.leases == r.leases - {e.jobId}
    requires m'.inflight == Del(m.inflight, e.jobId)
    requires r'.envelopes == r.envelopes[e.jobId := e] && m'.envelopes == m.envelopes[e.jobId := f]
    requires Reverse(r'.ready) == m'.ready && Reverse(r'.dead) == m'.dead && r'.scheduled == m'.scheduled.at
    ensures Sim(cfg, r', m')
  {
    SetEnvelope(r.envelopes, m.envelopes, e.jobId, e, f);
    RemoveFirstKeepsNoDup(r.inflight, e.jobId);
  }

  /** A holder's envelope may differ from the memory one in the field that its claim cleared. */
  lemma RetrySim(cfg: Config, r: Redis, m: Q.Mem, e: Envelope, f: Envelope, error: string, now: real)
    requires Sim(cfg, r, m) && SameButRetryAt(e, f) && 1 <= e.attempt <= cfg.maxAttempts
    ensures var (m', reply) := Q.Retry(cfg, m, f, error, now);
      var (r', ok) := RetryCommand(cfg, r, e, error, now);
      Sim(cfg, r', m') && (ok <==> !reply.NotInflight?)
  {
    InflightAgree(cfg, r, m, e.jobId);
    RetryKeeps(cfg, m, f, error, now);
    if e.jobId in r.inflight {
      if e.attempt >= cfg.maxAttempts { DeadLetterSim(cfg, r, m, e, f, error, now); }
      else { ScheduleSim(cfg, r, m, e, f, error, now); }
    }
  }

  lemma DeadLetterSim(cfg: Config, r: Redis, m: Q.Mem, e: Envelope, f: Envelope, error: string, now: real)
    requires Sim(cfg, r, m) && SameButRetryAt(e, f) && e.attempt >= cfg.maxAttempts
    requires e.jobId in m.inflight.at && e.jobId in r.inflight && Inv(cfg, Q.Retry(cfg, m, f, error, now).0)
    ensures Sim(cfg, RetryCommand(cfg, r, e, error, now).0, Q.Retry(cfg, m, f, error, now).0)
  {
    ReversePush(r.dead, e.jobId);
    LeaveFlight(cfg, r, m, RetryCommand(cfg, r, e, error, now).0, Q.Retry(cfg, m, f, error, now).0,
                e.(retryAt := None, lastError := Some(error)), f.(retryAt := None, lastError := Some(error)));
  }

  lemma ScheduleSim(cfg: Config, r: Redis, m: Q.Mem, e: Envelope, f: Envelope, error: string, now: real)
    requires Sim(cfg, r, m) && SameButRetryAt(e, f) && e.attempt < cfg.maxAttempts
    requires e.jobId in m.inflight.at && e.jobId in r.inflight && Inv(cfg, Q.Retry(cfg, m, f, error, now).0)
    ensures Sim(cfg, RetryCommand(cfg, r, e, error, now).0, Q.Retry(cfg, m, f, error, now).0)
  {
    var at := now + Q.Delay(cfg, e.attempt);
    LeaveFlight(cfg, r, m, RetryCommand(cfg, r, e, error, now).0, Q.Retry(cfg, m, f, error, now).0,
                e.(retryAt := Some(at), lastError := Some(error)), f.(retryAt := Some(at), lastError := Some(error)));
  }

  lemma RecoverOneSim(cfg: Config, r: Redis, m: Q.Mem, id: Id)
    requires Sim(cfg, r, m) && id in m.inflight.at
    ensures id in r.envelopes && r.envelopes[id].jobId == id
    ensures var (r', ok) := RecoverOne(cfg, r, r.envelopes[id]);
      ok && Sim(cfg, r', Q.RecoverOne(cfg, m, id))
  {
    InflightAgree(cfg, r, m, id);
    RecoverOneKeeps(cfg, m, id);
    assert InvAt(cfg, m, id);
    var e, f := r.envelopes[id], m.envelopes[id];
    ReversePush(r.dead, id);
    ReversePush(r.ready, id);
    LeaveFlight(cfg, r, m, RecoverOne(cfg, r, e).0, Q.RecoverOne(cfg, m, id),
                e.(lastError := Some(LEASE_EXPIRED)), f.(lastError := Some(LEASE_EXPIRED)));
  }

  lemma PromoteOneSim(cfg: Config, r: Redis, m: Q.Mem, id: Id)
    requires Sim(cfg, r, m) && id in m.scheduled.at
    ensures var (r', ok) := PromoteScript(r, id);
      ok && Sim(cfg, r', Q.PromoteOne(m, id))
  {
    PromoteOneKeeps(cfg, m, id);
    ReversePush(r.ready, id);
  }

  /** The four commands of a claim with nothing in between. */
  function ClaimCommands(cfg: Config, r: Redis, now: real): (Redis, Option<Envelope>) {
    var (r1, id) := PopCommand(r);
    if id.None? || id.value !in r1.envelopes then (r1, None) else
      var e := Claimed(r1.envelopes[id.value]);
      (r1.(envelopes := r1.envelopes[e.jobId := e], leases := r1.leases[e.jobId := now + cfg.lease]), Some(e))
  }

  /** Both backends move the next job into flight, with a lease and its new envelope. */
  lemma EnterFlight(cfg: Config, r: Redis, m: Q.Mem, r': Redis, m': Q.Mem, e: Envelope, f: Envelope)
    requires Sim(cfg, r, m) && Inv(cfg, m')
    requires SameButRetryAt(e, f) && e.jobId !in r.inflight
    requires r'.markers == r.markers && m'.known == m.known
    requires r'.inflight == [e.jobId] + r.inflight
    requires r'.leases == m'.inflight.at && r'.leases.Keys == r.leases.Keys + {e.jobId}
    requires r'.envelopes == r.envelopes[e.jobId := e] && m'.envelopes == m.envelopes[e.jobId := f]
    requires Reverse(r'.ready) == m'.ready && r'.dead == r.dead && m'.dead == m.dead
    requires r'.scheduled == r.scheduled && m'.scheduled == m.scheduled
    ensures Sim(cfg, r', m')
  {
    SetEnvelope(r.envelopes, m.envelopes, e.jobId, e, f);
    forall id ensures id in r'.inflight <==> id in r'.leases {
      assert id in r'.leases <==> id in r'.leases.Keys;
    }
  }

  lemma ClaimSim(cfg: Config, r: Redis, m: Q.Mem, now: real)
    requires Sim(cfg, r, m)
    ensures var (r', e) := ClaimCommands(cfg, r, now); var (m', f) := Q.Take(cfg, m, now);
      Sim(cfg, r', m') && (e.Some? <==> f.Some?)
      && (e.Some? ==> SameButRetryAt(e.value, f.value) && e.value.retryAt == None)
  {
    if r.ready != [] {
      NextToClaim(cfg, r, m);
      TakeKeeps(cfg, m, now);
      var (r', e) := ClaimCommands(cfg, r, now);
      var (m', f) := Q.Take(cfg, m, now);
      EnterFlight(cfg, r, m, r', m', e.value, f.value);
    }
  }

  lemma NextToClaim(cfg: Config, r: Redis, m: Q.Mem)
    requires Sim(cfg, r, m) && r.ready != []
    ensures m.ready != [] && Reverse(r.ready[..|r.ready| - 1]) == m.ready[1..]
    ensures var id := r.ready[|r.ready| - 1];
      && m.ready[0] == id && id !in r.inflight
      && id in r.envelopes && id in m.envelopes && SameButRetryAt(r.envelopes[id], m.envelopes[id])
      && r.envelopes[id].jobId == id && m.envelopes[id].jobId == id
  {
    ReversePop(r.ready);
    var id := m.ready[0];
    assert InvAt(cfg, m, id);
    Listed(cfg, m, id);
    InflightAgree(cfg, r, m, id);
  }

  predicate SameAt(a: Q.Mem, b: Q.Mem, id: Id) {
    && PlaceOf(a, id) == PlaceOf(b, id)
    && (id in a.envelopes <==> id in b.envelopes)
    && (id in a.envelopes ==> a.envelopes[id] == b.envelopes[id])
  }

  lemma SameEverywhere(a: Q.Mem, b: Q.Mem)
    requires forall id :: SameAt(a, b, id)
    ensures a.envelopes == b.envelopes && forall id :: PlaceOf(a, id) == PlaceOf(b, id)
  {
    forall id ensures id in a.envelopes <==> id in b.envelopes { assert SameAt(a, b, id); }
    forall id <- a.envelopes.Keys ensures a.envelopes[id] == b.envelopes[id] { assert SameAt(a, b, id); }
    forall id ensures PlaceOf(a, id) == PlaceOf(b, id) { assert SameAt(a, b, id); }
  }

  /** In whatever order a batch of claims is recovered, every job ends in the same place with the same
      envelope; only the order among the requeued, or among the dead-lettered ones, can differ. */
  lemma RecoveryOrderIrrelevant(cfg: Config, m: Q.Mem, s: seq<Id>, t: seq<Id>)
    requires Inv(cfg, m) && NoDup(s) && NoDup(t) && ToSet(s) == ToSet(t)
    requires forall id <- s :: id in m.inflight.at
    ensures var a, b := Q.RecoverAll(cfg, m, s), Q.RecoverAll(cfg, m, t);
      && (forall id :: PlaceOf(a, id) == PlaceOf(b, id))
      && a.envelopes == b.envelopes && a.inflight.at == b.inflight.at
      && a.known == b.known && a.scheduled == b.scheduled
      && m.ready <= a.ready && m.ready <= b.ready
  {
    assert forall id :: id in s <==> id in ToSet(s);
    assert forall id :: id in t <==> id in ToSet(t);
    RecoverAllKeeps(cfg, m, s);
    RecoverAllKeeps(cfg, m, t);
    RecoverAllAppends(cfg, m, s);
    RecoverAllAppends(cfg, m, t);
    var a, b := Q.RecoverAll(cfg, m, s), Q.RecoverAll(cfg, m, t);
    forall id ensures SameAt(a, b, id) {
      assert RecoveredAt(cfg, m, a, s, id) && RecoveredAt(cfg, m, b, t, id);
    }
    SameEverywhere(a, b);
  }

  /** The memory queue's own order is one of those that Redis may use. */
  lemma MemoryOrder(cfg: Config, r: Redis, m: Q.Mem, now: real)
    requires Sim(cfg, r, m)
    ensures ToSet(Due(m.inflight, now)) == UpTo(r.leases, now) && NoDup(Due(m.inflight, now))
    ensures ToSet(Due(m.scheduled, now)) == UpTo(r.scheduled, now) && NoDup(Due(m.scheduled, now))
    ensures Q.RecoverStale(cfg, m, now) == Q.RecoverAll(cfg, m, Due(m.inflight, now))
    ensures Q.PromoteDue(m, now) == Q.PromoteAll(m, Due(m.scheduled, now))
  {
    DueAmongNoDup(m.inflight.keys, m.inflight.at, now);
    DueAmongNoDup(m.scheduled.keys, m.scheduled.at, now);
  }
}
