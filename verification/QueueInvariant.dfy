/** What every locked region of the memory queue keeps. */
module QueueInvariant {
  import opened Basics
  import opened Envelopes
  import opened Dicts
  import opened QueueSpec

  datatype Place = Ready | Inflight | Scheduled | Dead | Gone

  function PlaceOf(m: Mem, id: Id): Place {
    if id in m.ready then Ready
    else if id in m.inflight.at then Inflight
    else if id in m.scheduled.at then Scheduled
    else if id in m.dead then Dead
    else Gone
  }

  /** How often `id` is listed over all four locations. */
  function Copies(m: Mem, id: Id): nat {
    Count(m.ready, id) + (if id in m.inflight.at then 1 else 0)
    + (if id in m.scheduled.at then 1 else 0) + Count(m.dead, id)
  }

  /** The attempt bounds of each location. */
  predicate Bounded(cfg: Config, place: Place, attempt: nat) {
    match place
    case Ready => attempt < cfg.maxAttempts
    case Scheduled => attempt < cfg.maxAttempts
    case Inflight => 1 <= attempt <= cfg.maxAttempts
    case Dead => attempt == cfg.maxAttempts
    case Gone => false
  }

  /** Every id with an envelope is listed exactly once and no other id is listed. */
  ghost predicate ListedOnce(m: Mem) {
    forall id :: Copies(m, id) == if id in m.envelopes then 1 else 0
  }

  predicate InvAt(cfg: Config, m: Mem, id: Id) {
    && Copies(m, id) == (if id in m.envelopes then 1 else 0)
    && (id in m.envelopes ==>
          m.envelopes[id].jobId == id && Bounded(cfg, PlaceOf(m, id), m.envelopes[id].attempt))
  }

  ghost predicate Inv(cfg: Config, m: Mem) {
    && WellFormed(m.inflight)
    && WellFormed(m.scheduled)
    && forall id :: InvAt(cfg, m, id)
  }

  /** The listing condition spelled out: four disjoint, duplicate-free locations that cover exactly
      the envelope table. */
  lemma LocationsPartition(m: Mem)
    ensures ListedOnce(m) <==>
            && NoDup(m.ready) && NoDup(m.dead)
            && ToSet(m.ready) !! m.inflight.at.Keys !! m.scheduled.at.Keys !! ToSet(m.dead)
            && m.envelopes.Keys == ToSet(m.ready) + m.inflight.at.Keys + m.scheduled.at.Keys + ToSet(m.dead)
  {
    NoDupIffCount(m.ready);
    NoDupIffCount(m.dead);
    forall id ensures id in m.ready <==> Count(m.ready, id) >= 1 { CountPositive(m.ready, id); }
    forall id ensures id in m.dead <==> Count(m.dead, id) >= 1 { CountPositive(m.dead, id); }
    if ListedOnce(m) {
      assert forall id :: Copies(m, id) <= 1;
      forall id <- m.ready ensures Count(m.ready, id) <= 1 { assert Copies(m, id) <= 1; }
      forall id <- m.dead ensures Count(m.dead, id) <= 1 { assert Copies(m, id) <= 1; }
      forall id ensures id in m.envelopes.Keys <==>
        id in ToSet(m.ready) + m.inflight.at.Keys + m.scheduled.at.Keys + ToSet(m.dead)
      { assert Copies(m, id) == if id in m.envelopes then 1 else 0; }
      forall id | id in m.ready || id in m.inflight.at || id in m.scheduled.at || id in m.dead
        ensures Copies(m, id) == 1 {}
    }
  }

  /** Every live envelope, and every envelope handed to a worker, carries the payload its job was
      accepted with. */
  ghost predicate Traced(cfg: Config, m: Mem, issued: set<Envelope>, origin: map<Id, Payload>) {
    && (forall id <- m.envelopes.Keys :: id in origin && m.envelopes[id].payload == origin[id])
    && (forall e <- issued :: Issuable(cfg, e, origin))
  }

  predicate Issuable(cfg: Config, e: Envelope, origin: map<Id, Payload>) {
    1 <= e.attempt <= cfg.maxAttempts && e.jobId in origin && e.payload == origin[e.jobId]
  }

  lemma EmptyInv(cfg: Config)
    ensures Inv(cfg, EMPTY_QUEUE)
  {
  }

  /** The effect of one step on an id it is not about. */
  predicate KeptAt(m: Mem, m': Mem, k: Id) {
    && PlaceOf(m', k) == PlaceOf(m, k)
    && (k in m'.envelopes <==> k in m.envelopes)
    && (k in m.envelopes ==> m'.envelopes[k] == m.envelopes[k])
  }

  /** Nothing about the other ids changes. */
  ghost predicate OthersKept(m: Mem, m': Mem, id: Id) {
    forall k :: k != id ==> KeptAt(m, m', k)
  }

  lemma Listed(cfg: Config, m: Mem, id: Id)
    requires InvAt(cfg, m, id)
    ensures PlaceOf(m, id) != Gone <==> id in m.envelopes
    ensures id in m.ready <==> PlaceOf(m, id) == Ready
    ensures id in m.inflight.at <==> PlaceOf(m, id) == Inflight
    ensures id in m.scheduled.at <==> PlaceOf(m, id) == Scheduled
    ensures id in m.dead <==> PlaceOf(m, id) == Dead
  {
    CountPositive(m.ready, id);
    CountPositive(m.dead, id);
  }

  /** Appending to a list adds one copy of the new element only. */
  lemma Appended(s: seq<Id>, id: Id, k: Id)
    ensures Count(s + [id], k) == Count(s, k) + if k == id then 1 else 0
    ensures k in s + [id] <==> k in s || k == id
  {
    CountConcat(s, [id], k);
    CountSingle(id, k);
  }

  lemma EnqueueKeeps(cfg: Config, m: Mem, id: Id, p: Payload, now: real)
    requires Inv(cfg, m)
    requires id !in m.envelopes
    ensures var (m', r) := Enqueue(cfg, m, id, p, now);
      && Inv(cfg, m') && OthersKept(m, m', id)
      && PlaceOf(m', id) == (if r.Accepted? then Ready else Gone)
  {
    var (m', r) := Enqueue(cfg, m, id, p, now);
    forall k ensures InvAt(cfg, m', k) && (k != id ==> KeptAt(m, m', k)) {
      assert InvAt(cfg, m, k);
      Listed(cfg, m, k);
      Appended(m.ready, id, k);
    }
    Listed(cfg, m', id);
  }

  lemma RecoverOneKeeps(cfg: Config, m: Mem, id: Id)
    requires Inv(cfg, m)
    requires id in m.inflight.at
    ensures var m' := RecoverOne(cfg, m, id);
      && Inv(cfg, m') && OthersKept(m, m', id)
      && id in m.envelopes && m'.envelopes == m.envelopes[id := m.envelopes[id].(lastError := Some(LEASE_EXPIRED))]
      && PlaceOf(m', id) == (if m.envelopes[id].attempt == cfg.maxAttempts then Dead else Ready)
      && m'.inflight == Del(m.inflight, id)
  {
    var m' := RecoverOne(cfg, m, id);
    assert InvAt(cfg, m, id);
    Listed(cfg, m, id);
    DelWellFormed(m.inflight, id);
    forall k ensures InvAt(cfg, m', k) && (k != id ==> KeptAt(m, m', k)) {
      assert InvAt(cfg, m, k);
      Listed(cfg, m, k);
      Appended(m.ready, id, k);
      Appended(m.dead, id, k);
    }
    Listed(cfg, m', id);
  }

  lemma PromoteOneKeeps(cfg: Config, m: Mem, id: Id)
    requires Inv(cfg, m)
    requires id in m.scheduled.at
    ensures var m' := PromoteOne(m, id);
      && Inv(cfg, m') && OthersKept(m, m', id)
      && m'.envelopes == m.envelopes && PlaceOf(m', id) == Ready
      && m'.scheduled == Del(m.scheduled, id)
  {
    var m' := PromoteOne(m, id);
    assert InvAt(cfg, m, id);
    Listed(cfg, m, id);
    DelWellFormed(m.scheduled, id);
    forall k ensures InvAt(cfg, m', k) && (k != id ==> KeptAt(m, m', k)) {
      assert InvAt(cfg, m, k);
      Listed(cfg, m, k);
      Appended(m.ready, id, k);
    }
    Listed(cfg, m', id);
  }

  lemma TakeKeeps(cfg: Config, m: Mem, now: real)
    requires Inv(cfg, m)
    requires m.ready != []
    ensures var (m', r) := Take(cfg, m, now); var id := m.ready[0];
      && Inv(cfg, m') && OthersKept(m, m', id)
      && id in m.envelopes && id in m'.envelopes && r == Some(m'.envelopes[id])
      && m'.envelopes[id] == m.envelopes[id].(attempt := m.envelopes[id].attempt + 1)
      && PlaceOf(m, id) == Ready && PlaceOf(m', id) == Inflight
  {
    var id := m.ready[0];
    var (m', r) := Take(cfg, m, now);
    assert InvAt(cfg, m, id);
    Listed(cfg, m, id);
    PutWellFormed(m.inflight, id, now + cfg.lease);
    forall k ensures InvAt(cfg, m', k) && (k != id ==> KeptAt(m, m', k)) {
      assert InvAt(cfg, m, k);
      Listed(cfg, m, k);
      CountHead(m.ready, k);
      CountPositive(m.ready, k);
      CountPositive(m'.ready, k);
    }
    Listed(cfg, m', id);
  }

  lemma AckKeeps(cfg: Config, m: Mem, id: Id)
    requires Inv(cfg, m)
    ensures var (m', r) := Ack(m, id);
      && Inv(cfg, m') && OthersKept(m, m', id)
      && (r <==> PlaceOf(m, id) == Inflight)
      && (r ==> PlaceOf(m', id) == Gone)
  {
    var (m', r) := Ack(m, id);
    assert InvAt(cfg, m, id);
    Listed(cfg, m, id);
    if r {
      DelWellFormed(m.inflight, id);
    }
    forall k ensures InvAt(cfg, m', k) && (k != id ==> KeptAt(m, m', k)) {
      assert InvAt(cfg, m, k);
      Listed(cfg, m, k);
    }
    Listed(cfg, m', id);
  }

  lemma RenewKeeps(cfg: Config, m: Mem, id: Id, until: real)
    requires Inv(cfg, m)
    ensures var (m', r) := Renew(m, id, until);
      && Inv(cfg, m') && OthersKept(m, m', id) && KeptAt(m, m', id)
      && (r <==> PlaceOf(m, id) == Inflight)
  {
    var (m', r) := Renew(m, id, until);
    assert InvAt(cfg, m, id);
    Listed(cfg, m, id);
    PutWellFormed(m.inflight, id, until);
    forall k ensures InvAt(cfg, m', k) && KeptAt(m, m', k) {
      assert InvAt(cfg, m, k);
    }
  }

  lemma RetryKeeps(cfg: Config, m: Mem, e: Envelope, error: string, now: real)
    requires Inv(cfg, m)
    requires 1 <= e.attempt <= cfg.maxAttempts
    ensures var (m', r) := Retry(cfg, m, e, error, now);
      && Inv(cfg, m') && OthersKept(m, m', e.jobId)
      && (r.NotInflight? <==> PlaceOf(m, e.jobId) != Inflight)
      && (r.NotInflight? ==> m' == m)
      && (r.ToDeadLetter? ==> PlaceOf(m', e.jobId) == Dead && e.attempt == cfg.maxAttempts)
      && (r.ToSchedule? ==> PlaceOf(m', e.jobId) == Scheduled && e.attempt < cfg.maxAttempts)
  {
    var id := e.jobId;
    var (m', r) := Retry(cfg, m, e, error, now);
    assert InvAt(cfg, m, id);
    Listed(cfg, m, id);
    if !r.NotInflight? {
      DelWellFormed(m.inflight, id);
      PutWellFormed(m.scheduled, id, now + Delay(cfg, e.attempt));
      forall k ensures InvAt(cfg, m', k) && (k != id ==> KeptAt(m, m', k)) {
        assert InvAt(cfg, m, k);
        Listed(cfg, m, k);
        Appended(m.dead, id, k);
      }
      Listed(cfg, m', id);
    }
  }

  lemma RemoveDeadKeeps(cfg: Config, m: Mem, id: Id)
    requires Inv(cfg, m)
    ensures var (m', r) := RemoveDead(m, id);
      && Inv(cfg, m') && OthersKept(m, m', id)
      && (r <==> PlaceOf(m, id) == Dead)
      && (r ==> PlaceOf(m', id) == Gone)
  {
    var (m', r) := RemoveDead(m, id);
    assert InvAt(cfg, m, id);
    Listed(cfg, m, id);
    forall k ensures InvAt(cfg, m', k) && (k != id ==> KeptAt(m, m', k)) {
      assert InvAt(cfg, m, k);
      Listed(cfg, m, k);
      CountRemoveFirst(m.dead, id, k);
      CountPositive(m.dead, k);
      CountPositive(m'.dead, k);
    }
    Listed(cfg, m', id);
  }

  /** What recovering several claims, in any order, does to one id. */
  predicate RecoveredAt(cfg: Config, m: Mem, m': Mem, ids: seq<Id>, k: Id) {
    if k !in ids then KeptAt(m, m', k)
    else
      && k in m.envelopes && k in m'.envelopes
      && m'.envelopes[k] == m.envelopes[k].(lastError := Some(LEASE_EXPIRED))
      && PlaceOf(m', k) == (if m.envelopes[k].attempt == cfg.maxAttempts then Dead else Ready)
  }

  lemma {:induction false} RecoverAllKeeps(cfg: Config, m: Mem, ids: seq<Id>)
    requires Inv(cfg, m)
    requires NoDup(ids) && forall id <- ids :: id in m.inflight.at
    ensures var m' := RecoverAll(cfg, m, ids);
      && Inv(cfg, m')
      && (forall k :: RecoveredAt(cfg, m, m', ids, k))
      && m'.inflight.at == m.inflight.at - ToSet(ids)
      && m'.known == m.known && m'.scheduled == m.scheduled
    decreases |ids|
  {
    if ids != [] {
      var m1, rest := RecoverOne(cfg, m, ids[0]), ids[1..];
      RecoverOneKeeps(cfg, m, ids[0]);
      assert ids == [ids[0]] + rest;
      assert ids[0] !in rest;
      RecoverAllKeeps(cfg, m1, rest);
      var m' := RecoverAll(cfg, m1, rest);
      forall k ensures RecoveredAt(cfg, m, m', ids, k) {
        assert RecoveredAt(cfg, m1, m', rest, k);
        if k != ids[0] { assert KeptAt(m, m1, k); }
      }
      assert ToSet(ids) == {ids[0]} + ToSet(rest);
    }
  }

  lemma {:induction false} PromoteAllShape(m: Mem, ids: seq<Id>)
    requires NoDup(ids) && forall id <- ids :: id in m.scheduled.at
    ensures var m' := PromoteAll(m, ids);
      && m' == m.(ready := m.ready + ids, scheduled := m'.scheduled)
      && m'.scheduled.at == m.scheduled.at - ToSet(ids)
    decreases |ids|
  {
    if ids != [] {
      var m1, rest := PromoteOne(m, ids[0]), ids[1..];
      assert ids == [ids[0]] + rest;
      assert ids[0] !in rest;
      PromoteAllShape(m1, rest);
      assert m.ready + [ids[0]] + rest == m.ready + ids;
      assert ToSet(ids) == {ids[0]} + ToSet(rest);
    }
  }

  lemma {:induction false} PromoteAllKeeps(cfg: Config, m: Mem, ids: seq<Id>)
    requires Inv(cfg, m)
    requires NoDup(ids) && forall id <- ids :: id in m.scheduled.at
    ensures var m' := PromoteAll(m, ids);
      && Inv(cfg, m')
      && (forall k :: k !in ids ==> KeptAt(m, m', k))
      && (forall k <- ids :: PlaceOf(m', k) == Ready)
    decreases |ids|
  {
    if ids != [] {
      var m1, rest := PromoteOne(m, ids[0]), ids[1..];
      PromoteOneKeeps(cfg, m, ids[0]);
      assert ids == [ids[0]] + rest;
      assert ids[0] !in rest;
      PromoteAllKeeps(cfg, m1, rest);
      var m' := PromoteAll(m1, rest);
      forall k | k !in ids ensures KeptAt(m, m', k) {
        assert KeptAt(m, m1, k) && KeptAt(m1, m', k);
      }
      assert KeptAt(m1, m', ids[0]);
    }
  }

  /** Recovery takes exactly the leases that have run out. */
  lemma RecoverStaleKeeps(cfg: Config, m: Mem, now: real)
    requires Inv(cfg, m)
    ensures var m' := RecoverStale(cfg, m, now);
      && Inv(cfg, m')
      && (forall k :: !(k in m.inflight.at && m.inflight.at[k] <= now) ==> KeptAt(m, m', k))
      && (forall k <- m.inflight.at.Keys :: m.inflight.at[k] <= now ==>
            && k in m.envelopes && k in m'.envelopes
            && m'.envelopes[k] == m.envelopes[k].(lastError := Some(LEASE_EXPIRED))
            && PlaceOf(m', k) == (if m.envelopes[k].attempt == cfg.maxAttempts then Dead else Ready))
      && m'.inflight.at == (map k <- m.inflight.at.Keys | m.inflight.at[k] > now :: m.inflight.at[k])
      && m'.known == m.known && m'.scheduled == m.scheduled
  {
    var ids := Due(m.inflight, now);
    DueAmongNoDup(m.inflight.keys, m.inflight.at, now);
    RecoverAllKeeps(cfg, m, ids);
    var m' := RecoverStale(cfg, m, now);
    forall k | !(k in m.inflight.at && m.inflight.at[k] <= now) ensures KeptAt(m, m', k) {
      assert RecoveredAt(cfg, m, m', ids, k);
    }
    forall k <- m.inflight.at.Keys | m.inflight.at[k] <= now
      ensures k in m.envelopes && k in m'.envelopes
              && m'.envelopes[k] == m.envelopes[k].(lastError := Some(LEASE_EXPIRED))
              && PlaceOf(m', k) == (if m.envelopes[k].attempt == cfg.maxAttempts then Dead else Ready)
    {
      assert RecoveredAt(cfg, m, m', ids, k);
    }
  }

  /** Promotion takes exactly the retries that are due, and queues them behind everything else. */
  lemma PromoteDueKeeps(cfg: Config, m: Mem, now: real)
    requires Inv(cfg, m)
    ensures var m' := PromoteDue(m, now);
      && Inv(cfg, m')
      && (forall k :: !(k in m.scheduled.at && m.scheduled.at[k] <= now) ==> KeptAt(m, m', k))
      && (forall k <- m.scheduled.at.Keys :: m.scheduled.at[k] <= now ==> PlaceOf(m', k) == Ready)
      && m'.scheduled.at == (map k <- m.scheduled.at.Keys | m.scheduled.at[k] > now :: m.scheduled.at[k])
      && m'.ready == m.ready + Due(m.scheduled, now)
      && m'.envelopes == m.envelopes && m'.known == m.known && m'.inflight == m.inflight
  {
    var ids := Due(m.scheduled, now);
    DueAmongNoDup(m.scheduled.keys, m.scheduled.at, now);
    PromoteAllKeeps(cfg, m, ids);
    PromoteAllShape(m, ids);
  }
}
