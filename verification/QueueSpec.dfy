/** Queue envelopes, and the settings that a queue validates when it is built. */
module Envelopes {
  import opened Basics

  type Id = string

  /** The envelope fields that are fixed when a job is accepted. */
  datatype Payload = Payload(request: Json, principal: string, tenant: string, enqueuedAt: real)

  /** A unit of work: its payload and its delivery metadata. */
  datatype Envelope = Envelope(
    jobId: Id, payload: Payload, attempt: nat, retryAt: Option<real>, lastError: Option<string>)

  datatype Settings = Settings(maxAttempts: int, lease: real, backoff: real, ttl: real)

  /** Construction fails on any other settings. Times are exact seconds. */
  predicate Acceptable(s: Settings) {
    s.maxAttempts >= 1 && s.lease > 0.0 && s.backoff >= 0.0 && s.ttl >= 1.0
  }

  type Config = s: Settings | Acceptable(s) witness Settings(3, 300.0, 1.0, 2592000.0)

  const LEASE_EXPIRED: string := "lease expired"
}

/** A Python dictionary from ids to times: iteration follows insertion order. */
module Dicts {
  import opened Basics
  import opened Envelopes

  datatype Dict = Dict(keys: seq<Id>, at: map<Id, real>)

  const EMPTY: Dict := Dict([], map[])

  predicate WellFormed(d: Dict) {
    && NoDup(d.keys)
    && (forall k <- d.keys :: k in d.at)
    && (forall k <- d.at.Keys :: k in d.keys)
  }

  /** Assigning to an existing key keeps its place. */
  function Put(d: Dict, k: Id, v: real): Dict {
    Dict(if k in d.at then d.keys else d.keys + [k], d.at[k := v])
  }

  function Del(d: Dict, k: Id): Dict {
    Dict(RemoveFirst(d.keys, k), d.at - {k})
  }

  /** The keys of `keys`, in order, whose time has come. */
  function DueAmong(keys: seq<Id>, at: map<Id, real>, now: real): (due: seq<Id>)
    ensures forall k :: k in due <==> k in keys && k in at && at[k] <= now
  {
    if keys == [] then [] else
      (if keys[0] in at && at[keys[0]] <= now then [keys[0]] else []) + DueAmong(keys[1..], at, now)
  }

  function Due(d: Dict, now: real): seq<Id> {
    DueAmong(d.keys, d.at, now)
  }

  lemma {:induction false} DueAmongNoDup(keys: seq<Id>, at: map<Id, real>, now: real)
    requires NoDup(keys)
    ensures NoDup(DueAmong(keys, at, now))
  {
    if keys != [] {
      DueAmongNoDup(keys[1..], at, now);
      assert keys[0] !in keys[1..];
    }
  }

  lemma PutWellFormed(d: Dict, k: Id, v: real)
    requires WellFormed(d)
    ensures WellFormed(Put(d, k, v))
  {
  }

  lemma DelWellFormed(d: Dict, k: Id)
    requires WellFormed(d)
    ensures WellFormed(Del(d, k))
  {
    RemoveFirstKeepsNoDup(d.keys, k);
  }
}

/** The memory queue as a value: one function for each locked region of `JobQueue`. */
module QueueSpec {
  import opened Basics
  import opened Envelopes
  import opened Dicts

  datatype Mem = Mem(
    envelopes: map<Id, Envelope>,
    known: map<Id, real>,
    ready: seq<Id>,
    inflight: Dict,
    scheduled: Dict,
    dead: seq<Id>)

  const EMPTY_QUEUE: Mem := Mem(map[], map[], [], EMPTY, EMPTY, [])

  datatype EnqueueReply = Accepted | Duplicate | Invalid
  datatype RetryReply = ToSchedule | ToDeadLetter | NotInflight

  function KnownUntil(m: Mem, id: Id): real {
    if id in m.known then m.known[id] else 0.0
  }

  predicate Refused(id: Id, p: Payload) {
    id == "" || p.principal == "" || p.tenant == ""
  }

  /** A new id is queued behind every other one, with attempt 0. */
  function Enqueue(cfg: Config, m: Mem, id: Id, p: Payload, now: real): (Mem, EnqueueReply) {
    if Refused(id, p) then (m, Invalid)
    else if KnownUntil(m, id) > now then (m, Duplicate)
    else (m.(known := m.known[id := now + cfg.ttl],
             envelopes := m.envelopes[id := Envelope(id, p, 0, None, None)],
             ready := m.ready + [id]), Accepted)
  }

  /** One expired claim goes back to the end of the queue, or to the dead letters at the cap.
      (An id outside both tables cannot occur: see `QueueMemory`.) */
  function RecoverOne(cfg: Config, m: Mem, id: Id): Mem {
    if id !in m.envelopes || id !in m.inflight.at then m else
      var e := m.envelopes[id];
      var m1 := m.(inflight := Del(m.inflight, id),
                   envelopes := m.envelopes[id := e.(lastError := Some(LEASE_EXPIRED))]);
      if e.attempt >= cfg.maxAttempts then m1.(dead := m.dead + [id]) else m1.(ready := m.ready + [id])
  }

  function RecoverAll(cfg: Config, m: Mem, ids: seq<Id>): Mem
    decreases |ids|
  {
    if ids == [] then m else RecoverAll(cfg, RecoverOne(cfg, m, ids[0]), ids[1..])
  }

  function RecoverStale(cfg: Config, m: Mem, now: real): Mem {
    RecoverAll(cfg, m, Due(m.inflight, now))
  }

  function PromoteOne(m: Mem, id: Id): Mem {
    if id !in m.scheduled.at then m
    else m.(scheduled := Del(m.scheduled, id), ready := m.ready + [id])
  }

  function PromoteAll(m: Mem, ids: seq<Id>): Mem
    decreases |ids|
  {
    if ids == [] then m else PromoteAll(PromoteOne(m, ids[0]), ids[1..])
  }

  function PromoteDue(m: Mem, now: real): Mem {
    PromoteAll(m, Due(m.scheduled, now))
  }

  /** The last locked region of `claim`: take the head of the queue and lease it. */
  function Take(cfg: Config, m: Mem, now: real): (r: (Mem, Option<Envelope>)) {
    if m.ready == [] || m.ready[0] !in m.envelopes then (m, None) else
      var id := m.ready[0];
      var e := m.envelopes[id].(attempt := m.envelopes[id].attempt + 1);
      (m.(ready := m.ready[1..],
          envelopes := m.envelopes[id := e],
          inflight := Put(m.inflight, id, now + cfg.lease)), Some(e))
  }

  /** The clock readings of one `claim`: one for the recovery, one for the promotion, one for each
      time the wait for a job is interrupted before the deadline, and one for the lease. */
  datatype Readings = Readings(recoverAt: real, promoteAt: real, wakeups: seq<real>, leaseAt: real)

  /** Waiting promotes due retries at every wake-up, until some job is ready. */
  function AwaitReady(m: Mem, wakeups: seq<real>): Mem
    decreases |wakeups|
  {
    if m.ready != [] || wakeups == [] then m else AwaitReady(PromoteDue(m, wakeups[0]), wakeups[1..])
  }

  function Claim(cfg: Config, m: Mem, at: Readings): (Mem, Option<Envelope>) {
    Take(cfg, AwaitReady(PromoteDue(RecoverStale(cfg, m, at.recoverAt), at.promoteAt), at.wakeups), at.leaseAt)
  }

  function Ack(m: Mem, id: Id): (Mem, bool) {
    if id !in m.inflight.at then (m, false)
    else (m.(inflight := Del(m.inflight, id), envelopes := m.envelopes - {id}), true)
  }

  /** The new deadline is computed before the lock is taken. */
  function Renew(m: Mem, id: Id, until: real): (Mem, bool) {
    if id !in m.inflight.at then (m, false)
    else (m.(inflight := Put(m.inflight, id, until)), true)
  }

  function Delay(cfg: Config, attempt: nat): real {
    cfg.backoff * Pow2(if attempt >= 1 then attempt - 1 else 0) as real
  }

  /** Only the caller's envelope counts here: its attempt chooses the branch, and it replaces the
      stored one. */
  function Retry(cfg: Config, m: Mem, e: Envelope, error: string, now: real): (Mem, RetryReply) {
    if e.jobId !in m.inflight.at then (m, NotInflight) else
      var m1 := m.(inflight := Del(m.inflight, e.jobId));
      if e.attempt >= cfg.maxAttempts then
        (m1.(envelopes := m.envelopes[e.jobId := e.(retryAt := None, lastError := Some(error))],
             dead := m.dead + [e.jobId]), ToDeadLetter)
      else
        var at := now + Delay(cfg, e.attempt);
        (m1.(envelopes := m.envelopes[e.jobId := e.(retryAt := Some(at), lastError := Some(error))],
             scheduled := Put(m.scheduled, e.jobId, at)), ToSchedule)
  }

  function LettersOf(envelopes: map<Id, Envelope>, dead: seq<Id>): (r: seq<Envelope>) {
    if dead == [] then []
    else (if dead[0] in envelopes then [envelopes[dead[0]]] else []) + LettersOf(envelopes, dead[1..])
  }

  function RemoveDead(m: Mem, id: Id): (Mem, bool) {
    if id !in m.dead then (m, false)
    else (m.(dead := RemoveFirst(m.dead, id), envelopes := m.envelopes - {id}), true)
  }
}
