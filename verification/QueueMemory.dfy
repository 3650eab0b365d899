/** The memory backend of the job queue. Each method is one call with nothing interleaved: its effect
    is the `QueueSpec` function of the same name, and it keeps `Valid`. */
module QueueMemory {
  import opened Basics
  import opened Envelopes
  import opened Dicts
  import opened QueueSpec
  import opened QueueInvariant

  datatype ClaimReply = Claimed(envelope: Envelope) | Nothing | BadTimeout

  class JobQueue {
    const cfg: Config
    var envelopes: map<Id, Envelope>
    var known: map<Id, real>
    var ready: seq<Id>
    var inflight: Dict
    var scheduled: Dict
    var dead: seq<Id>

    /** Envelopes that `Claim` has returned so far, and the payload of every accepted job. */
    ghost var issued: set<Envelope>
    ghost var origin: map<Id, Payload>

    function Value(): Mem
      reads this
    {
      Mem(envelopes, known, ready, inflight, scheduled, dead)
    }

    ghost predicate Valid()
      reads this
    {
      Inv(cfg, Value()) && Traced(cfg, Value(), issued, origin)
    }

    constructor (cfg: Config)
      ensures Valid() && Value() == EMPTY_QUEUE && this.cfg == cfg && issued == {} && origin == map[]
    {
      this.cfg := cfg;
      envelopes, known, ready, inflight, scheduled, dead := map[], map[], [], EMPTY, EMPTY, [];
      issued, origin := {}, map[];
    }

    /** The invariant survives unless the marker of an accepted job has run out before. */
    method Enqueue(id: Id, p: Payload, now: real) returns (reply: EnqueueReply)
      requires Valid()
      modifies this
      ensures (Value(), reply) == QueueSpec.Enqueue(cfg, old(Value()), id, p, now)
      ensures issued == old(issued)
      ensures origin == if reply.Accepted? then old(origin)[id := p] else old(origin)
      ensures (reply.Accepted? ==> id !in old(origin)) ==> Valid()
    {
      if id == "" || p.principal == "" || p.tenant == "" {
        return Invalid;
      }
      if id !in origin {
        EnqueueKeeps(cfg, Value(), id, p, now);
      }
      var knownUntil := if id in known then known[id] else 0.0;
      if knownUntil > now {
        return Duplicate;
      }
      known := known[id := now + cfg.ttl];
      envelopes := envelopes[id := Envelope(id, p, 0, None, None)];
      ready := ready + [id];
      origin := origin[id := p];
      return Accepted;
    }

    method RecoverOne(id: Id)
      requires Valid()
      requires id in inflight.at
      modifies this
      ensures Valid() && Value() == QueueSpec.RecoverOne(cfg, old(Value()), id)
      ensures issued == old(issued) && origin == old(origin)
    {
      RecoverOneKeeps(cfg, Value(), id);
      var envelope := envelopes[id];
      inflight := Del(inflight, id);
      envelopes := envelopes[id := envelope.(lastError := Some(LEASE_EXPIRED))];
      if envelope.attempt >= cfg.maxAttempts {
        dead := dead + [id];
      } else {
        ready := ready + [id];
      }
    }

    method RecoverStale(now: real) returns (recovered: nat)
      requires Valid()
      modifies this
      ensures Valid() && Value() == QueueSpec.RecoverStale(cfg, old(Value()), now)
      ensures recovered == |Due(old(inflight), now)|
      ensures issued == old(issued) && origin == old(origin)
    {
      var stale := Due(inflight, now);
      DueAmongNoDup(inflight.keys, inflight.at, now);
      var i := 0;
      while i < |stale|
        invariant 0 <= i <= |stale|
        invariant Valid() && issued == old(issued) && origin == old(origin)
        invariant RecoverAll(cfg, Value(), stale[i..]) == RecoverAll(cfg, old(Value()), stale)
        invariant forall j :: i <= j < |stale| ==> stale[j] in inflight.at
      {
        assert stale[i..][1..] == stale[i + 1..];
        RecoverOneKeeps(cfg, Value(), stale[i]);
        RecoverOne(stale[i]);
        i := i + 1;
      }
      return |stale|;
    }

    method PromoteDue(now: real)
      requires Valid()
      modifies this
      ensures Valid() && Value() == QueueSpec.PromoteDue(old(Value()), now)
      ensures issued == old(issued) && origin == old(origin)
    {
      var due := Due(scheduled, now);
      DueAmongNoDup(scheduled.keys, scheduled.at, now);
      var i := 0;
      while i < |due|
        invariant 0 <= i <= |due|
        invariant Valid() && issued == old(issued) && origin == old(origin)
        invariant PromoteAll(Value(), due[i..]) == PromoteAll(old(Value()), due)
        invariant forall j :: i <= j < |due| ==> due[j] in scheduled.at
      {
        assert due[i..][1..] == due[i + 1..];
        PromoteOneKeeps(cfg, Value(), due[i]);
        var id := due[i];
        scheduled := Del(scheduled, id);
        ready := ready + [id];
        i := i + 1;
      }
    }

    /** A claim hands out the oldest ready job, leased and with one more attempt. */
    method Claim(timeout: real, at: Readings) returns (reply: ClaimReply)
      requires Valid()
      modifies this
      ensures Valid() && origin == old(origin)
      ensures timeout <= 0.0 ==> reply == BadTimeout && Value() == old(Value())
      ensures timeout > 0.0 ==>
                var (m, r) := QueueSpec.Claim(cfg, old(Value()), at);
                Value() == m && reply == if r.Some? then Claimed(r.value) else Nothing
      ensures reply.Claimed? ==>
                var e := reply.envelope;
                && issued == old(issued) + {e} && Issuable(cfg, e, origin)
                && e.jobId in envelopes && envelopes[e.jobId] == e
                && e.jobId in inflight.at && inflight.at[e.jobId] == at.leaseAt + cfg.lease
      ensures !reply.Claimed? ==> issued == old(issued)
    {
      if timeout <= 0.0 {
        return BadTimeout;
      }
      var _ := RecoverStale(at.recoverAt);
      PromoteDue(at.promoteAt);
      ghost var start := Value();
      var i := 0;
      while ready == []
        invariant 0 <= i <= |at.wakeups|
        invariant Valid() && issued == old(issued) && origin == old(origin)
        invariant AwaitReady(Value(), at.wakeups[i..]) == AwaitReady(start, at.wakeups)
        decreases |at.wakeups| - i
      {
        if i == |at.wakeups| {
          return Nothing;
        }
        assert at.wakeups[i..][1..] == at.wakeups[i + 1..];
        PromoteDue(at.wakeups[i]);
        i := i + 1;
      }
      var envelope := LeaseHead(at.leaseAt);
      return Claimed(envelope);
    }

    /** The last step of a claim. */
    method LeaseHead(now: real) returns (envelope: Envelope)
      requires Valid() && ready != []
      modifies this
      ensures Valid() && origin == old(origin) && issued == old(issued) + {envelope}
      ensures (Value(), Some(envelope)) == QueueSpec.Take(cfg, old(Value()), now)
      ensures Issuable(cfg, envelope, origin) && envelope.jobId == old(ready[0])
      ensures envelope.jobId in envelopes && envelopes[envelope.jobId] == envelope
      ensures envelope.jobId in inflight.at && inflight.at[envelope.jobId] == now + cfg.lease
    {
      TakeKeeps(cfg, Value(), now);
      var id := ready[0];
      assert InvAt(cfg, QueueSpec.Take(cfg, Value(), now).0, id);
      ready := ready[1..];
      envelope := envelopes[id].(attempt := envelopes[id].attempt + 1);
      envelopes := envelopes[id := envelope];
      inflight := Put(inflight, id, now + cfg.lease);
      issued := issued + {envelope};
    }

    method Ack(e: Envelope) returns (done: bool)
      requires Valid()
      modifies this
      ensures Valid() && (Value(), done) == QueueSpec.Ack(old(Value()), e.jobId)
      ensures issued == old(issued) && origin == old(origin)
    {
      AckKeeps(cfg, Value(), e.jobId);
      if e.jobId !in inflight.at {
        return false;
      }
      inflight := Del(inflight, e.jobId);
      envelopes := envelopes - {e.jobId};
      return true;
    }

    method Renew(e: Envelope, now: real) returns (done: bool)
      requires Valid()
      modifies this
      ensures Valid() && (Value(), done) == QueueSpec.Renew(old(Value()), e.jobId, now + cfg.lease)
      ensures issued == old(issued) && origin == old(origin)
    {
      var leaseUntil := now + cfg.lease;
      RenewKeeps(cfg, Value(), e.jobId, leaseUntil);
      if e.jobId !in inflight.at {
        return false;
      }
      inflight := Put(inflight, e.jobId, leaseUntil);
      return true;
    }

    /** Only envelopes that a claim has handed out may be retried. */
    method Retry(e: Envelope, error: string, now: real) returns (reply: RetryReply)
      requires Valid()
      requires e in issued
      modifies this
      ensures Valid() && (Value(), reply) == QueueSpec.Retry(cfg, old(Value()), e, error, now)
      ensures issued == old(issued) && origin == old(origin)
    {
      assert Issuable(cfg, e, origin);
      RetryKeeps(cfg, Value(), e, error, now);
      if e.attempt >= cfg.maxAttempts {
        reply := DeadLetter(e, error);
        return;
      }
      var retryAt := now + Delay(cfg, e.attempt);
      if e.jobId !in inflight.at {
        return NotInflight;
      }
      inflight := Del(inflight, e.jobId);
      envelopes := envelopes[e.jobId := e.(retryAt := Some(retryAt), lastError := Some(error))];
      scheduled := Put(scheduled, e.jobId, retryAt);
      return ToSchedule;
    }

    method DeadLetter(e: Envelope, error: string) returns (reply: RetryReply)
      requires Valid()
      requires e in issued && e.attempt >= cfg.maxAttempts
      modifies this
      ensures Valid() && issued == old(issued) && origin == old(origin)
      ensures forall now :: (Value(), reply) == QueueSpec.Retry(cfg, old(Value()), e, error, now)
    {
      assert Issuable(cfg, e, origin);
      RetryKeeps(cfg, Value(), e, error, 0.0);
      if e.jobId !in inflight.at {
        return NotInflight;
      }
      inflight := Del(inflight, e.jobId);
      envelopes := envelopes[e.jobId := e.(retryAt := None, lastError := Some(error))];
      dead := dead + [e.jobId];
      return ToDeadLetter;
    }

    method DeadLetters() returns (letters: seq<Envelope>)
      requires Valid()
      ensures letters == LettersOf(envelopes, dead)
      ensures |letters| == |dead|
      ensures forall i :: 0 <= i < |dead| ==>
                dead[i] in envelopes && letters[i] == envelopes[dead[i]] && letters[i].jobId == dead[i]
    {
      letters := [];
      var i := 0;
      while i < |dead|
        invariant 0 <= i <= |dead| && |letters| == i
        invariant letters + LettersOf(envelopes, dead[i..]) == LettersOf(envelopes, dead)
        invariant forall j :: 0 <= j < i ==>
                    dead[j] in envelopes && letters[j] == envelopes[dead[j]] && letters[j].jobId == dead[j]
      {
        assert InvAt(cfg, Value(), dead[i]);
        Listed(cfg, Value(), dead[i]);
        assert dead[i..][1..] == dead[i + 1..];
        letters := letters + [envelopes[dead[i]]];
        i := i + 1;
      }
    }

    method RemoveDeadLetter(e: Envelope) returns (done: bool)
      requires Valid()
      modifies this
      ensures Valid() && (Value(), done) == QueueSpec.RemoveDead(old(Value()), e.jobId)
      ensures issued == old(issued) && origin == old(origin)
    {
      RemoveDeadKeeps(cfg, Value(), e.jobId);
      if e.jobId !in dead {
        return false;
      }
      dead := RemoveFirst(dead, e.jobId);
      envelopes := envelopes - {e.jobId};
      return true;
    }
  }
}
