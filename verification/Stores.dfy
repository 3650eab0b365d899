/** The stores that workers and handlers share, with their memory backends: records, slots and the audit
    trail. */
module Stores {
  import Basics
  import opened Envelopes
  import opened AuditChain
  import opened Protocol

  /** `JobStore`: every access is one locked region. */
  class JobStore<V> {
    var memory: map<Id, V>

    constructor ()
      ensures memory == map[]
    {
      memory := map[];
    }

    method Get(id: Id) returns (value: Basics.Option<V>)
      ensures value == if id in memory then Basics.Some(memory[id]) else Basics.None
    {
      value := if id in memory then Basics.Some(memory[id]) else Basics.None;
    }

    method Set(id: Id, value: V)
      modifies this
      ensures memory == old(memory)[id := value]
    {
      memory := memory[id := value];
    }

    method SetIfAbsent(id: Id, value: V) returns (created: bool)
      modifies this
      ensures created == (id !in old(memory))
      ensures memory == if created then old(memory)[id := value] else old(memory)
    {
      if id in memory {
        return false;
      }
      memory := memory[id := value];
      return true;
    }

    method Delete(id: Id)
      modifies this
      ensures memory == old(memory) - {id}
    {
      memory := memory - {id};
    }

    method Clear()
      modifies this
      ensures memory == map[]
    {
      memory := map[];
    }
  }

  /** What the trail says, without its seals. */
  function Bodies(events: seq<Record>): seq<string> {
    seq(|events|, i requires 0 <= i < |events| => events[i].body)
  }

  /** `GovernanceStore`: the tenants' slots and the audit trail. */
  class GovernanceStore {
    const limit: nat
    const hash: Hash
    var slots: map<Tenant, nat>
    var events: seq<Record>
    var lastHash: string

    ghost predicate Valid()
      reads this
    {
      && (forall text :: |hash(text)| == 64)
      && Chain(hash, 64, events) && lastHash == Head(64, events)
    }

    constructor (limit: nat, hash: Hash)
      requires forall text :: |hash(text)| == 64
      ensures Valid() && this.limit == limit && this.hash == hash && slots == map[] && events == []
    {
      this.limit, this.hash := limit, hash;
      slots, events, lastHash := map[], [], Genesis(64);
    }

    method AcquireJobSlot(t: Tenant) returns (got: bool)
      requires Valid()
      modifies this`slots
      ensures Valid() && (slots, got) == Acquire(old(slots), limit, t)
    {
      var used := if t in slots then slots[t] else 0;
      if used >= limit {
        return false;
      }
      slots := slots[t := used + 1];
      return true;
    }

    method ReleaseJobSlot(t: Tenant)
      requires Valid()
      modifies this`slots
      ensures Valid() && slots == Release(old(slots), t)
    {
      var used := if t in slots then slots[t] else 0;
      slots := slots[t := if used >= 1 then used - 1 else 0];
    }

    /** One more sealed record; the trail so far stays as it is. */
    method AppendAudit(body: string) returns (record: Record)
      requires Valid() && IsBody(body)
      modifies this`events, this`lastHash
      ensures Valid() && events == old(events) + [record]
      ensures Bodies(events) == old(Bodies(events)) + [body]
      ensures record.body == body && record.sequence == |events| && record.previousHash == old(lastHash)
    {
      AppendKeeps(hash, 64, events, body);
      var sequence := |events| + 1;
      var digest := hash(lastHash + body + Decimal(sequence));
      record := Record(body, sequence, lastHash, digest);
      events := events + [record];
      lastHash := digest;
    }
  }
}
