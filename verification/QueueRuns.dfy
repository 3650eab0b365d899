/** Runs of the memory queue: any number of callers, interleaved one locked region at a time. */
module QueueRuns {
  import opened Basics
  import opened Envelopes
  import opened Dicts
  import opened QueueSpec
  import opened QueueInvariant

  /** One locked region, with the clock reading it used. */
  datatype Op =
    | DoEnqueue(id: Id, p: Payload, now: real)
    | DoRecover(now: real)
    | DoPromote(now: real)
    | DoTake(now: real)
    | DoAck(id: Id)
    | DoRenew(id: Id, until: real)
    | DoRetry(e: Envelope, error: string, now: real)
    | DoRemoveDead(id: Id)

  /** A queue together with what was handed out and accepted so far. */
  datatype History = History(m: Mem, issued: set<Envelope>, origin: map<Id, Payload>)

  const START: History := History(EMPTY_QUEUE, {}, map[])

  function Apply(cfg: Config, m: Mem, op: Op): Mem {
    match op
    case DoEnqueue(id, p, now) => Enqueue(cfg, m, id, p, now).0
    case DoRecover(now) => RecoverStale(cfg, m, now)
    case DoPromote(now) => PromoteDue(m, now)
    case DoTake(now) => Take(cfg, m, now).0
    case DoAck(id) => Ack(m, id).0
    case DoRenew(id, until) => Renew(m, id, until).0
    case DoRetry(e, error, now) => Retry(cfg, m, e, error, now).0
    case DoRemoveDead(id) => RemoveDead(m, id).0
  }

  /** The envelopes that a step hands to a worker. */
  function Handed(cfg: Config, m: Mem, op: Op): seq<Envelope> {
    if !op.DoTake? then [] else
      match Take(cfg, m, op.now).1
      case None => []
      case Some(e) => [e]
  }

  predicate Accepts(cfg: Config, m: Mem, op: Op) {
    op.DoEnqueue? && Enqueue(cfg, m, op.id, op.p, op.now).1.Accepted?
  }

  function Exec(cfg: Config, h: History, op: Op): History {
    History(Apply(cfg, h.m, op),
            h.issued + ToSet(Handed(cfg, h.m, op)),
            if Accepts(cfg, h.m, op) then h.origin[op.id := op.p] else h.origin)
  }

  /** Workers retry only what they claimed (perhaps long ago), and markers do not run out: an id is
      accepted once. */
  predicate Allowed(cfg: Config, h: History, op: Op) {
    && (op.DoRetry? ==> op.e in h.issued)
    && (Accepts(cfg, h.m, op) ==> op.id !in h.origin)
  }

  predicate AllAllowed(cfg: Config, h: History, ops: seq<Op>)
    decreases |ops|
  {
    ops == [] || (Allowed(cfg, h, ops[0]) && AllAllowed(cfg, Exec(cfg, h, ops[0]), ops[1..]))
  }

  function ExecAll(cfg: Config, h: History, ops: seq<Op>): History
    decreases |ops|
  {
    if ops == [] then h else ExecAll(cfg, Exec(cfg, h, ops[0]), ops[1..])
  }

  /** All envelopes handed out by a run, in order. */
  function HandedAll(cfg: Config, h: History, ops: seq<Op>): seq<Envelope>
    decreases |ops|
  {
    if ops == [] then []
    else Handed(cfg, h.m, ops[0]) + HandedAll(cfg, Exec(cfg, h, ops[0]), ops[1..])
  }

  ghost predicate Sound(cfg: Config, h: History) {
    Inv(cfg, h.m) && Traced(cfg, h.m, h.issued, h.origin)
  }

  lemma ApplyKeepsInv(cfg: Config, h: History, op: Op)
    requires Sound(cfg, h) && Allowed(cfg, h, op)
    ensures Inv(cfg, Apply(cfg, h.m, op))
  {
    match op
    case DoEnqueue(id, p, now) =>
      if id !in h.origin { EnqueueKeeps(cfg, h.m, id, p, now); }
    case DoRecover(now) => RecoverStaleKeeps(cfg, h.m, now);
    case DoPromote(now) => PromoteDueKeeps(cfg, h.m, now);
    case DoTake(now) => if h.m.ready != [] { TakeKeeps(cfg, h.m, now); }
    case DoAck(id) => AckKeeps(cfg, h.m, id);
    case DoRenew(id, until) => RenewKeeps(cfg, h.m, id, until);
    case DoRetry(e, error, now) => RetryKeeps(cfg, h.m, e, error, now);
    case DoRemoveDead(id) => RemoveDeadKeeps(cfg, h.m, id);
  }

  ghost predicate PayloadsKept(m: Mem, m': Mem) {
    forall k <- m'.envelopes.Keys :: k in m.envelopes && m'.envelopes[k].payload == m.envelopes[k].payload
  }

  lemma RecoverKeepsPayloads(cfg: Config, m: Mem, now: real)
    requires Inv(cfg, m)
    ensures PayloadsKept(m, RecoverStale(cfg, m, now))
  {
    RecoverStaleKeeps(cfg, m, now);
    var m' := RecoverStale(cfg, m, now);
    forall k <- m'.envelopes.Keys ensures k in m.envelopes && m'.envelopes[k].payload == m.envelopes[k].payload {
      if !(k in m.inflight.at && m.inflight.at[k] <= now) {
        assert KeptAt(m, m', k);
      }
    }
  }

  lemma RetryKeepsPayloads(cfg: Config, h: History, e: Envelope, error: string, now: real)
    requires Sound(cfg, h) && e in h.issued
    ensures PayloadsKept(h.m, Retry(cfg, h.m, e, error, now).0)
  {
    assert Issuable(cfg, e, h.origin);
    assert InvAt(cfg, h.m, e.jobId);
    Listed(cfg, h.m, e.jobId);
  }

  lemma ApplyKeepsPayloads(cfg: Config, h: History, op: Op)
    requires Sound(cfg, h) && Allowed(cfg, h, op) && !Accepts(cfg, h.m, op)
    ensures PayloadsKept(h.m, Apply(cfg, h.m, op))
  {
    match op
    case DoRecover(now) => RecoverKeepsPayloads(cfg, h.m, now);
    case DoPromote(now) => PromoteDueKeeps(cfg, h.m, now);
    case DoRetry(e, error, now) => RetryKeepsPayloads(cfg, h, e, error, now);
    case _ =>
  }

  lemma HandedIssuable(cfg: Config, h: History, op: Op)
    requires Sound(cfg, h)
    ensures forall e <- Handed(cfg, h.m, op) :: Issuable(cfg, e, h.origin)
  {
    if op.DoTake? && h.m.ready != [] {
      TakeKeeps(cfg, h.m, op.now);
      assert InvAt(cfg, Take(cfg, h.m, op.now).0, h.m.ready[0]);
    }
  }

  /** One step keeps the class invariant and every job's payload. */
  lemma StepKeeps(cfg: Config, h: History, op: Op)
    requires Sound(cfg, h) && Allowed(cfg, h, op)
    ensures var h' := Exec(cfg, h, op);
      && Sound(cfg, h')
      && h.issued <= h'.issued
      && (forall id <- h.origin.Keys :: id in h'.origin && h'.origin[id] == h.origin[id])
  {
    ApplyKeepsInv(cfg, h, op);
    HandedIssuable(cfg, h, op);
    if !Accepts(cfg, h.m, op) {
      ApplyKeepsPayloads(cfg, h, op);
    }
  }

  /** Over every run: the locations stay disjoint, duplicate-free and cover exactly the envelopes, the
      attempt bounds hold, and a job keeps the payload it was accepted with. */
  lemma {:induction false} RunKeeps(cfg: Config, h: History, ops: seq<Op>)
    requires Sound(cfg, h) && AllAllowed(cfg, h, ops)
    ensures var h' := ExecAll(cfg, h, ops);
      && Sound(cfg, h')
      && h.issued <= h'.issued
      && (forall id <- h.origin.Keys :: id in h'.origin && h'.origin[id] == h.origin[id])
    decreases |ops|
  {
    if ops != [] {
      StepKeeps(cfg, h, ops[0]);
      RunKeeps(cfg, Exec(cfg, h, ops[0]), ops[1..]);
    }
  }

  /** The invariant read off for a reader: where jobs are, how often they were tried, what they carry. */
  lemma RunFromStart(cfg: Config, ops: seq<Op>)
    requires AllAllowed(cfg, START, ops)
    ensures var m := ExecAll(cfg, START, ops).m;
      && NoDup(m.ready) && NoDup(m.inflight.keys) && NoDup(m.scheduled.keys) && NoDup(m.dead)
      && ToSet(m.ready) !! m.inflight.at.Keys !! m.scheduled.at.Keys !! ToSet(m.dead)
      && m.envelopes.Keys == ToSet(m.ready) + m.inflight.at.Keys + m.scheduled.at.Keys + ToSet(m.dead)
      && (forall id <- m.ready :: m.envelopes[id].attempt < cfg.maxAttempts)
      && (forall id <- m.scheduled.at.Keys :: m.envelopes[id].attempt < cfg.maxAttempts)
      && (forall id <- m.inflight.at.Keys :: 1 <= m.envelopes[id].attempt <= cfg.maxAttempts)
      && (forall id <- m.dead :: m.envelopes[id].attempt == cfg.maxAttempts)
  {
    EmptyInv(cfg);
    RunKeeps(cfg, START, ops);
    var m := ExecAll(cfg, START, ops).m;
    forall id ensures Copies(m, id) == if id in m.envelopes then 1 else 0 {
      assert InvAt(cfg, m, id);
    }
    LocationsPartition(m);
    forall id <- m.envelopes.Keys ensures Bounded(cfg, PlaceOf(m, id), m.envelopes[id].attempt) {
      assert InvAt(cfg, m, id);
    }
    forall id ensures InvAt(cfg, m, id) {}
    forall id <- m.ready ensures m.envelopes[id].attempt < cfg.maxAttempts { Listed(cfg, m, id); }
    forall id <- m.scheduled.at.Keys ensures m.envelopes[id].attempt < cfg.maxAttempts { Listed(cfg, m, id); }
    forall id <- m.inflight.at.Keys ensures 1 <= m.envelopes[id].attempt <= cfg.maxAttempts { Listed(cfg, m, id); }
    forall id <- m.dead ensures m.envelopes[id].attempt == cfg.maxAttempts { Listed(cfg, m, id); }
  }

  /** Accepting an id breaks the invariant exactly when its marker ran out while it was still queued. */
  lemma EnqueueKeepsExactly(cfg: Config, m: Mem, id: Id, p: Payload, now: real)
    requires Inv(cfg, m)
    requires Enqueue(cfg, m, id, p, now).1.Accepted?
    ensures Inv(cfg, Enqueue(cfg, m, id, p, now).0) <==> id !in m.envelopes
  {
    if id !in m.envelopes {
      EnqueueKeeps(cfg, m, id, p, now);
    } else {
      var m' := Enqueue(cfg, m, id, p, now).0;
      assert InvAt(cfg, m, id);
      Appended(m.ready, id, id);
      assert Copies(m', id) == 2;
      assert !InvAt(cfg, m', id);
    }
  }

  /** Such an expiry is possible: the same id is listed twice. */
  lemma ExpiredMarkerListsTwice(p: Payload)
    requires p.principal != "" && p.tenant != ""
    ensures var cfg := Settings(3, 300.0, 1.0, 10.0);
      var m := Enqueue(cfg, EMPTY_QUEUE, "a", p, 0.0).0;
      var m' := Enqueue(cfg, m, "a", p, 10.0).0;
      m'.ready == ["a", "a"]
  {
  }

  lemma {:induction false} RecoveryKeepsMarkers(cfg: Config, m: Mem, ids: seq<Id>)
    ensures RecoverAll(cfg, m, ids).known == m.known
    decreases |ids|
  {
    if ids != [] {
      RecoveryKeepsMarkers(cfg, RecoverOne(cfg, m, ids[0]), ids[1..]);
    }
  }

  lemma {:induction false} PromotionKeepsMarkers(m: Mem, ids: seq<Id>)
    ensures PromoteAll(m, ids).known == m.known
    decreases |ids|
  {
    if ids != [] {
      PromotionKeepsMarkers(PromoteOne(m, ids[0]), ids[1..]);
    }
  }

  /** The run does not accept `id`. */
  predicate NeverAccepts(cfg: Config, h: History, ops: seq<Op>, id: Id)
    decreases |ops|
  {
    ops == [] ||
    (!(Accepts(cfg, h.m, ops[0]) && ops[0].id == id) && NeverAccepts(cfg, Exec(cfg, h, ops[0]), ops[1..], id))
  }

  /** Only the acceptance of an id sets its marker, and nothing removes it. */
  lemma {:induction false} MarkerKept(cfg: Config, h: History, ops: seq<Op>, id: Id)
    requires id in h.m.known && NeverAccepts(cfg, h, ops, id)
    ensures var m := ExecAll(cfg, h, ops).m; id in m.known && m.known[id] == h.m.known[id]
    decreases |ops|
  {
    if ops != [] {
      match ops[0] {
        case DoRecover(now) => RecoveryKeepsMarkers(cfg, h.m, Due(h.m.inflight, now));
        case DoPromote(now) => PromotionKeepsMarkers(h.m, Due(h.m.scheduled, now));
        case _ =>
      }
      MarkerKept(cfg, Exec(cfg, h, ops[0]), ops[1..], id);
    }
  }

  /** Once accepted at `now`, an id is accepted again, whatever happened to its job in between, if and only if
      the retention time is over; until then it is a duplicate. */
  lemma AcceptedAgainExactly(
    cfg: Config, h: History, id: Id, p: Payload, now: real, ops: seq<Op>, q: Payload, later: real)
    requires Accepts(cfg, h.m, DoEnqueue(id, p, now)) && q.principal != "" && q.tenant != ""
    requires NeverAccepts(cfg, Exec(cfg, h, DoEnqueue(id, p, now)), ops, id)
    ensures var m := ExecAll(cfg, Exec(cfg, h, DoEnqueue(id, p, now)), ops).m;
      Enqueue(cfg, m, id, q, later).1 == if later >= now + cfg.ttl then Accepted else Duplicate
  {
    MarkerKept(cfg, Exec(cfg, h, DoEnqueue(id, p, now)), ops, id);
  }

  lemma {:induction false} RecoverAllAppends(cfg: Config, m: Mem, ids: seq<Id>)
    ensures m.ready <= RecoverAll(cfg, m, ids).ready
    decreases |ids|
  {
    if ids != [] {
      RecoverAllAppends(cfg, RecoverOne(cfg, m, ids[0]), ids[1..]);
    }
  }

  lemma OnlyTakeRemoves(cfg: Config, h: History, op: Op)
    requires Sound(cfg, h) && !op.DoTake?
    ensures h.m.ready <= Apply(cfg, h.m, op).ready
  {
    match op
    case DoRecover(now) => RecoverAllAppends(cfg, h.m, Due(h.m.inflight, now));
    case DoPromote(now) => PromoteDueKeeps(cfg, h.m, now);
    case _ =>
  }

  lemma HandsHead(cfg: Config, h: History, now: real)
    requires Sound(cfg, h) && h.m.ready != []
    ensures var handed := Handed(cfg, h.m, DoTake(now)); |handed| == 1 && handed[0].jobId == h.m.ready[0]
    ensures Exec(cfg, h, DoTake(now)).m.ready == h.m.ready[1..]
  {
    TakeKeeps(cfg, h.m, now);
    assert InvAt(cfg, Take(cfg, h.m, now).0, h.m.ready[0]);
  }

  /** No overtaking: whatever enqueues, recoveries, promotions and retries intervene, the next
      successful claims return the ready jobs in order, each at its position. */
  lemma {:induction false} NoOvertaking(cfg: Config, h: History, ops: seq<Op>, p: nat)
    requires Sound(cfg, h) && AllAllowed(cfg, h, ops)
    requires p < |h.m.ready| && p < |HandedAll(cfg, h, ops)|
    ensures HandedAll(cfg, h, ops)[p].jobId == h.m.ready[p]
    decreases |ops|
  {
    var h1, rest := Exec(cfg, h, ops[0]), ops[1..];
    StepKeeps(cfg, h, ops[0]);
    if ops[0].DoTake? {
      HandsHead(cfg, h, ops[0].now);
      if p > 0 {
        NoOvertaking(cfg, h1, rest, p - 1);
      }
    } else {
      OnlyTakeRemoves(cfg, h, ops[0]);
      NoOvertaking(cfg, h1, rest, p);
    }
  }
}
