/** Retry times: what a claim may return when, and what an always-failing job waits in total. */
module RetryTiming {
  import opened Basics
  import opened Envelopes
  import opened Dicts
  import opened QueueSpec
  import opened QueueInvariant
  import opened QueueRuns

  /** The clock reading of a step, where the step depends on it. */
  function Reading(op: Op, clock: real): real {
    match op
    case DoEnqueue(_, _, now) => now
    case DoRecover(now) => now
    case DoPromote(now) => now
    case DoTake(now) => now
    case DoRetry(_, _, now) => now
    case _ => clock
  }

  predicate Monotone(ops: seq<Op>, clock: real) {
    ops == [] || (Reading(ops[0], clock) >= clock && Monotone(ops[1..], Reading(ops[0], clock)))
  }

  /** A scheduled job waits for exactly its `retryAt`; outside the schedule that time has passed. */
  predicate TimedAt(m: Mem, clock: real, id: Id) {
    id in m.envelopes ==>
      match PlaceOf(m, id)
      case Scheduled => m.envelopes[id].retryAt == Some(m.scheduled.at[id])
      case Dead => true
      case _ => m.envelopes[id].retryAt.Some? ==> m.envelopes[id].retryAt.value <= clock
  }

  ghost predicate Timed(m: Mem, clock: real) {
    forall id :: TimedAt(m, clock, id)
  }

  lemma RetryTimed(cfg: Config, h: History, e: Envelope, error: string, now: real, clock: real)
    requires Sound(cfg, h) && e in h.issued && Timed(h.m, clock) && now >= clock
    ensures Timed(Retry(cfg, h.m, e, error, now).0, now)
  {
    var (m', r) := Retry(cfg, h.m, e, error, now);
    assert Issuable(cfg, e, h.origin);
    RetryKeeps(cfg, h.m, e, error, now);
    forall id ensures TimedAt(m', now, id) {
      assert TimedAt(h.m, clock, id);
      assert InvAt(cfg, h.m, id);
      Listed(cfg, h.m, id);
      if id != e.jobId { assert KeptAt(h.m, m', id); }
    }
  }

  lemma TakeTimed(cfg: Config, m: Mem, now: real, clock: real)
    requires Inv(cfg, m) && Timed(m, clock) && now >= clock && m.ready != []
    ensures Timed(Take(cfg, m, now).0, now)
    ensures var e := Take(cfg, m, now).1; e.Some? && (e.value.retryAt.Some? ==> e.value.retryAt.value <= now)
  {
    TakeKeeps(cfg, m, now);
    var m', k := Take(cfg, m, now).0, m.ready[0];
    assert TimedAt(m, clock, k);
    forall id ensures TimedAt(m', now, id) {
      assert TimedAt(m, clock, id);
      if id != k { assert KeptAt(m, m', id); }
    }
  }

  lemma RecoverTimed(cfg: Config, m: Mem, now: real, clock: real)
    requires Inv(cfg, m) && Timed(m, clock) && now >= clock
    ensures Timed(RecoverStale(cfg, m, now), now)
  {
    RecoverStaleKeeps(cfg, m, now);
    var m' := RecoverStale(cfg, m, now);
    forall id ensures TimedAt(m', now, id) {
      assert TimedAt(m, clock, id);
      assert InvAt(cfg, m, id);
      Listed(cfg, m, id);
      if !(id in m.inflight.at && m.inflight.at[id] <= now) { assert KeptAt(m, m', id); }
    }
  }

  lemma PromoteTimed(cfg: Config, m: Mem, now: real, clock: real)
    requires Inv(cfg, m) && Timed(m, clock) && now >= clock
    ensures Timed(PromoteDue(m, now), now)
  {
    PromoteDueKeeps(cfg, m, now);
    var m' := PromoteDue(m, now);
    forall id ensures TimedAt(m', now, id) {
      assert TimedAt(m, clock, id);
      assert InvAt(cfg, m, id);
      Listed(cfg, m, id);
      if !(id in m.scheduled.at && m.scheduled.at[id] <= now) { assert KeptAt(m, m', id); }
    }
  }

  lemma EnqueueTimed(cfg: Config, m: Mem, id: Id, p: Payload, now: real, clock: real)
    requires Inv(cfg, m) && Timed(m, clock) && now >= clock && id !in m.envelopes
    ensures Timed(Enqueue(cfg, m, id, p, now).0, now)
  {
    EnqueueKeeps(cfg, m, id, p, now);
    var m' := Enqueue(cfg, m, id, p, now).0;
    forall k ensures TimedAt(m', now, k) {
      assert TimedAt(m, clock, k);
      if k != id { assert KeptAt(m, m', k); }
    }
  }

  lemma StepTimed(cfg: Config, h: History, op: Op, clock: real)
    requires Sound(cfg, h) && Allowed(cfg, h, op) && Timed(h.m, clock) && Reading(op, clock) >= clock
    ensures Timed(Apply(cfg, h.m, op), Reading(op, clock))
  {
    var m, m', now := h.m, Apply(cfg, h.m, op), Reading(op, clock);
    match op
    case DoRetry(e, error, t) => RetryTimed(cfg, h, e, error, t, clock);
    case DoRecover(t) => RecoverTimed(cfg, m, t, clock);
    case DoPromote(t) => PromoteTimed(cfg, m, t, clock);
    case DoTake(t) =>
      if m.ready != [] { TakeTimed(cfg, m, t, clock); }
      else { forall k ensures TimedAt(m', now, k) { assert TimedAt(m, clock, k); } }
    case DoEnqueue(id, p, t) =>
      if id !in h.origin { EnqueueTimed(cfg, m, id, p, t, clock); }
      else { forall k ensures TimedAt(m', now, k) { assert TimedAt(m, clock, k); } }
    case DoAck(id) =>
      AckKeeps(cfg, m, id);
      forall k ensures TimedAt(m', now, k) { assert TimedAt(m, clock, k) && (k != id ==> KeptAt(m, m', k)); }
    case DoRenew(id, until) =>
      RenewKeeps(cfg, m, id, until);
      forall k ensures TimedAt(m', now, k) { assert TimedAt(m, clock, k) && KeptAt(m, m', k); }
    case DoRemoveDead(id) =>
      RemoveDeadKeeps(cfg, m, id);
      forall k ensures TimedAt(m', now, k) { assert TimedAt(m, clock, k) && (k != id ==> KeptAt(m, m', k)); }
  }

  /** Over every run under a nondecreasing clock, no job is handed out before its retry time. */
  lemma {:induction false} NeverEarly(cfg: Config, h: History, ops: seq<Op>, clock: real)
    requires Sound(cfg, h) && AllAllowed(cfg, h, ops) && Timed(h.m, clock) && Monotone(ops, clock)
    ensures NoneEarly(cfg, h, ops)
    decreases |ops|
  {
    if ops != [] {
      var op := ops[0];
      if op.DoTake? && h.m.ready != [] {
        TakeTimed(cfg, h.m, op.now, clock);
      }
      StepTimed(cfg, h, op, clock);
      StepKeeps(cfg, h, op);
      NeverEarly(cfg, Exec(cfg, h, op), ops[1..], Reading(op, clock));
    }
  }

  predicate NoneEarly(cfg: Config, h: History, ops: seq<Op>)
    decreases |ops|
  {
    ops == [] ||
    ((forall e <- Handed(cfg, h.m, ops[0]) ::
        ops[0].DoTake? && (e.retryAt.Some? ==> e.retryAt.value <= ops[0].now))
     && NoneEarly(cfg, Exec(cfg, h, ops[0]), ops[1..]))
  }

  /** What an observer of one job counts: its claims, the failures that its holders reported in time, and
      the total delay it was scheduled for. */
  datatype Tally = Tally(claims: nat, failures: nat, delays: real)

  const NOTHING: Tally := Tally(0, 0, 0.0)

  function Counted(cfg: Config, m: Mem, op: Op, id: Id, t: Tally): Tally {
    if op.DoTake? && m.ready != [] && m.ready[0] == id then t.(claims := t.claims + 1)
    else if op.DoRetry? && op.e.jobId == id then
      match Retry(cfg, m, op.e, op.error, op.now).1
      case NotInflight => t
      case ToDeadLetter => t.(failures := t.failures + 1)
      case ToSchedule =>
        t.(failures := t.failures + 1,
           delays := t.delays + (Retry(cfg, m, op.e, op.error, op.now).0.scheduled.at[id] - op.now))
    else t
  }

  function CountedAll(cfg: Config, h: History, ops: seq<Op>, id: Id, t: Tally): Tally
    decreases |ops|
  {
    if ops == [] then t else
      CountedAll(cfg, Exec(cfg, h, ops[0]), ops[1..], id, Counted(cfg, h.m, ops[0], id, t))
  }

  /** Nothing happens to the job but failing: its lease never lapses and only its current holder acts,
      by `retry`. */
  predicate OnlyFails(m: Mem, op: Op, id: Id) {
    && (op.DoRecover? && id in m.inflight.at ==> op.now < m.inflight.at[id])
    && (op.DoRetry? && op.e.jobId == id && id in m.envelopes ==> op.e.attempt == m.envelopes[id].attempt)
    && !(op.DoAck? && op.id == id) && !(op.DoRemoveDead? && op.id == id)
  }

  predicate AlwaysFails(cfg: Config, h: History, ops: seq<Op>, id: Id)
    decreases |ops|
  {
    ops == [] || (OnlyFails(h.m, ops[0], id) && AlwaysFails(cfg, Exec(cfg, h, ops[0]), ops[1..], id))
  }

  /** Failures so far: an in-flight job's current attempt has not failed yet. */
  function Failures(m: Mem, id: Id): nat
    requires id in m.envelopes
  {
    var a := m.envelopes[id].attempt;
    if PlaceOf(m, id) == Inflight && a > 0 then a - 1 else a
  }

  /** Every failure but the last possible one is followed by a delay. */
  function Delays(m: Mem, id: Id): nat
    requires id in m.envelopes
  {
    if PlaceOf(m, id) == Dead && Failures(m, id) > 0 then Failures(m, id) - 1 else Failures(m, id)
  }

  /** The first `k` delays. */
  function TotalDelay(cfg: Config, k: nat): real {
    if k == 0 then 0.0 else TotalDelay(cfg, k - 1) + Delay(cfg, k)
  }

  lemma {:induction false} TotalDelayClosed(cfg: Config, k: nat)
    ensures TotalDelay(cfg, k) == cfg.backoff * (Pow2(k) - 1) as real
  {
    if k > 0 {
      TotalDelayClosed(cfg, k - 1);
      var p := Pow2(k - 1);
      assert Pow2(k) == 2 * p;
      assert cfg.backoff * (p - 1) as real + cfg.backoff * p as real == cfg.backoff * (2 * p - 1) as real;
    }
  }

  predicate Accounted(cfg: Config, m: Mem, id: Id, t: Tally) {
    if id !in m.envelopes then t == NOTHING else
      && t.claims == m.envelopes[id].attempt && t.failures == Failures(m, id)
      && t.delays == TotalDelay(cfg, Delays(m, id))
  }

  lemma FailTake(cfg: Config, m: Mem, now: real, id: Id, t: Tally)
    requires Inv(cfg, m) && Accounted(cfg, m, id, t)
    ensures Accounted(cfg, Take(cfg, m, now).0, id, Counted(cfg, m, DoTake(now), id, t))
  {
    if m.ready != [] {
      TakeKeeps(cfg, m, now);
      if m.ready[0] != id { assert KeptAt(m, Take(cfg, m, now).0, id); }
    }
  }

  lemma FailRetry(cfg: Config, h: History, e: Envelope, error: string, now: real, id: Id, t: Tally)
    requires Sound(cfg, h) && e in h.issued && OnlyFails(h.m, DoRetry(e, error, now), id) && Accounted(cfg, h.m, id, t)
    ensures Accounted(cfg, Retry(cfg, h.m, e, error, now).0, id, Counted(cfg, h.m, DoRetry(e, error, now), id, t))
  {
    var (m', r) := Retry(cfg, h.m, e, error, now);
    assert Issuable(cfg, e, h.origin);
    assert InvAt(cfg, h.m, id);
    Listed(cfg, h.m, id);
    RetryKeeps(cfg, h.m, e, error, now);
    if e.jobId != id {
      assert KeptAt(h.m, m', id);
    } else if r.ToSchedule? {
      assert m'.scheduled.at[id] - now == Delay(cfg, e.attempt);
      assert Failures(h.m, id) == e.attempt - 1 && Failures(m', id) == e.attempt;
    }
  }

  lemma FailRecover(cfg: Config, m: Mem, now: real, id: Id, t: Tally)
    requires Inv(cfg, m) && OnlyFails(m, DoRecover(now), id) && Accounted(cfg, m, id, t)
    ensures Accounted(cfg, RecoverStale(cfg, m, now), id, t)
  {
    RecoverStaleKeeps(cfg, m, now);
    assert KeptAt(m, RecoverStale(cfg, m, now), id);
  }

  lemma FailPromote(cfg: Config, m: Mem, now: real, id: Id, t: Tally)
    requires Inv(cfg, m) && Accounted(cfg, m, id, t)
    ensures Accounted(cfg, PromoteDue(m, now), id, t)
  {
    PromotedPlace(cfg, m, now, id);
  }

  /** Promotion keeps the envelope, and the place unless the job was scheduled. */
  lemma PromotedPlace(cfg: Config, m: Mem, now: real, id: Id)
    requires Inv(cfg, m)
    ensures var m' := PromoteDue(m, now);
      && m'.envelopes == m.envelopes
      && (PlaceOf(m', id) == PlaceOf(m, id) || (PlaceOf(m, id) == Scheduled && PlaceOf(m', id) == Ready))
  {
    assert InvAt(cfg, m, id);
    Listed(cfg, m, id);
    PromoteDueKeeps(cfg, m, now);
    if !(id in m.scheduled.at && m.scheduled.at[id] <= now) { assert KeptAt(m, PromoteDue(m, now), id); }
  }

  /** The other steps leave the job in place. */
  lemma FailOther(cfg: Config, h: History, op: Op, id: Id, t: Tally)
    requires Sound(cfg, h) && Allowed(cfg, h, op) && OnlyFails(h.m, op, id) && Accounted(cfg, h.m, id, t)
    requires !op.DoTake? && !op.DoRetry? && !op.DoRecover? && !op.DoPromote?
    ensures Accounted(cfg, Apply(cfg, h.m, op), id, t)
  {
    var m, m' := h.m, Apply(cfg, h.m, op);
    assert InvAt(cfg, m, id);
    Listed(cfg, m, id);
    match op
    case DoEnqueue(k, p, now) =>
      if k !in h.origin {
        EnqueueKeeps(cfg, m, k, p, now);
        if k != id { assert KeptAt(m, m', id); }
      }
    case DoAck(k) => AckKeeps(cfg, m, k); assert KeptAt(m, m', id);
    case DoRenew(k, until) => RenewKeeps(cfg, m, k, until); assert KeptAt(m, m', id);
    case DoRemoveDead(k) => RemoveDeadKeeps(cfg, m, k); assert KeptAt(m, m', id);
  }

  lemma FailStep(cfg: Config, h: History, op: Op, id: Id, t: Tally)
    requires Sound(cfg, h) && Allowed(cfg, h, op) && OnlyFails(h.m, op, id) && Accounted(cfg, h.m, id, t)
    ensures Accounted(cfg, Apply(cfg, h.m, op), id, Counted(cfg, h.m, op, id, t))
  {
    match op
    case DoTake(now) => FailTake(cfg, h.m, now, id, t);
    case DoRetry(e, error, now) => FailRetry(cfg, h, e, error, now, id, t);
    case DoRecover(now) => FailRecover(cfg, h.m, now, id, t);
    case DoPromote(now) => FailPromote(cfg, h.m, now, id, t);
    case _ => FailOther(cfg, h, op, id, t);
  }

  /** A job that always fails under a live lease is dead-lettered by its N-th failure and by no other: it is
      a dead letter exactly when it has failed as often as its cap, by then it was claimed as often, and its
      delays add up to `backoff * (2^(N-1) - 1)`. */
  lemma {:induction false} FailingJob(cfg: Config, h: History, ops: seq<Op>, id: Id, t: Tally)
    requires Sound(cfg, h) && AllAllowed(cfg, h, ops) && AlwaysFails(cfg, h, ops, id)
    requires Accounted(cfg, h.m, id, t)
    ensures var m, t' := ExecAll(cfg, h, ops).m, CountedAll(cfg, h, ops, id, t);
      && Accounted(cfg, m, id, t')
      && t'.failures <= t'.claims <= cfg.maxAttempts
      && (PlaceOf(m, id) == Dead <==> t'.failures == cfg.maxAttempts)
      && (PlaceOf(m, id) == Dead ==> t'.delays == cfg.backoff * (Pow2(cfg.maxAttempts - 1) - 1) as real)
      && (PlaceOf(m, id) in {Ready, Scheduled} ==> t'.claims == t'.failures < cfg.maxAttempts)
    decreases |ops|
  {
    if ops == [] {
      assert InvAt(cfg, h.m, id);
      Listed(cfg, h.m, id);
      TotalDelayClosed(cfg, cfg.maxAttempts - 1);
    } else {
      FailStep(cfg, h, ops[0], id, t);
      StepKeeps(cfg, h, ops[0]);
      FailingJob(cfg, Exec(cfg, h, ops[0]), ops[1..], id, Counted(cfg, h.m, ops[0], id, t));
    }
  }
}
