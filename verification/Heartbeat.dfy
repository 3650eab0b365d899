/** The worker's heartbeat against `recover_stale`: a timely heartbeat keeps the job in flight with its
    holder. */
module Heartbeat {
  import opened Basics
  import opened Envelopes
  import opened QueueSpec
  import opened QueueInvariant
  import opened QueueRuns
  import opened RetryTiming

  function Min(a: real, b: real): real { if a <= b then a else b }
  function Max(a: real, b: real): real { if a >= b then a else b }

  /** The heartbeat's waiting time between two renewals. */
  function Interval(lease: real): real {
    Max(Min(lease / 3.0, 30.0), 0.01)
  }

  /** The interval is a third of the lease, but neither more than 30 seconds nor less than 0.01; it fits three
      times into the lease exactly when the lease is at least 0.03 seconds. */
  lemma IntervalFits(lease: real)
    ensures 3.0 * Interval(lease) == if lease <= 0.03 then 0.03 else if lease <= 90.0 then lease else 90.0
    ensures Interval(lease) <= lease / 3.0 <==> lease >= 0.03
  {
  }

  /** What happens while a worker holds a job: a locked region of anybody, or the holder's renewal, which
      reads the clock at `read`, and takes effect and lets the heartbeat go on at `done`. */
  datatype Beat = Region(op: Op) | Renewal(read: real, done: real)

  /** The holder's queue, and when its next renewal is due. */
  datatype Held = Held(h: History, due: real)

  /** A run on a clock that does not go back: locked regions read it in order, every renewal starts when it is
      due, and takes effect less than a third of the lease later; at the end, no renewal is overdue by as much.
      Nobody else acts for the job. */
  predicate Punctual(cfg: Config, s: Held, clock: real, id: Id, beats: seq<Beat>)
    decreases |beats|
  {
    if beats == [] then clock < s.due + cfg.lease / 3.0 else
      var s' := Step(cfg, s, id, beats[0]);
      match beats[0]
      case Renewal(read, done) =>
        && clock <= done && s.due <= read <= done < s.due + cfg.lease / 3.0
        && Punctual(cfg, s', done, id, beats[1..])
      case Region(op) =>
        && Allowed(cfg, s.h, op)
        && !(op.DoAck? && op.id == id) && !(op.DoRetry? && op.e.jobId == id) && !(op.DoRenew? && op.id == id)
        && Reading(op, clock) >= clock && Punctual(cfg, s', Reading(op, clock), id, beats[1..])
  }

  /** So every recovery reads a clock at which the next renewal is not overdue by a third of the lease. */
  predicate Timely(cfg: Config, s: Held, id: Id, b: Beat) {
    match b
    case Renewal(read, done) => s.due <= read <= done < s.due + cfg.lease / 3.0
    case Region(op) =>
      && Allowed(cfg, s.h, op)
      && (op.DoRecover? ==> op.now < s.due + cfg.lease / 3.0)
      && !(op.DoAck? && op.id == id) && !(op.DoRetry? && op.e.jobId == id) && !(op.DoRenew? && op.id == id)
  }

  function Step(cfg: Config, s: Held, id: Id, b: Beat): Held {
    match b
    case Renewal(read, done) =>
      Held(Exec(cfg, s.h, DoRenew(id, read + cfg.lease)), done + Interval(cfg.lease))
    case Region(op) => s.(h := Exec(cfg, s.h, op))
  }

  predicate AllTimely(cfg: Config, s: Held, id: Id, beats: seq<Beat>)
    decreases |beats|
  {
    beats == [] || (Timely(cfg, s, id, beats[0]) && AllTimely(cfg, Step(cfg, s, id, beats[0]), id, beats[1..]))
  }

  function Steps(cfg: Config, s: Held, id: Id, beats: seq<Beat>): Held
    decreases |beats|
  {
    if beats == [] then s else Steps(cfg, Step(cfg, s, id, beats[0]), id, beats[1..])
  }

  /** No reading before the next renewal, or before the end, is later than that. */
  lemma {:induction false} NotOverdue(cfg: Config, s: Held, clock: real, id: Id, beats: seq<Beat>)
    requires Punctual(cfg, s, clock, id, beats)
    ensures clock < s.due + cfg.lease / 3.0
    decreases |beats|
  {
    if beats != [] && beats[0].Region? {
      NotOverdue(cfg, Step(cfg, s, id, beats[0]), Reading(beats[0].op, clock), id, beats[1..]);
    }
  }

  lemma {:induction false} PunctualIsTimely(cfg: Config, s: Held, clock: real, id: Id, beats: seq<Beat>)
    requires Punctual(cfg, s, clock, id, beats)
    ensures AllTimely(cfg, s, id, beats)
    decreases |beats|
  {
    if beats != [] {
      var s' := Step(cfg, s, id, beats[0]);
      match beats[0]
      case Renewal(_, done) => PunctualIsTimely(cfg, s', done, id, beats[1..]);
      case Region(op) =>
        NotOverdue(cfg, s', Reading(op, clock), id, beats[1..]);
        PunctualIsTimely(cfg, s', Reading(op, clock), id, beats[1..]);
    }
  }

  /** The lease outlasts the next renewal. */
  ghost predicate Safe(cfg: Config, s: Held, id: Id) {
    && Sound(cfg, s.h)
    && id in s.h.m.inflight.at
    && s.due + cfg.lease / 3.0 <= s.h.m.inflight.at[id]
  }

  /** A locked region that neither recovers nor releases the job leaves its lease and envelope alone. */
  lemma RegionKeepsLease(cfg: Config, h: History, op: Op, id: Id)
    requires Sound(cfg, h) && Allowed(cfg, h, op) && id in h.m.inflight.at
    requires op.DoRecover? ==> op.now < h.m.inflight.at[id]
    requires !(op.DoAck? && op.id == id) && !(op.DoRetry? && op.e.jobId == id) && !(op.DoRenew? && op.id == id)
    ensures var m' := Apply(cfg, h.m, op);
      && id in m'.inflight.at && m'.inflight.at[id] == h.m.inflight.at[id]
      && id in h.m.envelopes && id in m'.envelopes && m'.envelopes[id] == h.m.envelopes[id]
  {
    var m := h.m;
    assert InvAt(cfg, m, id);
    Listed(cfg, m, id);
    match op
    case DoRecover(now) => RecoverStaleKeeps(cfg, m, now); assert KeptAt(m, RecoverStale(cfg, m, now), id);
    case DoPromote(now) => PromoteDueKeeps(cfg, m, now);
    case DoTake(now) => if m.ready != [] { TakeKeeps(cfg, m, now); }
    case DoEnqueue(k, p, now) => EnqueueKeepsLease(cfg, h, k, p, now, id);
    case _ => OneJobKeepsLease(cfg, m, op, id);
  }

  lemma EnqueueKeepsLease(cfg: Config, h: History, k: Id, p: Payload, now: real, id: Id)
    requires Sound(cfg, h) && Allowed(cfg, h, DoEnqueue(k, p, now)) && id in h.m.inflight.at && id in h.m.envelopes
    ensures var m' := Enqueue(cfg, h.m, k, p, now).0;
      && m'.inflight == h.m.inflight
      && id in m'.envelopes && m'.envelopes[id] == h.m.envelopes[id]
  {
  }

  /** Acts for other jobs, and the removal of a dead letter. */
  lemma OneJobKeepsLease(cfg: Config, m: Mem, op: Op, id: Id)
    requires id in m.inflight.at && id in m.envelopes && id !in m.dead
    requires op.DoAck? || op.DoRenew? || op.DoRetry? || op.DoRemoveDead?
    requires !(op.DoAck? && op.id == id) && !(op.DoRetry? && op.e.jobId == id) && !(op.DoRenew? && op.id == id)
    ensures var m' := Apply(cfg, m, op);
      && id in m'.inflight.at && m'.inflight.at[id] == m.inflight.at[id]
      && id in m'.envelopes && m'.envelopes[id] == m.envelopes[id]
  {
  }

  lemma BeatKeeps(cfg: Config, s: Held, id: Id, b: Beat)
    requires cfg.lease >= 0.03 && Safe(cfg, s, id) && Timely(cfg, s, id, b)
    ensures var s' := Step(cfg, s, id, b);
      && Safe(cfg, s', id)
      && id in s.h.m.envelopes && id in s'.h.m.envelopes && s'.h.m.envelopes[id] == s.h.m.envelopes[id]
  {
    match b
    case Region(op) =>
      RegionKeepsLease(cfg, s.h, op, id);
      StepKeeps(cfg, s.h, op);
    case Renewal(read, done) =>
      StepKeeps(cfg, s.h, DoRenew(id, read + cfg.lease));
      assert InvAt(cfg, s.h.m, id);
      Listed(cfg, s.h.m, id);
      IntervalFits(cfg.lease);
  }

  lemma {:induction false} BeatsKeep(cfg: Config, s: Held, id: Id, beats: seq<Beat>)
    requires cfg.lease >= 0.03 && Safe(cfg, s, id) && AllTimely(cfg, s, id, beats)
    ensures var s' := Steps(cfg, s, id, beats);
      && Safe(cfg, s', id)
      && id in s.h.m.envelopes && id in s'.h.m.envelopes && s'.h.m.envelopes[id] == s.h.m.envelopes[id]
    decreases |beats|
  {
    if beats == [] {
      assert InvAt(cfg, s.h.m, id);
      Listed(cfg, s.h.m, id);
    } else {
      BeatKeeps(cfg, s, id, beats[0]);
      BeatsKeep(cfg, Step(cfg, s, id, beats[0]), id, beats[1..]);
    }
  }

  /** A heartbeating worker never loses its job: from a claim whose heartbeat starts within a third of the
      lease, through any run in which renewals are punctual, the job stays in flight with the envelope that was
      claimed. */
  lemma HolderKeepsJob(cfg: Config, h: History, now: real, started: real, beats: seq<Beat>)
    requires cfg.lease >= 0.03 && Sound(cfg, h) && h.m.ready != []
    requires now <= started < now + cfg.lease / 3.0
    requires var s := Held(Exec(cfg, h, DoTake(now)), started + Interval(cfg.lease));
      Punctual(cfg, s, now, h.m.ready[0], beats)
    ensures var s := Held(Exec(cfg, h, DoTake(now)), started + Interval(cfg.lease));
      var id, m' := h.m.ready[0], Steps(cfg, s, h.m.ready[0], beats).h.m;
      && id in m'.inflight.at && id in m'.envelopes
      && Take(cfg, h.m, now).1 == Some(m'.envelopes[id])
  {
    TakeKeeps(cfg, h.m, now);
    StepKeeps(cfg, h, DoTake(now));
    IntervalFits(cfg.lease);
    PunctualIsTimely(cfg, Held(Exec(cfg, h, DoTake(now)), started + Interval(cfg.lease)), now, h.m.ready[0], beats);
    BeatsKeep(cfg, Held(Exec(cfg, h, DoTake(now)), started + Interval(cfg.lease)), h.m.ready[0], beats);
  }
}
