/** The queue, seen from one job, is a run of the job machine; so deliveries are bounded if each leads to one act. */
module DeliveryBound {
  import opened Basics
  import opened Envelopes
  import opened Dicts
  import opened QueueSpec
  import opened QueueInvariant
  import opened QueueRuns
  import J = JobMachine

  /** A run's history and the deliveries whose holders have not acted yet. */
  datatype Tracked = Tracked(h: History, open: seq<Envelope>)

  datatype Call = Other(op: Op) | AckBy(i: nat) | RetryBy(i: nat, error: string, now: real)

  predicate CallAllowed(cfg: Config, t: Tracked, c: Call) {
    match c
    case Other(op) => !op.DoAck? && !op.DoRetry? && Allowed(cfg, t.h, op)
    case AckBy(i) => i < |t.open|
    case RetryBy(i, _, _) => i < |t.open|
  }

  function OpOf(t: Tracked, c: Call): Op
    requires !c.Other? ==> c.i < |t.open|
  {
    match c
    case Other(op) => op
    case AckBy(i) => DoAck(t.open[i].jobId)
    case RetryBy(i, error, now) => DoRetry(t.open[i], error, now)
  }

  function ExecCall(cfg: Config, t: Tracked, c: Call): Tracked
    requires CallAllowed(cfg, t, c)
  {
    var op := OpOf(t, c);
    var kept := if c.Other? then t.open else J.Without(t.open, c.i);
    Tracked(Exec(cfg, t.h, op), if op.DoTake? then kept + Handed(cfg, t.h.m, op) else kept)
  }

  predicate CallsAllowed(cfg: Config, t: Tracked, calls: seq<Call>)
    decreases |calls|
  {
    calls == [] || (CallAllowed(cfg, t, calls[0]) && CallsAllowed(cfg, ExecCall(cfg, t, calls[0]), calls[1..]))
  }

  function OfJob(s: seq<Envelope>, id: Id): seq<nat> {
    if s == [] then [] else (if s[0].jobId == id then [s[0].attempt] else []) + OfJob(s[1..], id)
  }

  /** How often a run hands out `id`. */
  function Deliveries(cfg: Config, t: Tracked, calls: seq<Call>, id: Id): nat
    requires CallsAllowed(cfg, t, calls)
    decreases |calls|
  {
    if calls == [] then 0 else
      |OfJob(Handed(cfg, t.h.m, OpOf(t, calls[0])), id)|
      + Deliveries(cfg, ExecCall(cfg, t, calls[0]), calls[1..], id)
  }

  ghost predicate SoundT(cfg: Config, t: Tracked) {
    Sound(cfg, t.h) && forall e <- t.open :: e in t.h.issued
  }

  function StageOf(t: Tracked, id: Id): J.Stage {
    if id !in t.h.origin then J.Fresh else
      match PlaceOf(t.h.m, id)
      case Ready => J.Ready
      case Inflight => J.Inflight
      case Scheduled => J.Scheduled
      case Dead => J.Dead
      case Gone => J.Gone
  }

  function JobOf(t: Tracked, id: Id): J.Job {
    J.Job(StageOf(t, id),
          if id in t.h.m.envelopes then t.h.m.envelopes[id].attempt else 0,
          OfJob(t.open, id))
  }

  function MoveOf(cfg: Config, t: Tracked, c: Call, id: Id): J.Move
    requires CallAllowed(cfg, t, c)
  {
    match c
    case AckBy(i) => if t.open[i].jobId == id then J.AckWith(|OfJob(t.open[..i], id)|) else J.Idle
    case RetryBy(i, _, _) => if t.open[i].jobId == id then J.RetryWith(|OfJob(t.open[..i], id)|) else J.Idle
    case Other(op) =>
      match op
      case DoEnqueue(k, _, _) => if k == id && Accepts(cfg, t.h.m, op) then J.Accept else J.Idle
      case DoRecover(now) =>
        if id in t.h.m.inflight.at && t.h.m.inflight.at[id] <= now then J.Expire else J.Idle
      case DoPromote(now) =>
        if id in t.h.m.scheduled.at && t.h.m.scheduled.at[id] <= now then J.Promote else J.Idle
      case DoTake(_) => if t.h.m.ready != [] && t.h.m.ready[0] == id then J.Deliver else J.Idle
      case DoRemoveDead(k) => if k == id && id in t.h.m.dead then J.Clear else J.Idle
      case _ => J.Idle
  }

  lemma {:induction false} OfJobConcat(s: seq<Envelope>, t: seq<Envelope>, id: Id)
    ensures OfJob(s + t, id) == OfJob(s, id) + OfJob(t, id)
  {
    if s == [] {
      assert s + t == t;
    } else {
      OfJobConcat(s[1..], t, id);
      assert (s + t)[1..] == s[1..] + t;
      Regroup(if s[0].jobId == id then [s[0].attempt] else [], OfJob(s[1..], id), OfJob(t, id));
    }
  }

  lemma OfJobWithout(s: seq<Envelope>, i: nat, id: Id)
    requires i < |s|
    ensures var at := |OfJob(s[..i], id)|;
      if s[i].jobId == id then
        at < |OfJob(s, id)| && OfJob(s, id)[at] == s[i].attempt
        && OfJob(J.Without(s, i), id) == J.Without(OfJob(s, id), at)
      else OfJob(J.Without(s, i), id) == OfJob(s, id)
  {
    var a, b := s[..i], s[i + 1..];
    assert s == a + ([s[i]] + b);
    OfJobConcat(a, [s[i]] + b, id);
    OfJobConcat([s[i]], b, id);
    OfJobConcat(a, b, id);
    assert OfJob([s[i]], id) == if s[i].jobId == id then [s[i].attempt] else [];
  }

  lemma SoundStep(cfg: Config, t: Tracked, c: Call)
    requires SoundT(cfg, t) && CallAllowed(cfg, t, c)
    ensures SoundT(cfg, ExecCall(cfg, t, c))
    ensures Allowed(cfg, t.h, OpOf(t, c))
  {
    StepKeeps(cfg, t.h, OpOf(t, c));
  }

  predicate Projects(cfg: Config, t: Tracked, c: Call, id: Id)
    requires CallAllowed(cfg, t, c)
  {
    var n, j, mv, t' := cfg.maxAttempts, JobOf(t, id), MoveOf(cfg, t, c, id), ExecCall(cfg, t, c);
    && J.CanMove(n, j, mv) && JobOf(t', id) == J.MoveJob(n, j, mv)
    && |OfJob(Handed(cfg, t.h.m, OpOf(t, c)), id)| == (if mv.Deliver? then 1 else 0)
  }

  lemma AckStage(cfg: Config, t: Tracked, k: Id, id: Id)
    requires SoundT(cfg, t)
    ensures var j, j' := JobOf(t, id), JobOf(t.(h := Exec(cfg, t.h, DoAck(k))), id);
      j' == if k == id && j.stage == J.Inflight then j.(stage := J.Gone, attempt := 0) else j
  {
    AckKeeps(cfg, t.h.m, k);
    assert InvAt(cfg, t.h.m, id);
    Listed(cfg, t.h.m, id);
    if k != id { assert KeptAt(t.h.m, Ack(t.h.m, k).0, id); }
  }

  lemma AckProjects(cfg: Config, t: Tracked, i: nat, id: Id)
    requires SoundT(cfg, t) && i < |t.open|
    ensures Projects(cfg, t, AckBy(i), id)
  {
    AckStage(cfg, t, t.open[i].jobId, id);
    OfJobWithout(t.open, i, id);
  }

  /** What a retry by `e` does to the stage and the stored attempt of a job. */
  predicate RetriedBy(n: nat, e: Envelope, id: Id, j: J.Job, j': J.Job) {
    if e.jobId == id && j.stage == J.Inflight
    then j' == j.(stage := if e.attempt >= n then J.Dead else J.Scheduled, attempt := e.attempt)
    else j' == j
  }

  lemma RetryStage(cfg: Config, t: Tracked, e: Envelope, error: string, now: real, id: Id)
    requires SoundT(cfg, t) && e in t.h.issued
    ensures RetriedBy(cfg.maxAttempts, e, id, JobOf(t, id),
                      JobOf(t.(h := Exec(cfg, t.h, DoRetry(e, error, now))), id))
  {
    var (m', r) := Retry(cfg, t.h.m, e, error, now);
    assert Issuable(cfg, e, t.h.origin);
    RetryKeeps(cfg, t.h.m, e, error, now);
    assert InvAt(cfg, t.h.m, id);
    Listed(cfg, t.h.m, id);
    if e.jobId != id { assert KeptAt(t.h.m, m', id); }
  }

  lemma SpendProjects(n: nat, t: Tracked, h': History, i: nat, id: Id)
    requires i < |t.open| && RetriedBy(n, t.open[i], id, JobOf(t, id), JobOf(t.(h := h'), id))
    requires 1 <= t.open[i].attempt <= n
    ensures var mv := if t.open[i].jobId == id then J.RetryWith(|OfJob(t.open[..i], id)|) else J.Idle;
      J.CanMove(n, JobOf(t, id), mv)
      && JobOf(Tracked(h', J.Without(t.open, i)), id) == J.MoveJob(n, JobOf(t, id), mv)
  {
    OfJobWithout(t.open, i, id);
  }

  lemma RetryProjects(cfg: Config, t: Tracked, i: nat, error: string, now: real, id: Id)
    requires SoundT(cfg, t) && i < |t.open|
    ensures Projects(cfg, t, RetryBy(i, error, now), id)
  {
    var e, c := t.open[i], RetryBy(i, error, now);
    assert Issuable(cfg, e, t.h.origin);
    RetryStage(cfg, t, e, error, now, id);
    var h' := Exec(cfg, t.h, DoRetry(e, error, now));
    SpendProjects(cfg.maxAttempts, t, h', i, id);
    assert ExecCall(cfg, t, c) == Tracked(h', J.Without(t.open, i));
  }

  lemma TakeProjects(cfg: Config, t: Tracked, now: real, id: Id)
    requires SoundT(cfg, t)
    ensures Projects(cfg, t, Other(DoTake(now)), id)
  {
    if t.h.m.ready == [] {
      assert t.open + [] == t.open;
      assert InvAt(cfg, t.h.m, id);
      Listed(cfg, t.h.m, id);
    } else {
      HandOutProjects(cfg, t, now, id);
    }
  }

  /** What handing out the head of the queue does to the stage and the stored attempt of a job. */
  lemma TakeStage(cfg: Config, t: Tracked, now: real, id: Id) returns (e: Envelope)
    requires SoundT(cfg, t) && t.h.m.ready != []
    ensures Handed(cfg, t.h.m, DoTake(now)) == [e] && e.jobId == t.h.m.ready[0]
    ensures var j, j' := JobOf(t, id), JobOf(t.(h := Exec(cfg, t.h, DoTake(now))), id);
      if e.jobId == id
      then j.stage == J.Ready && j.attempt < cfg.maxAttempts && e.attempt == j.attempt + 1
           && j' == j.(stage := J.Inflight, attempt := j.attempt + 1)
      else j' == j
  {
    var m, k := t.h.m, t.h.m.ready[0];
    TakeKeeps(cfg, m, now);
    var (m', r) := Take(cfg, m, now);
    e := r.value;
    assert InvAt(cfg, m, id) && InvAt(cfg, m', k);
    Listed(cfg, m, id);
    if k != id { assert KeptAt(m, m', id); }
  }

  /** The delivery, with its holder added to those that have not acted yet. */
  lemma HolderAdded(n: nat, t: Tracked, h': History, e: Envelope, id: Id)
    requires var j, j' := JobOf(t, id), JobOf(t.(h := h'), id);
      if e.jobId == id
      then j.stage == J.Ready && j.attempt < n && e.attempt == j.attempt + 1
           && j' == j.(stage := J.Inflight, attempt := j.attempt + 1)
      else j' == j
    ensures var j, mv := JobOf(t, id), if e.jobId == id then J.Deliver else J.Idle;
      J.CanMove(n, j, mv) && JobOf(Tracked(h', t.open + [e]), id) == J.MoveJob(n, j, mv)
  {
    OfJobConcat(t.open, [e], id);
    assert OfJob([e], id) == if e.jobId == id then [e.attempt] else [];
  }

  lemma HandOutProjects(cfg: Config, t: Tracked, now: real, id: Id)
    requires SoundT(cfg, t) && t.h.m.ready != []
    ensures Projects(cfg, t, Other(DoTake(now)), id)
  {
    var e := TakeStage(cfg, t, now, id);
    var h' := Exec(cfg, t.h, DoTake(now));
    HolderAdded(cfg.maxAttempts, t, h', e, id);
    assert ExecCall(cfg, t, Other(DoTake(now))) == Tracked(h', t.open + [e]);
    assert OfJob([e], id) == if e.jobId == id then [e.attempt] else [];
  }

  lemma RecoverProjects(cfg: Config, t: Tracked, now: real, id: Id)
    requires SoundT(cfg, t)
    ensures Projects(cfg, t, Other(DoRecover(now)), id)
  {
    var m := t.h.m;
    assert InvAt(cfg, m, id);
    Listed(cfg, m, id);
    RecoverStaleKeeps(cfg, m, now);
    if !(id in m.inflight.at && m.inflight.at[id] <= now) { assert KeptAt(m, RecoverStale(cfg, m, now), id); }
  }

  lemma PromoteStage(cfg: Config, t: Tracked, now: real, id: Id)
    requires SoundT(cfg, t)
    ensures var j, j' := JobOf(t, id), JobOf(t.(h := Exec(cfg, t.h, DoPromote(now))), id);
      if id in t.h.m.scheduled.at && t.h.m.scheduled.at[id] <= now
      then j.stage == J.Scheduled && j' == j.(stage := J.Ready)
      else j' == j
  {
    var m := t.h.m;
    assert InvAt(cfg, m, id);
    Listed(cfg, m, id);
    PromoteDueKeeps(cfg, m, now);
    if !(id in m.scheduled.at && m.scheduled.at[id] <= now) { assert KeptAt(m, PromoteDue(m, now), id); }
  }

  lemma PromoteProjects(cfg: Config, t: Tracked, now: real, id: Id)
    requires SoundT(cfg, t)
    ensures Projects(cfg, t, Other(DoPromote(now)), id)
  {
    PromoteStage(cfg, t, now, id);
  }

  lemma EnqueueProjects(cfg: Config, t: Tracked, k: Id, p: Payload, now: real, id: Id)
    requires SoundT(cfg, t) && CallAllowed(cfg, t, Other(DoEnqueue(k, p, now)))
    ensures Projects(cfg, t, Other(DoEnqueue(k, p, now)), id)
  {
    var m := t.h.m;
    assert InvAt(cfg, m, id);
    Listed(cfg, m, id);
    if Accepts(cfg, m, DoEnqueue(k, p, now)) {
      EnqueueKeeps(cfg, m, k, p, now);
      if k != id { assert KeptAt(m, Enqueue(cfg, m, k, p, now).0, id); }
    }
  }

  lemma RemoveProjects(cfg: Config, t: Tracked, k: Id, id: Id)
    requires SoundT(cfg, t)
    ensures Projects(cfg, t, Other(DoRemoveDead(k)), id)
  {
    var m := t.h.m;
    assert InvAt(cfg, m, id);
    Listed(cfg, m, id);
    RemoveDeadKeeps(cfg, m, k);
    if k != id { assert KeptAt(m, RemoveDead(m, k).0, id); }
  }

  lemma RenewProjects(cfg: Config, t: Tracked, k: Id, until: real, id: Id)
    requires SoundT(cfg, t)
    ensures Projects(cfg, t, Other(DoRenew(k, until)), id)
  {
    RenewKeeps(cfg, t.h.m, k, until);
    assert KeptAt(t.h.m, Renew(t.h.m, k, until).0, id);
  }

  /** The queue never hands out, or moves, a job other than as the job machine does. */
  lemma StepProjects(cfg: Config, t: Tracked, c: Call, id: Id)
    requires SoundT(cfg, t) && CallAllowed(cfg, t, c)
    ensures Projects(cfg, t, c, id)
  {
    match c
    case AckBy(i) => AckProjects(cfg, t, i, id);
    case RetryBy(i, error, now) => RetryProjects(cfg, t, i, error, now, id);
    case Other(op) =>
      match op
      case DoEnqueue(k, p, now) => EnqueueProjects(cfg, t, k, p, now, id);
      case DoRecover(now) => RecoverProjects(cfg, t, now, id);
      case DoPromote(now) => PromoteProjects(cfg, t, now, id);
      case DoTake(now) => TakeProjects(cfg, t, now, id);
      case DoRenew(k, until) => RenewProjects(cfg, t, k, until, id);
      case DoRemoveDead(k) => RemoveProjects(cfg, t, k, id);
      case _ =>
  }

  lemma {:induction false} DeliveriesWithinPotential(cfg: Config, t: Tracked, calls: seq<Call>, id: Id)
    requires SoundT(cfg, t) && CallsAllowed(cfg, t, calls)
    ensures Deliveries(cfg, t, calls, id) <= J.Potential(cfg.maxAttempts, JobOf(t, id))
    decreases |calls|
  {
    if calls != [] {
      StepProjects(cfg, t, calls[0], id);
      J.MoveCosts(cfg.maxAttempts, JobOf(t, id), MoveOf(cfg, t, calls[0], id));
      SoundStep(cfg, t, calls[0]);
      DeliveriesWithinPotential(cfg, ExecCall(cfg, t, calls[0]), calls[1..], id);
    }
  }

  /** In every run, with any number of late holders, a job with cap N is delivered at most 2^N - 1 times. */
  lemma DeliveryBound(cfg: Config, calls: seq<Call>, id: Id)
    requires CallsAllowed(cfg, Tracked(START, []), calls)
    ensures Deliveries(cfg, Tracked(START, []), calls, id) <= Pow2(cfg.maxAttempts) - 1
  {
    EmptyInv(cfg);
    DeliveriesWithinPotential(cfg, Tracked(START, []), calls, id);
  }

  /** Every step leaves a job exactly as it was or strictly decreases its measure; renewals are of the
      first kind. So each job comes to rest. */
  lemma StepsDecrease(cfg: Config, t: Tracked, c: Call, id: Id)
    requires SoundT(cfg, t) && CallAllowed(cfg, t, c)
    ensures var n, j, j' := cfg.maxAttempts, JobOf(t, id), JobOf(ExecCall(cfg, t, c), id);
      j' == j || J.Measure(n, j') < J.Measure(n, j)
    ensures !c.Other? && t.open[c.i].jobId == id ==>
              J.Measure(cfg.maxAttempts, JobOf(ExecCall(cfg, t, c), id)) < J.Measure(cfg.maxAttempts, JobOf(t, id))
    ensures c.Other? && c.op.DoRenew? ==> JobOf(ExecCall(cfg, t, c), id) == JobOf(t, id)
  {
    StepProjects(cfg, t, c, id);
    var mv := MoveOf(cfg, t, c, id);
    if !mv.Idle? {
      J.MoveDecreases(cfg.maxAttempts, JobOf(t, id), mv);
    }
  }

  /** A retry that finds its job in flight carries an attempt that is not below the stored one. */
  predicate NotBehind(t: Tracked, c: Call) {
    c.RetryBy? && c.i < |t.open| ==>
      var e := t.open[c.i];
      e.jobId in t.h.m.inflight.at && e.jobId in t.h.m.envelopes ==> t.h.m.envelopes[e.jobId].attempt <= e.attempt
  }

  predicate NoneBehind(cfg: Config, t: Tracked, calls: seq<Call>)
    requires CallsAllowed(cfg, t, calls)
    decreases |calls|
  {
    calls == [] || (NotBehind(t, calls[0]) && NoneBehind(cfg, ExecCall(cfg, t, calls[0]), calls[1..]))
  }

  lemma NotBehindProjects(cfg: Config, t: Tracked, i: nat, error: string, now: real)
    requires SoundT(cfg, t) && i < |t.open|
    ensures var c, id := RetryBy(i, error, now), t.open[i].jobId;
      NotBehind(t, c) <==> J.NotBehind(JobOf(t, id), MoveOf(cfg, t, c, id))
  {
    var id := t.open[i].jobId;
    assert Issuable(cfg, t.open[i], t.h.origin);
    assert InvAt(cfg, t.h.m, id);
    Listed(cfg, t.h.m, id);
    OfJobWithout(t.open, i, id);
  }

  /** How many more deliveries a job can have without another retry from behind. */
  function Remaining(cfg: Config, t: Tracked, id: Id): int {
    J.Remaining(cfg.maxAttempts, JobOf(t, id))
  }

  /** A retry leaves its job with no more deliveries to come than before if and only if its attempt is not
      below the stored one. */
  lemma RetryCostsExactly(cfg: Config, t: Tracked, i: nat, error: string, now: real)
    requires SoundT(cfg, t) && i < |t.open|
    ensures var c, id := RetryBy(i, error, now), t.open[i].jobId;
      Remaining(cfg, ExecCall(cfg, t, c), id) <= Remaining(cfg, t, id) <==> NotBehind(t, c)
  {
    var c, id := RetryBy(i, error, now), t.open[i].jobId;
    assert InvAt(cfg, t.h.m, id);
    StepProjects(cfg, t, c, id);
    NotBehindProjects(cfg, t, i, error, now);
    J.RetryCostsExactly(cfg.maxAttempts, JobOf(t, id), |OfJob(t.open[..i], id)|);
  }

  lemma FencedMove(cfg: Config, t: Tracked, c: Call, id: Id)
    requires SoundT(cfg, t) && CallAllowed(cfg, t, c) && NotBehind(t, c)
    ensures J.NotBehind(JobOf(t, id), MoveOf(cfg, t, c, id))
  {
    if c.RetryBy? && t.open[c.i].jobId == id { NotBehindProjects(cfg, t, c.i, c.error, c.now); }
  }

  lemma AttemptWithinCap(cfg: Config, t: Tracked, id: Id)
    requires SoundT(cfg, t)
    ensures JobOf(t, id).attempt <= cfg.maxAttempts && Remaining(cfg, t, id) >= 0
  {
    assert InvAt(cfg, t.h.m, id);
  }

  lemma FencedStep(cfg: Config, t: Tracked, c: Call, id: Id)
    requires SoundT(cfg, t) && CallAllowed(cfg, t, c) && NotBehind(t, c)
    ensures Remaining(cfg, ExecCall(cfg, t, c), id) + |OfJob(Handed(cfg, t.h.m, OpOf(t, c)), id)| <= Remaining(cfg, t, id)
  {
    AttemptWithinCap(cfg, t, id);
    FencedMove(cfg, t, c, id);
    StepProjects(cfg, t, c, id);
    J.FencedMoveCosts(cfg.maxAttempts, JobOf(t, id), MoveOf(cfg, t, c, id));
  }

  lemma {:induction false} FencedWithinRemaining(cfg: Config, t: Tracked, calls: seq<Call>, id: Id)
    requires SoundT(cfg, t) && CallsAllowed(cfg, t, calls) && NoneBehind(cfg, t, calls)
    ensures Deliveries(cfg, t, calls, id) <= Remaining(cfg, t, id)
    decreases |calls|
  {
    if calls == [] {
      AttemptWithinCap(cfg, t, id);
    } else {
      FencedStep(cfg, t, calls[0], id);
      SoundStep(cfg, t, calls[0]);
      FencedWithinRemaining(cfg, ExecCall(cfg, t, calls[0]), calls[1..], id);
    }
  }

  /** If no retry comes from behind, the cap itself bounds the deliveries. */
  lemma FencedDeliveryBound(cfg: Config, calls: seq<Call>, id: Id)
    requires CallsAllowed(cfg, Tracked(START, []), calls) && NoneBehind(cfg, Tracked(START, []), calls)
    ensures Deliveries(cfg, Tracked(START, []), calls, id) <= cfg.maxAttempts
  {
    EmptyInv(cfg);
    FencedWithinRemaining(cfg, Tracked(START, []), calls, id);
  }
}
