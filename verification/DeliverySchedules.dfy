/** Every schedule of the job machine is a run of the queue, so the bound on the deliveries is met. */
module DeliverySchedules {
  import opened Basics
  import opened Envelopes
  import opened Dicts
  import opened QueueSpec
  import opened QueueInvariant
  import opened QueueRuns
  import opened DeliveryBound
  import opened RetryTiming
  import J = JobMachine

  /** No other job was ever accepted. */
  predicate Alone(t: Tracked, id: Id) {
    t.h.origin.Keys <= {id} && forall e <- t.open :: e.jobId == id
  }

  lemma {:induction false} OfOneJob(s: seq<Envelope>, id: Id)
    requires forall e <- s :: e.jobId == id
    ensures |OfJob(s, id)| == |s|
  {
    if s != [] {
      OfOneJob(s[1..], id);
    }
  }

  function Later(a: real, b: real): (c: real)
    ensures c >= a && c >= b
  {
    if a >= b then a else b
  }

  /** The call by which the queue makes a move of the machine, at `clock` or as soon after it as the move is
      due. */
  function CallFor(cfg: Config, t: Tracked, id: Id, p: Payload, mv: J.Move, clock: real): Call {
    match mv
    case Accept => Other(DoEnqueue(id, p, Later(clock, KnownUntil(t.h.m, id))))
    case Deliver => Other(DoTake(clock))
    case Expire => Other(DoRecover(if id in t.h.m.inflight.at then Later(clock, t.h.m.inflight.at[id]) else clock))
    case Promote => Other(DoPromote(if id in t.h.m.scheduled.at then Later(clock, t.h.m.scheduled.at[id]) else clock))
    case AckWith(i) => AckBy(i)
    case RetryWith(i) => RetryBy(i, "", clock)
    case Clear => Other(DoRemoveDead(id))
    case Idle => Other(DoRenew(id, clock + cfg.lease))
  }

  /** The clock never goes back. */
  predicate InTime(cfg: Config, t: Tracked, calls: seq<Call>, clock: real)
    requires CallsAllowed(cfg, t, calls)
    decreases |calls|
  {
    calls == [] ||
    (var now := Reading(OpOf(t, calls[0]), clock);
     now >= clock && InTime(cfg, ExecCall(cfg, t, calls[0]), calls[1..], now))
  }

  lemma TakesIt(cfg: Config, t: Tracked, id: Id)
    requires SoundT(cfg, t) && Alone(t, id) && PlaceOf(t.h.m, id) == Ready
    ensures t.h.m.ready[0] == id
  {
    var k := t.h.m.ready[0];
    assert InvAt(cfg, t.h.m, k);
    Listed(cfg, t.h.m, k);
    assert k in t.h.origin.Keys;
  }

  lemma CallMoves(cfg: Config, t: Tracked, id: Id, p: Payload, mv: J.Move, clock: real)
    requires SoundT(cfg, t) && Alone(t, id) && !Refused(id, p) && J.CanMove(cfg.maxAttempts, JobOf(t, id), mv)
    ensures var c := CallFor(cfg, t, id, p, mv, clock);
      CallAllowed(cfg, t, c) && MoveOf(cfg, t, c, id) == mv && Reading(OpOf(t, c), clock) >= clock
  {
    OfOneJob(t.open, id);
    match mv
    case Deliver => TakesIt(cfg, t, id);
    case AckWith(i) => OfOneJob(t.open[..i], id);
    case RetryWith(i) => OfOneJob(t.open[..i], id);
    case _ =>
  }

  lemma StaysAlone(cfg: Config, t: Tracked, id: Id, p: Payload, mv: J.Move, clock: real)
    requires SoundT(cfg, t) && Alone(t, id) && CallAllowed(cfg, t, CallFor(cfg, t, id, p, mv, clock))
    ensures Alone(ExecCall(cfg, t, CallFor(cfg, t, id, p, mv, clock)), id)
  {
    var c := CallFor(cfg, t, id, p, mv, clock);
    var op, t' := OpOf(t, c), ExecCall(cfg, t, c);
    HandedIssuable(cfg, t.h, op);
    forall e <- t'.open ensures e.jobId == id {
      if e in Handed(cfg, t.h.m, op) {
        assert Issuable(cfg, e, t.h.origin) && e.jobId in t.h.origin.Keys;
      } else {
        assert e in t.open;
      }
    }
  }

  /** Any schedule of the machine, made by the queue call by call on a clock that does not go back. */
  lemma {:induction false} Realise(cfg: Config, t: Tracked, id: Id, p: Payload, moves: seq<J.Move>, clock: real)
    returns (calls: seq<Call>)
    requires SoundT(cfg, t) && Alone(t, id) && !Refused(id, p)
    requires J.CanMoveAll(cfg.maxAttempts, JobOf(t, id), moves)
    ensures CallsAllowed(cfg, t, calls) && Deliveries(cfg, t, calls, id) == J.DeliveredBy(moves)
    ensures InTime(cfg, t, calls, clock)
    decreases |moves|
  {
    if moves == [] {
      calls := [];
    } else {
      var c := CallFor(cfg, t, id, p, moves[0], clock);
      CallMoves(cfg, t, id, p, moves[0], clock);
      StepProjects(cfg, t, c, id);
      SoundStep(cfg, t, c);
      StaysAlone(cfg, t, id, p, moves[0], clock);
      var rest := Realise(cfg, ExecCall(cfg, t, c), id, p, moves[1..], Reading(OpOf(t, c), clock));
      calls := [c] + rest;
      assert calls[1..] == rest;
    }
  }

  /** The bound is met: for every cap, any job that the queue accepts can be delivered 2^N - 1 times, by late
      holders who each act once, from any clock reading on. */
  lemma BoundIsMet(cfg: Config, id: Id, p: Payload, clock: real) returns (calls: seq<Call>)
    requires !Refused(id, p)
    ensures CallsAllowed(cfg, Tracked(START, []), calls) && InTime(cfg, Tracked(START, []), calls, clock)
    ensures Deliveries(cfg, Tracked(START, []), calls, id) == Pow2(cfg.maxAttempts) - 1
  {
    EmptyInv(cfg);
    var moves := J.BoundIsMet(cfg.maxAttempts);
    calls := Realise(cfg, Tracked(START, []), id, p, moves, clock);
  }
}
