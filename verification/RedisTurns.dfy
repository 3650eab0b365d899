/** Whole operations of the Redis backend, one after another: every run of operations that are not interleaved
    with each other is a run of the memory queue. */
module RedisTurns {
  import opened Basics
  import opened Envelopes
  import opened QueueInvariant
  import opened RedisCommands
  import opened RedisWorld
  import opened RedisSimulation
  import opened RedisUninterrupted
  import Dicts
  import Q = QueueSpec

  lemma EmptySim(cfg: Config)
    ensures Sim(cfg, EMPTY_REDIS, Q.EMPTY_QUEUE)
  {
    EmptyInv(cfg);
  }

  /** The clock readings of a claim. */
  datatype Clocks = Clocks(recoverAt: real, promoteAt: real, leaseAt: real)

  /** A whole operation. The orders are those in which Redis returns expired and due ids; `drops` says which
      of the dead letters it has read a process removes. */
  datatype Turn =
    | Submit(id: Id, p: Payload, now: real)
    | Claim(w: nat, at: Clocks, expired: seq<Id>, due: seq<Id>)
    | Finish(w: nat)
    | Fail(w: nat, error: string, now: real)
    | Beat(w: nat, now: real)
    | Drain(w: nat, drops: seq<bool>)

  function ReadLetters(w: nat, n: nat): seq<Action> {
    if n == 0 then [ReadLetter(w)] else [ReadLetter(w)] + ReadLetters(w, n - 1)
  }

  function DropAction(w: nat, drop: bool): Action {
    if drop then RemoveLetter(w) else SkipLetter(w)
  }

  function Drops(w: nat, drops: seq<bool>): seq<Action> {
    if drops == [] then [SkipLetter(w)] else [DropAction(w, drops[0])] + Drops(w, drops[1..])
  }

  function WholeClaim(w: nat, at: Clocks, inflight: nat, expired: seq<Id>, due: seq<Id>): seq<Action> {
    RecoverActions(w, at.recoverAt, inflight, expired)
    + (([ReadDue(w, at.promoteAt, due)] + Promotions(w, |due|)) + ClaimActions(w, at.leaseAt))
  }

  function WholeDrain(w: nat, letters: nat, drops: seq<bool>): seq<Action> {
    [ReadDead(w)] + (ReadLetters(w, letters) + Drops(w, drops))
  }

  function TurnActions(r: Redis, t: Turn): seq<Action> {
    match t
    case Submit(id, p, now) => [Enqueue(id, p, now)]
    case Claim(w, at, expired, due) => WholeClaim(w, at, |r.inflight|, expired, due)
    case Finish(w) => [Ack(w)]
    case Fail(w, error, now) => [Retry(w, error, now)]
    case Beat(w, now) => [Renew(w, now)]
    case Drain(w, drops) => WholeDrain(w, |r.dead|, drops)
  }

  /** The memory queue and the envelopes that its claimants hold. */
  datatype Served = Served(m: Q.Mem, held: map<nat, Envelope>)

  function Dropped(m: Q.Mem, letter: Envelope, drop: bool): Q.Mem {
    if drop then Q.RemoveDead(m, letter.jobId).0 else m
  }

  function RemoveSome(m: Q.Mem, letters: seq<Envelope>, drops: seq<bool>): Q.Mem
    requires |letters| == |drops|
    decreases |letters|
  {
    if letters == [] then m else RemoveSome(Dropped(m, letters[0], drops[0]), letters[1..], drops[1..])
  }

  /** What the memory queue does for the same operation. Redis lists the newest dead letter first. */
  function Serve(cfg: Config, s: Served, t: Turn): Served
    requires t.Finish? || t.Fail? || t.Beat? ==> t.w in s.held
    requires t.Drain? ==> |Q.LettersOf(s.m.envelopes, Reverse(s.m.dead))| == |t.drops|
  {
    match t
    case Submit(id, p, now) => s.(m := Q.Enqueue(cfg, s.m, id, p, now).0)
    case Claim(w, at, expired, due) =>
      var (m', e) := Q.Take(cfg, Q.PromoteAll(Q.RecoverAll(cfg, s.m, expired), due), at.leaseAt);
      Served(m', if e.Some? then s.held[w := e.value] else s.held)
    case Finish(w) => Served(Q.Ack(s.m, s.held[w].jobId).0, s.held - {w})
    case Fail(w, error, now) => Served(Q.Retry(cfg, s.m, s.held[w], error, now).0, s.held - {w})
    case Beat(w, now) => s.(m := Q.Renew(s.m, s.held[w].jobId, now + cfg.lease).0)
    case Drain(w, drops) => s.(m := RemoveSome(s.m, Q.LettersOf(s.m.envelopes, Reverse(s.m.dead)), drops))
  }

  /** A process is idle in both backends, or holds the same job in both. */
  predicate PairedAt(cfg: Config, pc: Pc, held: map<nat, Envelope>, w: nat) {
    if w in held then pc.Holding? && SameButRetryAt(pc.e, held[w]) && 1 <= pc.e.attempt <= cfg.maxAttempts
    else pc.Idle?
  }

  ghost predicate Paired(cfg: Config, l: Log, s: Served) {
    Sim(cfg, l.s.r, s.m) && forall w :: PairedAt(cfg, PcOf(l.s, w), s.held, w)
  }

  predicate CanTurn(cfg: Config, r: Redis, s: Served, t: Turn) {
    match t
    case Submit(id, p, now) =>
      now >= 0.0 && (Q.Enqueue(cfg, s.m, id, p, now).1.Accepted? ==> id !in s.m.envelopes)
    case Claim(w, at, expired, due) =>
      && w !in s.held
      && NoDup(expired) && ToSet(expired) == UpTo(r.leases, at.recoverAt)
      && NoDup(due) && ToSet(due) == UpTo(r.scheduled, at.promoteAt)
    case Drain(w, drops) => w !in s.held && |drops| == |r.dead|
    case _ => t.w in s.held
  }

  /** The action is one of process `w`. */
  predicate By(a: Action, w: nat) {
    !a.Enqueue? && a.w == w
  }

  lemma OtherPc(cfg: Config, l: Log, a: Action, w: nat, v: nat)
    requires By(a, w) && v != w
    ensures PcOf(Exec(cfg, l, a).s, v) == PcOf(l.s, v)
  {
  }

  lemma {:induction false} OtherPcs(cfg: Config, l: Log, actions: seq<Action>, w: nat, v: nat)
    requires (forall a <- actions :: By(a, w)) && v != w
    ensures PcOf(ExecAll(cfg, l, actions).s, v) == PcOf(l.s, v)
    decreases |actions|
  {
    if actions != [] {
      OtherPc(cfg, l, actions[0], w, v);
      OtherPcs(cfg, Exec(cfg, l, actions[0]), actions[1..], w, v);
    }
  }

  lemma {:induction false} ScoresBy(w: nat, n: nat)
    ensures forall a <- Scores(w, n) :: By(a, w)
  {
    if n > 0 { ScoresBy(w, n - 1); }
  }

  lemma {:induction false} RecoveriesBy(w: nat, order: seq<Id>)
    ensures forall a <- Recoveries(w, order) :: By(a, w)
  {
    if order != [] { RecoveriesBy(w, order[1..]); }
  }

  lemma {:induction false} PromotionsBy(w: nat, n: nat)
    ensures forall a <- Promotions(w, n) :: By(a, w)
  {
    if n > 0 { PromotionsBy(w, n - 1); }
  }

  lemma ClaimBy(w: nat, at: Clocks, inflight: nat, expired: seq<Id>, due: seq<Id>)
    ensures forall a <- WholeClaim(w, at, inflight, expired, due) :: By(a, w)
  {
    ScoresBy(w, inflight);
    RecoveriesBy(w, expired);
    PromotionsBy(w, |due|);
  }

  lemma {:induction false} DropsBy(w: nat, drops: seq<bool>)
    ensures forall a <- Drops(w, drops) :: By(a, w)
  {
    if drops != [] { DropsBy(w, drops[1..]); }
  }

  lemma {:induction false} LettersBy(w: nat, n: nat)
    ensures forall a <- ReadLetters(w, n) :: By(a, w)
  {
    if n > 0 { LettersBy(w, n - 1); }
  }

  /** A claim that finds nothing ready changes nothing. */
  lemma ClaimsNothing(cfg: Config, l: Log, w: nat, now: real)
    requires PcOf(l.s, w).Idle? && l.s.r.ready == []
    ensures ExecAll(cfg, l, ClaimActions(w, now)) == l
  {
    assert Exec(cfg, l, Pop(w)) == l && Exec(cfg, l, ReadMoved(w)) == l;
    assert Exec(cfg, l, StoreClaim(w)) == l && Exec(cfg, l, AddLease(w, now)) == l;
    Four(cfg, l, Pop(w), ReadMoved(w), StoreClaim(w), AddLease(w, now));
  }

  /** The claim's last four commands, whether or not a job is ready. */
  lemma TakeAlone(cfg: Config, l: Log, m: Q.Mem, w: nat, now: real)
    requires Sim(cfg, l.s.r, m) && PcOf(l.s, w).Idle?
    ensures var l' := ExecAll(cfg, l, ClaimActions(w, now)); var (m', f) := Q.Take(cfg, m, now);
      && Sim(cfg, l'.s.r, m')
      && PairedAt(cfg, PcOf(l'.s, w), if f.Some? then map[w := f.value] else map[], w)
  {
    if l.s.r.ready == [] {
      ClaimsNothing(cfg, l, w, now);
      assert m.ready == [];
    } else {
      ClaimAlone(cfg, l, m, w, now);
      ReversePop(l.s.r.ready);
      TakeKeeps(cfg, m, now);
      assert InvAt(cfg, Q.Take(cfg, m, now).0, m.ready[0]);
    }
  }

  /** `claim` undisturbed: recovery, promotion and the four commands. */
  lemma WholeClaimAlone(cfg: Config, l: Log, m: Q.Mem, w: nat, at: Clocks, expired: seq<Id>, due: seq<Id>)
    requires Sim(cfg, l.s.r, m) && PcOf(l.s, w).Idle?
    requires NoDup(expired) && ToSet(expired) == UpTo(l.s.r.leases, at.recoverAt)
    requires NoDup(due) && ToSet(due) == UpTo(l.s.r.scheduled, at.promoteAt)
    ensures var l' := ExecAll(cfg, l, WholeClaim(w, at, |l.s.r.inflight|, expired, due));
      var (m', f) := Q.Take(cfg, Q.PromoteAll(Q.RecoverAll(cfg, m, expired), due), at.leaseAt);
      && Sim(cfg, l'.s.r, m')
      && PairedAt(cfg, PcOf(l'.s, w), if f.Some? then map[w := f.value] else map[], w)
  {
    var first := RecoverActions(w, at.recoverAt, |l.s.r.inflight|, expired);
    var second := [ReadDue(w, at.promoteAt, due)] + Promotions(w, |due|);
    RecoverAlone(cfg, l, m, w, at.recoverAt, expired);
    var l1, m1 := ExecAll(cfg, l, first), Q.RecoverAll(cfg, m, expired);
    assert forall id <- expired :: id in ToSet(expired);
    RecoverAllKeeps(cfg, m, expired);
    assert l1.s.r.scheduled == l.s.r.scheduled;
    PromoteAlone(cfg, l1, m1, w, at.promoteAt, due);
    var l2, m2 := ExecAll(cfg, l1, second), Q.PromoteAll(m1, due);
    TakeAlone(cfg, l2, m2, w, at.leaseAt);
    Then(cfg, l, first, second + ClaimActions(w, at.leaseAt));
    Then(cfg, l1, second, ClaimActions(w, at.leaseAt));
  }

  /** With the memory queue's own orders this is its `claim`, as far as it finds a job without waiting. */
  lemma WholeClaimIsClaim(cfg: Config, l: Log, m: Q.Mem, w: nat, at: Clocks)
    requires Sim(cfg, l.s.r, m) && PcOf(l.s, w).Idle?
    ensures var expired, due := Dicts.Due(m.inflight, at.recoverAt), Dicts.Due(m.scheduled, at.promoteAt);
      var l' := ExecAll(cfg, l, WholeClaim(w, at, |l.s.r.inflight|, expired, due));
      var (m', f) := Q.Claim(cfg, m, Q.Readings(at.recoverAt, at.promoteAt, [], at.leaseAt));
      && Sim(cfg, l'.s.r, m')
      && PairedAt(cfg, PcOf(l'.s, w), if f.Some? then map[w := f.value] else map[], w)
  {
    MemoryOrder(cfg, l.s.r, m, at.recoverAt);
    MemoryOrder(cfg, l.s.r, m, at.promoteAt);
    RecoverStaleKeeps(cfg, m, at.recoverAt);
    var expired, due := Dicts.Due(m.inflight, at.recoverAt), Dicts.Due(m.scheduled, at.promoteAt);
    WholeClaimAlone(cfg, l, m, w, at, expired, due);
  }

  lemma {:induction false} LettersOfMore(envelopes: map<Id, Envelope>, ids: seq<Id>)
    requires forall id <- ids :: id in envelopes
    ensures |Q.LettersOf(envelopes, ids)| == |ids|
    ensures forall i :: 0 <= i < |ids| ==> Q.LettersOf(envelopes, ids)[i] == envelopes[ids[i]]
  {
    if ids != [] {
      LettersOfMore(envelopes, ids[1..]);
    }
  }

  lemma ReadOne(cfg: Config, l: Log, w: nat, todo: seq<Id>, got: seq<Envelope>)
    requires PcOf(l.s, w) == Listing(todo, got) && todo != []
    ensures var l1 := Exec(cfg, l, ReadLetter(w)); var id := todo[0];
      && l1.s.r == l.s.r
      && PcOf(l1.s, w) ==
           Listing(todo[1..], got + if id in l.s.r.envelopes then [l.s.r.envelopes[id]] else [])
  {
  }

  lemma {:induction false} ReadLettersAlone(cfg: Config, l: Log, w: nat, todo: seq<Id>, got: seq<Envelope>)
    requires PcOf(l.s, w) == Listing(todo, got)
    ensures var l' := ExecAll(cfg, l, ReadLetters(w, |todo|));
      l'.s.r == l.s.r && PcOf(l'.s, w) == Draining(got + Q.LettersOf(l.s.r.envelopes, todo))
    decreases |todo|
  {
    if todo == [] {
      One(cfg, l, ReadLetter(w));
      assert got + [] == got;
    } else {
      var first := if todo[0] in l.s.r.envelopes then [l.s.r.envelopes[todo[0]]] else [];
      var rest := Q.LettersOf(l.s.r.envelopes, todo[1..]);
      ReadOne(cfg, l, w, todo, got);
      OneThen(cfg, l, ReadLetter(w), ReadLetters(w, |todo| - 1));
      ReadLettersAlone(cfg, Exec(cfg, l, ReadLetter(w)), w, todo[1..], got + first);
      Regroup(got, first, rest);
    }
  }

  predicate SameLetters(a: seq<Envelope>, b: seq<Envelope>) {
    |a| == |b| && forall i :: 0 <= i < |a| ==> SameButRetryAt(a[i], b[i])
  }

  /** `dead_letters`: the memory queue's letters, newest first. */
  lemma LettersAgree(cfg: Config, r: Redis, m: Q.Mem)
    requires Sim(cfg, r, m)
    ensures SameLetters(Q.LettersOf(r.envelopes, r.dead), Q.LettersOf(m.envelopes, Reverse(m.dead)))
    ensures |Q.LettersOf(r.envelopes, r.dead)| == |r.dead|
  {
    ReverseTwice(r.dead);
    forall id <- r.dead ensures id in m.envelopes {
      ReverseMember(r.dead, id);
      assert InvAt(cfg, m, id);
      Listed(cfg, m, id);
    }
    LettersOfMore(r.envelopes, r.dead);
    LettersOfMore(m.envelopes, r.dead);
  }

  lemma {:induction false} ReverseAppend<T>(s: seq<T>, x: T)
    ensures Reverse(s + [x]) == [x] + Reverse(s)
  {
    if s != [] {
      ReverseAppend(s[1..], x);
      assert (s + [x])[1..] == s[1..] + [x];
    }
  }

  lemma {:induction false} ReverseTwice<T>(s: seq<T>)
    ensures Reverse(Reverse(s)) == s
  {
    if s != [] {
      ReverseTwice(s[1..]);
      ReverseAppend(Reverse(s[1..]), s[0]);
    }
  }

  /** One letter is removed, or left. */
  lemma DropOne(cfg: Config, l: Log, m: Q.Mem, w: nat, got: seq<Envelope>, f: Envelope, drop: bool)
    requires Sim(cfg, l.s.r, m) && PcOf(l.s, w) == Draining(got) && got != [] && SameButRetryAt(got[0], f)
    ensures var l1 := Exec(cfg, l, DropAction(w, drop));
      Sim(cfg, l1.s.r, Dropped(m, f, drop)) && PcOf(l1.s, w) == Draining(got[1..])
  {
    RemoveDeadSim(cfg, l.s.r, m, got[0].jobId);
  }

  /** The letters read are removed one by one, or left. */
  lemma {:induction false} DropsAlone(cfg: Config, l: Log, m: Q.Mem, w: nat, got: seq<Envelope>,
                                      letters: seq<Envelope>, drops: seq<bool>)
    requires Sim(cfg, l.s.r, m) && PcOf(l.s, w) == Draining(got)
    requires SameLetters(got, letters) && |drops| == |got|
    ensures var l' := ExecAll(cfg, l, Drops(w, drops));
      Sim(cfg, l'.s.r, RemoveSome(m, letters, drops)) && PcOf(l'.s, w).Idle?
    decreases |drops|
  {
    if drops == [] {
      One(cfg, l, SkipLetter(w));
    } else {
      DropOne(cfg, l, m, w, got, letters[0], drops[0]);
      OneThen(cfg, l, DropAction(w, drops[0]), Drops(w, drops[1..]));
      DropsAlone(cfg, Exec(cfg, l, DropAction(w, drops[0])), Dropped(m, letters[0], drops[0]), w,
                 got[1..], letters[1..], drops[1..]);
    }
  }

  /** Reading the dead letters and removing some of them, undisturbed. */
  lemma DrainAlone(cfg: Config, l: Log, m: Q.Mem, w: nat, drops: seq<bool>)
    requires Sim(cfg, l.s.r, m) && PcOf(l.s, w).Idle? && |drops| == |l.s.r.dead|
    ensures |Q.LettersOf(m.envelopes, Reverse(m.dead))| == |drops|
    ensures var l' := ExecAll(cfg, l, WholeDrain(w, |l.s.r.dead|, drops));
      && Sim(cfg, l'.s.r, RemoveSome(m, Q.LettersOf(m.envelopes, Reverse(m.dead)), drops))
      && PcOf(l'.s, w).Idle?
  {
    var n, l1 := |l.s.r.dead|, Exec(cfg, l, ReadDead(w));
    One(cfg, l, ReadDead(w));
    LettersAgree(cfg, l.s.r, m);
    ReadLettersAlone(cfg, l1, w, l.s.r.dead, []);
    var l2, got := ExecAll(cfg, l1, ReadLetters(w, n)), Q.LettersOf(l.s.r.envelopes, l.s.r.dead);
    assert [] + got == got;
    DropsAlone(cfg, l2, m, w, got, Q.LettersOf(m.envelopes, Reverse(m.dead)), drops);
    Then(cfg, l, [ReadDead(w)], ReadLetters(w, n) + Drops(w, drops));
    Then(cfg, l1, ReadLetters(w, n), Drops(w, drops));
  }

  /** Processes that take no part in the operation are where they were. */
  lemma OthersPaired(cfg: Config, l: Log, s: Served, s': Served, actions: seq<Action>, w: nat)
    requires Paired(cfg, l, s) && (forall a <- actions :: By(a, w))
    requires forall v :: v != w ==> (v in s'.held <==> v in s.held) && (v in s.held ==> s'.held[v] == s.held[v])
    requires var l' := ExecAll(cfg, l, actions);
      Sim(cfg, l'.s.r, s'.m) && PairedAt(cfg, PcOf(l'.s, w), s'.held, w)
    ensures Paired(cfg, ExecAll(cfg, l, actions), s')
  {
    var l' := ExecAll(cfg, l, actions);
    forall v ensures PairedAt(cfg, PcOf(l'.s, v), s'.held, v) {
      assert PairedAt(cfg, PcOf(l.s, v), s.held, v);
      if v != w { OtherPcs(cfg, l, actions, w, v); }
    }
  }

  lemma SubmitPaired(cfg: Config, l: Log, s: Served, t: Turn)
    requires Paired(cfg, l, s) && CanTurn(cfg, l.s.r, s, t) && t.Submit?
    ensures Paired(cfg, ExecAll(cfg, l, TurnActions(l.s.r, t)), Serve(cfg, s, t))
  {
    One(cfg, l, Enqueue(t.id, t.p, t.now));
    if !Q.Refused(t.id, t.p) { EnqueueSim(cfg, l.s.r, s.m, t.id, t.p, t.now); }
    var l' := Exec(cfg, l, Enqueue(t.id, t.p, t.now));
    forall v ensures PairedAt(cfg, PcOf(l'.s, v), s.held, v) { assert PairedAt(cfg, PcOf(l.s, v), s.held, v); }
  }

  lemma ClaimPaired(cfg: Config, l: Log, s: Served, t: Turn)
    requires Paired(cfg, l, s) && CanTurn(cfg, l.s.r, s, t) && t.Claim?
    ensures Paired(cfg, ExecAll(cfg, l, TurnActions(l.s.r, t)), Serve(cfg, s, t))
  {
    assert PairedAt(cfg, PcOf(l.s, t.w), s.held, t.w);
    WholeClaimAlone(cfg, l, s.m, t.w, t.at, t.expired, t.due);
    ClaimBy(t.w, t.at, |l.s.r.inflight|, t.expired, t.due);
    OthersPaired(cfg, l, s, Serve(cfg, s, t), TurnActions(l.s.r, t), t.w);
  }

  lemma FinishPaired(cfg: Config, l: Log, s: Served, w: nat)
    requires Paired(cfg, l, s) && w in s.held
    ensures Paired(cfg, ExecAll(cfg, l, [Ack(w)]), Serve(cfg, s, Finish(w)))
  {
    assert PairedAt(cfg, PcOf(l.s, w), s.held, w);
    One(cfg, l, Ack(w));
    AckSim(cfg, l.s.r, s.m, PcOf(l.s, w).e.jobId);
    OthersPaired(cfg, l, s, Serve(cfg, s, Finish(w)), [Ack(w)], w);
  }

  lemma FailPaired(cfg: Config, l: Log, s: Served, w: nat, error: string, now: real)
    requires Paired(cfg, l, s) && w in s.held
    ensures Paired(cfg, ExecAll(cfg, l, [Retry(w, error, now)]), Serve(cfg, s, Fail(w, error, now)))
  {
    assert PairedAt(cfg, PcOf(l.s, w), s.held, w);
    One(cfg, l, Retry(w, error, now));
    RetrySim(cfg, l.s.r, s.m, PcOf(l.s, w).e, s.held[w], error, now);
    OthersPaired(cfg, l, s, Serve(cfg, s, Fail(w, error, now)), [Retry(w, error, now)], w);
  }

  lemma BeatPaired(cfg: Config, l: Log, s: Served, w: nat, now: real)
    requires Paired(cfg, l, s) && w in s.held
    ensures Paired(cfg, ExecAll(cfg, l, [Renew(w, now)]), Serve(cfg, s, Beat(w, now)))
  {
    assert PairedAt(cfg, PcOf(l.s, w), s.held, w);
    One(cfg, l, Renew(w, now));
    RenewSim(cfg, l.s.r, s.m, PcOf(l.s, w).e.jobId, now + cfg.lease);
    OthersPaired(cfg, l, s, Serve(cfg, s, Beat(w, now)), [Renew(w, now)], w);
  }

  lemma DrainPaired(cfg: Config, l: Log, s: Served, t: Turn)
    requires Paired(cfg, l, s) && CanTurn(cfg, l.s.r, s, t) && t.Drain?
    ensures |Q.LettersOf(s.m.envelopes, Reverse(s.m.dead))| == |t.drops|
    ensures Paired(cfg, ExecAll(cfg, l, TurnActions(l.s.r, t)), Serve(cfg, s, t))
  {
    assert PairedAt(cfg, PcOf(l.s, t.w), s.held, t.w);
    DrainAlone(cfg, l, s.m, t.w, t.drops);
    LettersBy(t.w, |l.s.r.dead|);
    DropsBy(t.w, t.drops);
    OthersPaired(cfg, l, s, Serve(cfg, s, t), TurnActions(l.s.r, t), t.w);
  }

  /** Every whole operation leaves both backends paired. */
  lemma TurnPaired(cfg: Config, l: Log, s: Served, t: Turn)
    requires Paired(cfg, l, s) && CanTurn(cfg, l.s.r, s, t)
    ensures t.Drain? ==> |Q.LettersOf(s.m.envelopes, Reverse(s.m.dead))| == |t.drops|
    ensures Paired(cfg, ExecAll(cfg, l, TurnActions(l.s.r, t)), Serve(cfg, s, t))
  {
    match t
    case Submit(_, _, _) => SubmitPaired(cfg, l, s, t);
    case Claim(_, _, _, _) => ClaimPaired(cfg, l, s, t);
    case Drain(_, _) => DrainPaired(cfg, l, s, t);
    case Finish(w) => FinishPaired(cfg, l, s, w);
    case Fail(w, error, now) => FailPaired(cfg, l, s, w, error, now);
    case Beat(w, now) => BeatPaired(cfg, l, s, w, now);
  }

  /** A run of whole operations; the end of it in both backends. */
  ghost predicate Runs(cfg: Config, l: Log, s: Served, turns: seq<Turn>, l': Log, s': Served)
    decreases |turns|
  {
    if turns == [] then l' == l && s' == s else
      var t := turns[0];
      && CanTurn(cfg, l.s.r, s, t)
      && (t.Drain? ==> |Q.LettersOf(s.m.envelopes, Reverse(s.m.dead))| == |t.drops|)
      && Runs(cfg, ExecAll(cfg, l, TurnActions(l.s.r, t)), Serve(cfg, s, t), turns[1..], l', s')
  }

  /** After every run of whole operations of any number of processes, Redis holds what the memory queue holds
      and each process holds the job that the memory queue handed to it. */
  lemma {:induction false} TurnsPaired(cfg: Config, l: Log, s: Served, turns: seq<Turn>, l': Log, s': Served)
    requires Paired(cfg, l, s) && Runs(cfg, l, s, turns, l', s')
    ensures Paired(cfg, l', s')
    decreases |turns|
  {
    if turns != [] {
      TurnPaired(cfg, l, s, turns[0]);
      TurnsPaired(cfg, ExecAll(cfg, l, TurnActions(l.s.r, turns[0])), Serve(cfg, s, turns[0]), turns[1..], l', s');
    }
  }

  lemma TurnsFromStart(cfg: Config, turns: seq<Turn>, l': Log, s': Served)
    requires Runs(cfg, BEGIN, Served(Q.EMPTY_QUEUE, map[]), turns, l', s')
    ensures Paired(cfg, l', s')
  {
    EmptySim(cfg);
    TurnsPaired(cfg, BEGIN, Served(Q.EMPTY_QUEUE, map[]), turns, l', s');
  }
}
