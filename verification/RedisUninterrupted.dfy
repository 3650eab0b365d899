/** The same operations as runs of one process in `RedisWorld`, command by command, with no other process
    in between. */
module RedisUninterrupted {
  import opened Basics
  import opened Envelopes
  import opened QueueInvariant
  import opened RedisCommands
  import opened RedisWorld
  import opened RedisSimulation
  import Q = QueueSpec

  lemma One(cfg: Config, l: Log, a: Action)
    ensures ExecAll(cfg, l, [a]) == Exec(cfg, l, a)
  {
    assert [a][1..] == [];
    assert ExecAll(cfg, Exec(cfg, l, a), []) == Exec(cfg, l, a);
  }

  lemma {:induction false} Then(cfg: Config, l: Log, s: seq<Action>, t: seq<Action>)
    ensures ExecAll(cfg, l, s + t) == ExecAll(cfg, ExecAll(cfg, l, s), t)
    decreases |s|
  {
    if s == [] {
      assert s + t == t;
    } else {
      Then(cfg, Exec(cfg, l, s[0]), s[1..], t);
      assert (s + t)[1..] == s[1..] + t;
    }
  }

  lemma OneThen(cfg: Config, l: Log, a: Action, rest: seq<Action>)
    ensures ExecAll(cfg, l, [a] + rest) == ExecAll(cfg, Exec(cfg, l, a), rest)
  {
    One(cfg, l, a);
    Then(cfg, l, [a], rest);
  }

  function ClaimActions(w: nat, now: real): seq<Action> {
    [Pop(w)] + ([ReadMoved(w)] + ([StoreClaim(w)] + [AddLease(w, now)]))
  }

  lemma ClaimFirstHalf(cfg: Config, l: Log, w: nat) returns (l2: Log)
    requires PcOf(l.s, w) == Idle && l.s.r.ready != [] && l.s.r.ready[|l.s.r.ready| - 1] in l.s.r.envelopes
    ensures l2 == Exec(cfg, Exec(cfg, l, Pop(w)), ReadMoved(w))
    ensures l2.s.r == PopCommand(l.s.r).0
    ensures PcOf(l2.s, w) == Claiming(Claimed(l.s.r.envelopes[l.s.r.ready[|l.s.r.ready| - 1]]))
  {
    var l1 := Exec(cfg, l, Pop(w));
    assert PcOf(l1.s, w) == Moved(l.s.r.ready[|l.s.r.ready| - 1]) && l1.s.r == PopCommand(l.s.r).0;
    l2 := Exec(cfg, l1, ReadMoved(w));
  }

  lemma ClaimSecondHalf(cfg: Config, l: Log, w: nat, now: real) returns (l2: Log)
    requires PcOf(l.s, w).Claiming?
    ensures l2 == Exec(cfg, Exec(cfg, l, StoreClaim(w)), AddLease(w, now))
    ensures var e := PcOf(l.s, w).e;
      && l2.s.r == l.s.r.(envelopes := l.s.r.envelopes[e.jobId := e], leases := l.s.r.leases[e.jobId := now + cfg.lease])
      && PcOf(l2.s, w) == Holding(e)
  {
    var l1 := Exec(cfg, l, StoreClaim(w));
    assert PcOf(l1.s, w) == Stored(PcOf(l.s, w).e);
    l2 := Exec(cfg, l1, AddLease(w, now));
  }

  lemma Four(cfg: Config, l: Log, a: Action, b: Action, c: Action, d: Action)
    ensures ExecAll(cfg, l, [a] + ([b] + ([c] + [d]))) == Exec(cfg, Exec(cfg, Exec(cfg, Exec(cfg, l, a), b), c), d)
  {
    var l1 := Exec(cfg, l, a);
    var l2 := Exec(cfg, l1, b);
    var l3 := Exec(cfg, l2, c);
    One(cfg, l, a);
    One(cfg, l1, b);
    One(cfg, l2, c);
    One(cfg, l3, d);
    Then(cfg, l, [a], [b] + ([c] + [d]));
    Then(cfg, l1, [b], [c] + [d]);
    Then(cfg, l2, [c], [d]);
  }

  lemma ClaimIsCommands(cfg: Config, l: Log, w: nat, now: real)
    requires PcOf(l.s, w) == Idle && l.s.r.ready != [] && l.s.r.ready[|l.s.r.ready| - 1] in l.s.r.envelopes
    ensures var l' := ExecAll(cfg, l, ClaimActions(w, now)); var (r', e) := ClaimCommands(cfg, l.s.r, now);
      e.Some? && l'.s.r == r' && PcOf(l'.s, w) == Holding(e.value)
  {
    var l2 := ClaimFirstHalf(cfg, l, w);
    var l4 := ClaimSecondHalf(cfg, l2, w, now);
    Four(cfg, l, Pop(w), ReadMoved(w), StoreClaim(w), AddLease(w, now));
  }

  /** A process that claims undisturbed gets what the memory queue would hand out. */
  lemma ClaimAlone(cfg: Config, l: Log, m: Q.Mem, w: nat, now: real)
    requires Sim(cfg, l.s.r, m) && PcOf(l.s, w) == Idle && l.s.r.ready != []
    ensures var l' := ExecAll(cfg, l, ClaimActions(w, now)); var (m', f) := Q.Take(cfg, m, now);
      && Sim(cfg, l'.s.r, m') && f.Some?
      && PcOf(l'.s, w).Holding? && SameButRetryAt(PcOf(l'.s, w).e, f.value)
  {
    ReadyHasEnvelope(cfg, l.s.r, m);
    ClaimIsCommands(cfg, l, w, now);
    ClaimSim(cfg, l.s.r, m, now);
  }

  lemma ReadyHasEnvelope(cfg: Config, r: Redis, m: Q.Mem)
    requires Sim(cfg, r, m) && r.ready != []
    ensures r.ready[|r.ready| - 1] in r.envelopes
  {
    ReversePop(r.ready);
    TakeKeeps(cfg, m, 0.0);
  }

  function Scores(w: nat, n: nat): seq<Action> {
    if n == 0 then [ReadScore(w)] else [ReadScore(w)] + Scores(w, n - 1)
  }

  /** With nothing in between, every in-flight id has a lease, so the scan adds no id. */
  lemma {:induction false} ScanAlone(cfg: Config, l: Log, w: nat, ids: set<Id>, todo: seq<Id>)
    requires PcOf(l.s, w) == Scanning(ids, todo) && forall id <- todo :: id in l.s.r.leases
    ensures var l' := ExecAll(cfg, l, Scores(w, |todo|));
      l'.s.r == l.s.r && PcOf(l'.s, w) == Recovering(ids)
    decreases |todo|
  {
    var l1 := Exec(cfg, l, ReadScore(w));
    One(cfg, l, ReadScore(w));
    if todo != [] {
      assert PcOf(l1.s, w) == Scanning(ids, todo[1..]);
      ScanAlone(cfg, l1, w, ids, todo[1..]);
      Then(cfg, l, [ReadScore(w)], Scores(w, |todo| - 1));
    }
  }

  function Recoveries(w: nat, order: seq<Id>): seq<Action> {
    if order == [] then [FetchExpired(w, "")]
    else [FetchExpired(w, order[0])] + ([RunRecover(w)] + Recoveries(w, order[1..]))
  }

  lemma FetchOne(cfg: Config, l: Log, w: nat, ids: set<Id>, id: Id)
    requires PcOf(l.s, w) == Recovering(ids) && id in ids && id in l.s.r.envelopes
    ensures var l1 := Exec(cfg, l, FetchExpired(w, id));
      l1.s.r == l.s.r && PcOf(l1.s, w) == Fetched(ids - {id}, l.s.r.envelopes[id])
  {
  }

  lemma RecoverFetched(cfg: Config, l: Log, w: nat, ids: set<Id>, e: Envelope)
    requires PcOf(l.s, w) == Fetched(ids, e)
    ensures var l1 := Exec(cfg, l, RunRecover(w));
      l1.s.r == RedisCommands.RecoverOne(cfg, l.s.r, e).0 && PcOf(l1.s, w) == Recovering(ids)
  {
  }

  lemma FetchAndRecover(cfg: Config, l: Log, m: Q.Mem, w: nat, ids: set<Id>, id: Id) returns (l': Log)
    requires Sim(cfg, l.s.r, m) && PcOf(l.s, w) == Recovering(ids) && id in ids && id in m.inflight.at
    ensures l' == Exec(cfg, Exec(cfg, l, FetchExpired(w, id)), RunRecover(w))
    ensures Sim(cfg, l'.s.r, Q.RecoverOne(cfg, m, id)) && PcOf(l'.s, w) == Recovering(ids - {id})
  {
    RecoverOneSim(cfg, l.s.r, m, id);
    FetchOne(cfg, l, w, ids, id);
    var l1 := Exec(cfg, l, FetchExpired(w, id));
    RecoverFetched(cfg, l1, w, ids - {id}, l.s.r.envelopes[id]);
    l' := Exec(cfg, l1, RunRecover(w));
  }

  /** The two commands for one claim, then the rest. */
  lemma TwoThen(cfg: Config, l: Log, a: Action, b: Action, rest: seq<Action>)
    ensures ExecAll(cfg, l, [a] + ([b] + rest)) == ExecAll(cfg, Exec(cfg, Exec(cfg, l, a), b), rest)
  {
    var l1 := Exec(cfg, l, a);
    One(cfg, l, a);
    One(cfg, l1, b);
    Then(cfg, l, [a], [b] + rest);
    Then(cfg, l1, [b], rest);
  }

  lemma {:induction false} RecoverInOrder(cfg: Config, l: Log, m: Q.Mem, w: nat, order: seq<Id>)
    requires Sim(cfg, l.s.r, m) && PcOf(l.s, w) == Recovering(ToSet(order)) && NoDup(order)
    requires forall id <- order :: id in m.inflight.at
    ensures var l' := ExecAll(cfg, l, Recoveries(w, order));
      Sim(cfg, l'.s.r, Q.RecoverAll(cfg, m, order)) && PcOf(l'.s, w) == Idle
    decreases |order|
  {
    if order == [] {
      One(cfg, l, FetchExpired(w, ""));
    } else {
      var id, rest := order[0], order[1..];
      HeadApart(order);
      var l2 := FetchAndRecover(cfg, l, m, w, ToSet(order), id);
      RecoverOneKeeps(cfg, m, id);
      RecoverInOrder(cfg, l2, Q.RecoverOne(cfg, m, id), w, rest);
      TwoThen(cfg, l, FetchExpired(w, id), RunRecover(w), Recoveries(w, rest));
    }
  }

  lemma HeadApart(order: seq<Id>)
    requires order != [] && NoDup(order)
    ensures order[0] !in order[1..] && NoDup(order[1..]) && ToSet(order) - {order[0]} == ToSet(order[1..])
  {
    assert order == [order[0]] + order[1..];
  }

  function RecoverActions(w: nat, now: real, inflight: nat, order: seq<Id>): seq<Action> {
    [ReadLeases(w, now)] + ([ReadInflight(w)] + (Scores(w, inflight) + Recoveries(w, order)))
  }

  /** `recover_stale` undisturbed, for every order in which the expired ids may be visited. */
  lemma RecoverAlone(cfg: Config, l: Log, m: Q.Mem, w: nat, now: real, order: seq<Id>)
    requires Sim(cfg, l.s.r, m) && PcOf(l.s, w) == Idle
    requires NoDup(order) && ToSet(order) == UpTo(l.s.r.leases, now)
    ensures var l' := ExecAll(cfg, l, RecoverActions(w, now, |l.s.r.inflight|, order));
      Sim(cfg, l'.s.r, Q.RecoverAll(cfg, m, order)) && PcOf(l'.s, w) == Idle
  {
    var l1 := Exec(cfg, l, ReadLeases(w, now));
    var l2 := Exec(cfg, l1, ReadInflight(w));
    assert l1.s.r == l.s.r && PcOf(l1.s, w) == Expired(ToSet(order));
    assert l2.s.r == l.s.r && PcOf(l2.s, w) == Scanning(ToSet(order), l.s.r.inflight);
    ScanAlone(cfg, l2, w, ToSet(order), l.s.r.inflight);
    var l3 := ExecAll(cfg, l2, Scores(w, |l.s.r.inflight|));
    assert forall id <- order :: id in ToSet(order);
    RecoverInOrder(cfg, l3, m, w, order);
    One(cfg, l, ReadLeases(w, now));
    One(cfg, l1, ReadInflight(w));
    Then(cfg, l, [ReadLeases(w, now)], [ReadInflight(w)] + (Scores(w, |l.s.r.inflight|) + Recoveries(w, order)));
    Then(cfg, l1, [ReadInflight(w)], Scores(w, |l.s.r.inflight|) + Recoveries(w, order));
    Then(cfg, l2, Scores(w, |l.s.r.inflight|), Recoveries(w, order));
  }

  function Promotions(w: nat, n: nat): seq<Action> {
    if n == 0 then [RunPromote(w)] else [RunPromote(w)] + Promotions(w, n - 1)
  }

  lemma {:induction false} PromoteInOrder(cfg: Config, l: Log, m: Q.Mem, w: nat, order: seq<Id>)
    requires Sim(cfg, l.s.r, m) && PcOf(l.s, w) == Promoting(order) && NoDup(order)
    requires forall id <- order :: id in m.scheduled.at
    ensures var l' := ExecAll(cfg, l, Promotions(w, |order|));
      Sim(cfg, l'.s.r, Q.PromoteAll(m, order)) && PcOf(l'.s, w) == Idle
    decreases |order|
  {
    One(cfg, l, RunPromote(w));
    if order != [] {
      var id, rest := order[0], order[1..];
      var l1 := Exec(cfg, l, RunPromote(w));
      PromoteOneSim(cfg, l.s.r, m, id);
      assert id !in rest && order == [id] + rest;
      assert PcOf(l1.s, w) == Promoting(rest) && l1.s.r == PromoteScript(l.s.r, id).0;
      PromoteInOrder(cfg, l1, Q.PromoteOne(m, id), w, rest);
      Then(cfg, l, [RunPromote(w)], Promotions(w, |rest|));
    }
  }

  /** `_promote_due` undisturbed, in whatever order Redis returns the due ids. */
  lemma PromoteAlone(cfg: Config, l: Log, m: Q.Mem, w: nat, now: real, order: seq<Id>)
    requires Sim(cfg, l.s.r, m) && PcOf(l.s, w) == Idle
    requires NoDup(order) && ToSet(order) == UpTo(l.s.r.scheduled, now)
    ensures var l' := ExecAll(cfg, l, [ReadDue(w, now, order)] + Promotions(w, |order|));
      Sim(cfg, l'.s.r, Q.PromoteAll(m, order)) && PcOf(l'.s, w) == Idle
  {
    var l1 := Exec(cfg, l, ReadDue(w, now, order));
    assert l1.s.r == l.s.r && PcOf(l1.s, w) == Promoting(order);
    assert forall id <- order :: id in ToSet(order);
    PromoteInOrder(cfg, l1, m, w, order);
    One(cfg, l, ReadDue(w, now, order));
    Then(cfg, l, [ReadDue(w, now, order)], Promotions(w, |order|));
  }
}
