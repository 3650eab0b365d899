/** The order in which jobs wait, from the tables of leases and retries to the job that a claim hands out. */
module QueueOrder {
  import opened Basics
  import opened Envelopes
  import opened Dicts
  import opened QueueSpec
  import opened QueueInvariant
  import opened QueueRuns

  /** `x` stands before `y`. */
  predicate Before(s: seq<Id>, x: Id, y: Id) {
    exists i, j :: 0 <= i < j < |s| && s[i] == x && s[j] == y
  }

  lemma BeforeInLonger(s: seq<Id>, pre: seq<Id>, x: Id, y: Id)
    requires Before(s, x, y)
    ensures Before(pre + s, x, y)
  {
    var i, j :| 0 <= i < j < |s| && s[i] == x && s[j] == y;
    assert (pre + s)[|pre| + i] == x && (pre + s)[|pre| + j] == y;
  }

  lemma BeforeAppended(s: seq<Id>, t: seq<Id>, x: Id, y: Id)
    ensures Before(s, x, y) ==> Before(s + t, x, y)
    ensures x in s && y in t ==> Before(s + t, x, y)
  {
    if Before(s, x, y) {
      var i, j :| 0 <= i < j < |s| && s[i] == x && s[j] == y;
      assert (s + t)[i] == x && (s + t)[j] == y;
    }
    if x in s && y in t {
      var i :| 0 <= i < |s| && s[i] == x;
      var j :| 0 <= j < |t| && t[j] == y;
      assert (s + t)[i] == x && (s + t)[|s| + j] == y;
    }
  }

  // The tables.

  /** A new key goes last, a key that is there already keeps its place; no other time changes. */
  lemma PutOrder(d: Dict, k: Id, v: real)
    requires WellFormed(d)
    ensures var d' := Put(d, k, v);
      && d.keys <= d'.keys && |d'.keys| == |d.keys| + (if k in d.keys then 0 else 1)
      && (k !in d.keys ==> d'.keys[|d.keys|] == k)
      && (forall x :: x in d'.at <==> x in d.at || x == k)
      && (forall x <- d'.at.Keys :: d'.at[x] == if x == k then v else d.at[x])
  {
  }

  /** Removing a key keeps the order of the others. */
  lemma {:induction false} RemovedOrder(s: seq<Id>, k: Id, x: Id, y: Id)
    requires NoDup(s) && Before(s, x, y) && x != k && y != k
    ensures Before(RemoveFirst(s, k), x, y)
  {
    var i, j :| 0 <= i < j < |s| && s[i] == x && s[j] == y;
    var rest := s[1..];
    if s[0] == k {
      assert rest[i - 1] == x && rest[j - 1] == y;
    } else if i == 0 {
      assert rest[j - 1] == y;
      RemoveFirstKeepsNoDup(rest, k);
      BeforeAppended([x], RemoveFirst(rest, k), x, y);
    } else {
      assert rest[i - 1] == x && rest[j - 1] == y;
      RemovedOrder(rest, k, x, y);
      BeforeInLonger(RemoveFirst(rest, k), [s[0]], x, y);
    }
  }

  // Parts of a list.

  /** The elements of `s` that are in `keep`. */
  function Picked(s: seq<Id>, keep: set<Id>): seq<Id> {
    if s == [] then [] else (if s[0] in keep then [s[0]] else []) + Picked(s[1..], keep)
  }

  lemma {:induction false} PickedHas(s: seq<Id>, keep: set<Id>, x: Id)
    ensures x in Picked(s, keep) <==> x in s && x in keep
  {
    if s != [] {
      PickedHas(s[1..], keep, x);
    }
  }

  /** Picking keeps the order. */
  lemma {:induction false} PickedInOrder(s: seq<Id>, keep: set<Id>, x: Id, y: Id)
    requires Before(s, x, y) && x in keep && y in keep
    ensures Before(Picked(s, keep), x, y)
  {
    var i, j :| 0 <= i < j < |s| && s[i] == x && s[j] == y;
    var rest := s[1..];
    assert rest[j - 1] == y;
    if i == 0 {
      PickedHas(rest, keep, y);
      BeforeAppended([x], Picked(rest, keep), x, y);
    } else {
      assert rest[i - 1] == x;
      PickedInOrder(rest, keep, x, y);
      BeforeInLonger(Picked(rest, keep), if s[0] in keep then [s[0]] else [], x, y);
    }
  }

  lemma {:induction false} NonePicked(s: seq<Id>)
    ensures Picked(s, {}) == []
  {
    if s != [] {
      NonePicked(s[1..]);
    }
  }

  lemma {:induction false} PickedTwice(s: seq<Id>, a: set<Id>, b: set<Id>)
    ensures Picked(Picked(s, a), b) == Picked(s, a * b)
  {
    if s != [] {
      PickedTwice(s[1..], a, b);
      var rest := Picked(s[1..], a);
      if s[0] in a { assert ([s[0]] + rest)[1..] == rest; } else { assert [] + rest == rest; }
    }
  }

  /** The first element of `s` that is in `keep`. */
  ghost predicate IsFirst(s: seq<Id>, keep: set<Id>, x: Id) {
    exists i :: 0 <= i < |s| && s[i] == x && x in keep && forall j :: 0 <= j < i ==> s[j] !in keep
  }

  lemma {:induction false} PickedFirst(s: seq<Id>, keep: set<Id>)
    requires Picked(s, keep) != []
    ensures IsFirst(s, keep, Picked(s, keep)[0])
  {
    var rest, x := s[1..], Picked(s, keep)[0];
    if s[0] in keep {
      assert s[0] == x;
    } else {
      PickedFirst(rest, keep);
      var i :| 0 <= i < |rest| && rest[i] == x && x in keep && forall j :: 0 <= j < i ==> rest[j] !in keep;
      forall j | 0 <= j < i + 1 ensures s[j] !in keep {
        if j > 0 { assert s[j] == rest[j - 1]; }
      }
      assert s[i + 1] == x;
    }
  }

  // What is due.

  function DueKeys(d: Dict, now: real): set<Id> {
    set k <- d.at.Keys | d.at[k] <= now
  }

  lemma {:induction false} DuePicked(keys: seq<Id>, d: Dict, now: real)
    ensures DueAmong(keys, d.at, now) == Picked(keys, DueKeys(d, now))
  {
    if keys != [] {
      DuePicked(keys[1..], d, now);
    }
  }

  lemma DueInOrder(d: Dict, now: real, i: nat, j: nat)
    requires i < j < |d.keys| && d.keys[i] in DueKeys(d, now) && d.keys[j] in DueKeys(d, now)
    ensures Before(Due(d, now), d.keys[i], d.keys[j])
  {
    DuePicked(d.keys, d, now);
    PickedInOrder(d.keys, DueKeys(d, now), d.keys[i], d.keys[j]);
  }

  /** Retries that come due together are queued in the order in which they stand in the table, behind every
      job that is ready already. */
  lemma PromotedInOrder(cfg: Config, m: Mem, now: real, i: nat, j: nat)
    requires Inv(cfg, m) && i < j < |m.scheduled.keys|
    requires var x, y := m.scheduled.keys[i], m.scheduled.keys[j];
      m.scheduled.at[x] <= now && m.scheduled.at[y] <= now
    ensures var x, y, m' := m.scheduled.keys[i], m.scheduled.keys[j], PromoteDue(m, now);
      m.ready <= m'.ready && x !in m.ready && Before(m'.ready, x, y)
  {
    var x, y := m.scheduled.keys[i], m.scheduled.keys[j];
    PromoteDueKeeps(cfg, m, now);
    DueInOrder(m.scheduled, now, i, j);
    BeforeInLonger(Due(m.scheduled, now), m.ready, x, y);
    assert InvAt(cfg, m, x);
    Listed(cfg, m, x);
  }

  // A batch of recovered claims.

  /** The jobs that may be delivered once more, and those that may not. */
  function Spare(cfg: Config, m: Mem): set<Id> {
    set k <- m.envelopes.Keys | m.envelopes[k].attempt < cfg.maxAttempts
  }

  function Spent(cfg: Config, m: Mem): set<Id> {
    set k <- m.envelopes.Keys | m.envelopes[k].attempt >= cfg.maxAttempts
  }

  lemma RecoverFirst(cfg: Config, m: Mem, id: Id)
    requires Inv(cfg, m) && id in m.inflight.at
    ensures var m' := RecoverOne(cfg, m, id);
      && Inv(cfg, m') && Spare(cfg, m') == Spare(cfg, m) && Spent(cfg, m') == Spent(cfg, m)
      && m'.inflight.at == m.inflight.at - {id}
      && m'.ready == m.ready + Picked([id], Spare(cfg, m)) && m'.dead == m.dead + Picked([id], Spent(cfg, m))
  {
    RecoverOneKeeps(cfg, m, id);
    PickedOne(id, Spare(cfg, m));
    PickedOne(id, Spent(cfg, m));
  }

  /** The batch extends both lists, with each claim at the end of the list that its attempt decides. */
  lemma {:induction false} BatchLists(cfg: Config, m: Mem, ids: seq<Id>)
    requires Inv(cfg, m) && NoDup(ids) && forall id <- ids :: id in m.inflight.at
    ensures var m' := RecoverAll(cfg, m, ids);
      m'.ready == m.ready + Picked(ids, Spare(cfg, m)) && m'.dead == m.dead + Picked(ids, Spent(cfg, m))
    decreases |ids|
  {
    if ids != [] {
      var m1, rest := RecoverOne(cfg, m, ids[0]), ids[1..];
      RecoverFirst(cfg, m, ids[0]);
      assert ids == [ids[0]] + rest;
      assert ids[0] !in rest;
      BatchLists(cfg, m1, rest);
      PickedHead(m.ready, ids, Spare(cfg, m));
      PickedHead(m.dead, ids, Spent(cfg, m));
    }
  }

  lemma PickedHead(pre: seq<Id>, s: seq<Id>, keep: set<Id>)
    requires s != []
    ensures (pre + Picked([s[0]], keep)) + Picked(s[1..], keep) == pre + Picked(s, keep)
  {
    var one := if s[0] in keep then [s[0]] else [];
    PickedOne(s[0], keep);
    Regroup(pre, one, Picked(s[1..], keep));
  }

  lemma PickedOne(x: Id, keep: set<Id>)
    ensures Picked([x], keep) == if x in keep then [x] else []
  {
    var rest := [x][1..];
    assert rest == [] && Picked(rest, keep) == [];
  }

  lemma RecoveredLists(cfg: Config, m: Mem, now: real)
    requires Inv(cfg, m)
    ensures var m', due := RecoverStale(cfg, m, now), DueKeys(m.inflight, now);
      && m'.ready == m.ready + Picked(m.inflight.keys, due * Spare(cfg, m))
      && m'.dead == m.dead + Picked(m.inflight.keys, due * Spent(cfg, m))
  {
    DueAmongNoDup(m.inflight.keys, m.inflight.at, now);
    BatchLists(cfg, m, Due(m.inflight, now));
    DuePicked(m.inflight.keys, m.inflight, now);
    PickedTwice(m.inflight.keys, DueKeys(m.inflight, now), Spare(cfg, m));
    PickedTwice(m.inflight.keys, DueKeys(m.inflight, now), Spent(cfg, m));
  }

  /** Claims that expire together keep the order of the table: those below the cap in the ready list, those at
      the cap among the dead letters, in both behind what was there before. */
  lemma RecoveredInOrder(cfg: Config, m: Mem, now: real, i: nat, j: nat)
    requires Inv(cfg, m) && i < j < |m.inflight.keys|
    requires var x, y := m.inflight.keys[i], m.inflight.keys[j];
      m.inflight.at[x] <= now && m.inflight.at[y] <= now
    ensures var x, y, m' := m.inflight.keys[i], m.inflight.keys[j], RecoverStale(cfg, m, now);
      && m.ready <= m'.ready && m.dead <= m'.dead && x !in m.ready && x !in m.dead
      && x in m.envelopes && y in m.envelopes
      && (m.envelopes[x].attempt < cfg.maxAttempts && m.envelopes[y].attempt < cfg.maxAttempts ==>
            Before(m'.ready, x, y))
      && (m.envelopes[x].attempt >= cfg.maxAttempts && m.envelopes[y].attempt >= cfg.maxAttempts ==>
            Before(m'.dead, x, y))
  {
    var x, y, due := m.inflight.keys[i], m.inflight.keys[j], DueKeys(m.inflight, now);
    RecoveredLists(cfg, m, now);
    assert InvAt(cfg, m, x) && InvAt(cfg, m, y);
    Listed(cfg, m, x);
    Listed(cfg, m, y);
    if x in Spare(cfg, m) && y in Spare(cfg, m) {
      PickedInOrder(m.inflight.keys, due * Spare(cfg, m), x, y);
      BeforeInLonger(Picked(m.inflight.keys, due * Spare(cfg, m)), m.ready, x, y);
    }
    if x in Spent(cfg, m) && y in Spent(cfg, m) {
      PickedInOrder(m.inflight.keys, due * Spent(cfg, m), x, y);
      BeforeInLonger(Picked(m.inflight.keys, due * Spent(cfg, m)), m.dead, x, y);
    }
  }

  // How jobs come to stand in the tables.

  /** A job that is put off stands behind every retry that is waiting already. */
  lemma RetryGoesLast(cfg: Config, m: Mem, e: Envelope, error: string, now: real, x: Id)
    requires Inv(cfg, m) && Retry(cfg, m, e, error, now).1.ToSchedule? && x in m.scheduled.at
    ensures Before(Retry(cfg, m, e, error, now).0.scheduled.keys, x, e.jobId)
  {
    assert InvAt(cfg, m, e.jobId);
    Listed(cfg, m, e.jobId);
    BeforeAppended(m.scheduled.keys, [e.jobId], x, e.jobId);
  }

  /** A job that is claimed stands behind every claim under way. */
  lemma ClaimGoesLast(cfg: Config, m: Mem, now: real, x: Id)
    requires Inv(cfg, m) && m.ready != [] && x in m.inflight.at
    ensures Before(Take(cfg, m, now).0.inflight.keys, x, m.ready[0])
  {
    assert InvAt(cfg, m, m.ready[0]);
    Listed(cfg, m, m.ready[0]);
    BeforeAppended(m.inflight.keys, [m.ready[0]], x, m.ready[0]);
  }

  lemma {:induction false} RecoveryRemoves(cfg: Config, m: Mem, ids: seq<Id>, x: Id, y: Id)
    requires Inv(cfg, m) && NoDup(ids) && (forall id <- ids :: id in m.inflight.at)
    requires Before(m.inflight.keys, x, y) && x !in ids && y !in ids
    ensures Before(RecoverAll(cfg, m, ids).inflight.keys, x, y)
    decreases |ids|
  {
    if ids != [] {
      RecoverOneKeeps(cfg, m, ids[0]);
      assert ids == [ids[0]] + ids[1..];
      RemovedOrder(m.inflight.keys, ids[0], x, y);
      RecoveryRemoves(cfg, RecoverOne(cfg, m, ids[0]), ids[1..], x, y);
    }
  }

  lemma {:induction false} PromotionRemoves(cfg: Config, m: Mem, ids: seq<Id>, x: Id, y: Id)
    requires Inv(cfg, m) && NoDup(ids) && (forall id <- ids :: id in m.scheduled.at)
    requires Before(m.scheduled.keys, x, y) && x !in ids && y !in ids
    ensures Before(PromoteAll(m, ids).scheduled.keys, x, y)
    decreases |ids|
  {
    if ids != [] {
      PromoteOneKeeps(cfg, m, ids[0]);
      assert ids == [ids[0]] + ids[1..];
      RemovedOrder(m.scheduled.keys, ids[0], x, y);
      PromotionRemoves(cfg, PromoteOne(m, ids[0]), ids[1..], x, y);
    }
  }

  /** Jobs that a step leaves in flight keep their order there; renewals do not change it. */
  lemma FlightOrderKept(cfg: Config, h: History, op: Op, x: Id, y: Id)
    requires Sound(cfg, h) && Allowed(cfg, h, op) && Before(h.m.inflight.keys, x, y)
    requires var m' := Apply(cfg, h.m, op); x in m'.inflight.at && y in m'.inflight.at
    ensures Before(Apply(cfg, h.m, op).inflight.keys, x, y)
  {
    var m := h.m;
    match op
    case DoRecover(now) =>
      var ids := Due(m.inflight, now);
      DueAmongNoDup(m.inflight.keys, m.inflight.at, now);
      RecoverAllKeeps(cfg, m, ids);
      RecoveryRemoves(cfg, m, ids, x, y);
    case DoPromote(now) => PromoteDueKeeps(cfg, m, now);
    case DoTake(now) => if m.ready != [] { BeforeAppended(m.inflight.keys, [m.ready[0]], x, y); }
    case DoAck(id) => if id in m.inflight.at { RemovedOrder(m.inflight.keys, id, x, y); }
    case DoRetry(e, error, now) => if e.jobId in m.inflight.at { RemovedOrder(m.inflight.keys, e.jobId, x, y); }
    case _ =>
  }

  /** Retries that a step leaves waiting keep their order. */
  lemma WaitOrderKept(cfg: Config, h: History, op: Op, x: Id, y: Id)
    requires Sound(cfg, h) && Allowed(cfg, h, op) && Before(h.m.scheduled.keys, x, y)
    requires var m' := Apply(cfg, h.m, op); x in m'.scheduled.at && y in m'.scheduled.at
    ensures Before(Apply(cfg, h.m, op).scheduled.keys, x, y)
  {
    var m := h.m;
    match op
    case DoRecover(now) => RecoverStaleKeeps(cfg, m, now);
    case DoPromote(now) =>
      var ids := Due(m.scheduled, now);
      DueAmongNoDup(m.scheduled.keys, m.scheduled.at, now);
      PromoteDueKeeps(cfg, m, now);
      PromotionRemoves(cfg, m, ids, x, y);
    case DoRetry(e, error, now) => BeforeAppended(m.scheduled.keys, [e.jobId], x, y);
    case _ =>
  }

  /** Both jobs wait for their retry throughout the run. */
  predicate BothWait(cfg: Config, h: History, ops: seq<Op>, x: Id, y: Id)
    decreases |ops|
  {
    && x in h.m.scheduled.at && y in h.m.scheduled.at
    && (ops == [] || BothWait(cfg, Exec(cfg, h, ops[0]), ops[1..], x, y))
  }

  lemma {:induction false} WaitInOrder(cfg: Config, h: History, ops: seq<Op>, x: Id, y: Id)
    requires Sound(cfg, h) && AllAllowed(cfg, h, ops) && BothWait(cfg, h, ops, x, y)
    requires Before(h.m.scheduled.keys, x, y)
    ensures var h' := ExecAll(cfg, h, ops);
      Sound(cfg, h') && x in h'.m.scheduled.at && y in h'.m.scheduled.at && Before(h'.m.scheduled.keys, x, y)
    decreases |ops|
  {
    if ops != [] {
      StepKeeps(cfg, h, ops[0]);
      WaitOrderKept(cfg, h, ops[0], x, y);
      WaitInOrder(cfg, Exec(cfg, h, ops[0]), ops[1..], x, y);
    }
  }

  /** First put off, first back: of two jobs that wait for their retries and come due together, whatever
      happens in between, the one that was put off first is queued first. */
  lemma FirstPutOffFirstBack(
    cfg: Config, h: History, e: Envelope, error: string, now: real, ops: seq<Op>, x: Id, later: real)
    requires Sound(cfg, h) && e in h.issued && x in h.m.scheduled.at
    requires Retry(cfg, h.m, e, error, now).1.ToSchedule?
    requires var h1 := Exec(cfg, h, DoRetry(e, error, now));
      AllAllowed(cfg, h1, ops) && BothWait(cfg, h1, ops, x, e.jobId)
    requires var m := ExecAll(cfg, Exec(cfg, h, DoRetry(e, error, now)), ops).m;
      x in m.scheduled.at && m.scheduled.at[x] <= later
      && e.jobId in m.scheduled.at && m.scheduled.at[e.jobId] <= later
    ensures Before(PromoteDue(ExecAll(cfg, Exec(cfg, h, DoRetry(e, error, now)), ops).m, later).ready, x, e.jobId)
  {
    var h1 := Exec(cfg, h, DoRetry(e, error, now));
    RetryGoesLast(cfg, h.m, e, error, now, x);
    StepKeeps(cfg, h, DoRetry(e, error, now));
    WaitInOrder(cfg, h1, ops, x, e.jobId);
    var m := ExecAll(cfg, h1, ops).m;
    var i, j :| 0 <= i < j < |m.scheduled.keys| && m.scheduled.keys[i] == x && m.scheduled.keys[j] == e.jobId;
    PromotedInOrder(cfg, m, later, i, j);
  }

  // Which job a claim hands out.

  /** Promotion appends the due retries; without any it does nothing. */
  lemma PromotedLists(cfg: Config, m: Mem, now: real)
    requires Inv(cfg, m)
    ensures var m', due := PromoteDue(m, now), DueKeys(m.scheduled, now);
      && m'.ready == m.ready + Picked(m.scheduled.keys, due)
      && (due == {} ==> m' == m) && (due != {} ==> Picked(m.scheduled.keys, due) != [])
  {
    var due := DueKeys(m.scheduled, now);
    PromoteDueKeeps(cfg, m, now);
    DuePicked(m.scheduled.keys, m.scheduled, now);
    if due == {} {
      NonePicked(m.scheduled.keys);
    } else {
      var k :| k in due;
      PickedHas(m.scheduled.keys, due, k);
    }
  }

  /** Nothing comes due before the i-th wake-up, and something at it. */
  predicate WakesAt(d: Dict, wakeups: seq<real>, i: nat) {
    i < |wakeups| && DueKeys(d, wakeups[i]) != {} && forall j :: 0 <= j < i ==> DueKeys(d, wakeups[j]) == {}
  }

  lemma LaterWake(d: Dict, wakeups: seq<real>, i: nat)
    requires wakeups != [] && i < |wakeups| && DueKeys(d, wakeups[0]) == {}
    ensures WakesAt(d, wakeups[1..], i) ==> WakesAt(d, wakeups, i + 1) && wakeups[i + 1] == wakeups[1..][i]
    ensures (forall j :: 0 <= j < i ==> DueKeys(d, wakeups[1..][j]) == {}) ==>
              forall j :: 0 <= j < i + 1 ==> DueKeys(d, wakeups[j]) == {}
  {
    assert forall j :: 0 < j < |wakeups| ==> wakeups[j] == wakeups[1..][j - 1];
  }

  /** Waiting ends with the promotion at the first wake-up at which a retry is due. */
  lemma {:induction false} AwaitEnds(cfg: Config, m: Mem, wakeups: seq<real>) returns (i: nat)
    requires Inv(cfg, m) && m.ready == []
    ensures i <= |wakeups| && (i < |wakeups| ==> WakesAt(m.scheduled, wakeups, i))
    ensures i == |wakeups| ==> forall j :: 0 <= j < i ==> DueKeys(m.scheduled, wakeups[j]) == {}
    ensures AwaitReady(m, wakeups) == if i < |wakeups| then PromoteDue(m, wakeups[i]) else m
    decreases |wakeups|
  {
    if wakeups == [] {
      i := 0;
    } else {
      var rest := wakeups[1..];
      PromotedLists(cfg, m, wakeups[0]);
      if DueKeys(m.scheduled, wakeups[0]) == {} {
        i := AwaitEnds(cfg, m, rest);
        LaterWake(m.scheduled, wakeups, i);
        i := i + 1;
      } else {
        i := 0;
      }
    }
  }

  lemma TakesHead(cfg: Config, m: Mem, now: real)
    requires Inv(cfg, m)
    ensures var r := Take(cfg, m, now).1;
      if m.ready == [] then r == None else r.Some? && r.value.jobId == m.ready[0]
  {
    if m.ready != [] {
      TakeKeeps(cfg, m, now);
      assert InvAt(cfg, m, m.ready[0]);
    }
  }

  /** A claim hands out the head of the ready list; if there is none, the first job in the table of claims whose
      lease has run out and which may be delivered again; if there is none, the first retry in its table that
      is due, at the promotion or else at the first wake-up with one; and nothing if there is none. */
  lemma ClaimPicks(cfg: Config, m: Mem, at: Readings) returns (wake: nat)
    requires Inv(cfg, m)
    ensures var r, again, due :=
        QueueSpec.Claim(cfg, m, at).1, DueKeys(m.inflight, at.recoverAt) * Spare(cfg, m), DueKeys(m.scheduled, at.promoteAt);
      if m.ready != [] then r.Some? && r.value.jobId == m.ready[0]
      else if again != {} then r.Some? && IsFirst(m.inflight.keys, again, r.value.jobId)
      else if due != {} then r.Some? && IsFirst(m.scheduled.keys, due, r.value.jobId)
      else if wake < |at.wakeups| then
        && WakesAt(m.scheduled, at.wakeups, wake)
        && r.Some? && IsFirst(m.scheduled.keys, DueKeys(m.scheduled, at.wakeups[wake]), r.value.jobId)
      else r == None && forall w <- at.wakeups :: DueKeys(m.scheduled, w) == {}
  {
    var m1 := RecoverStale(cfg, m, at.recoverAt);
    RecoveredLists(cfg, m, at.recoverAt);
    RecoverStaleKeeps(cfg, m, at.recoverAt);
    var m2 := PromoteDue(m1, at.promoteAt);
    PromotedLists(cfg, m1, at.promoteAt);
    PromoteDueKeeps(cfg, m1, at.promoteAt);
    wake := 0;
    if m2.ready == [] {
      wake := AwaitEnds(cfg, m2, at.wakeups);
      assert m2 == m1;
    }
    var m3 := AwaitReady(m2, at.wakeups);
    if m2.ready == [] && wake < |at.wakeups| {
      PromotedLists(cfg, m2, at.wakeups[wake]);
      PromoteDueKeeps(cfg, m2, at.wakeups[wake]);
      PickedFirst(m.scheduled.keys, DueKeys(m.scheduled, at.wakeups[wake]));
    }
    TakesHead(cfg, m3, at.leaseAt);
    RequeuedFirst(cfg, m, at.recoverAt);
    if DueKeys(m.scheduled, at.promoteAt) != {} { PickedFirst(m.scheduled.keys, DueKeys(m.scheduled, at.promoteAt)); }
  }

  lemma RequeuedFirst(cfg: Config, m: Mem, now: real)
    requires Inv(cfg, m)
    ensures var again := DueKeys(m.inflight, now) * Spare(cfg, m); var picked := Picked(m.inflight.keys, again);
      if again == {} then picked == [] else picked != [] && IsFirst(m.inflight.keys, again, picked[0])
  {
    var again := DueKeys(m.inflight, now) * Spare(cfg, m);
    var picked := Picked(m.inflight.keys, again);
    if again == {} {
      NonePicked(m.inflight.keys);
    } else {
      var k :| k in again;
      PickedHas(m.inflight.keys, again, k);
      PickedFirst(m.inflight.keys, again);
    }
  }
}
