/** No job is lost or listed twice, under every interleaving of commands and scripts with crashes anywhere. */
module RedisSafety {
  import opened Basics
  import opened Envelopes
  import opened RedisCommands
  import opened RedisWorld
  import QueueSpec

  /** How often `id` is listed over all four locations. */
  function Copies(r: Redis, id: Id): nat {
    Count(r.ready, id) + Count(r.inflight, id) + (if id in r.scheduled then 1 else 0) + Count(r.dead, id)
  }

  /** An envelope that belongs to an accepted job and carries that job's payload. */
  predicate Genuine(e: Envelope, origin: map<Id, Payload>) {
    e.jobId in origin && e.payload == origin[e.jobId]
  }

  predicate SafeAt(l: Log, id: Id) {
    var r := l.s.r;
    && Copies(r, id) == (if id in l.live then 1 else 0)
    && (id in l.live ==> id in r.envelopes && id in l.origin && l.live[id] == l.origin[id])
    && (id in r.envelopes ==> r.envelopes[id].jobId == id && Genuine(r.envelopes[id], l.origin))
  }

  /** What a process knows stays true: its envelopes are genuine, and an id whose envelope it did not
      find has left the queue. */
  predicate SafePc(l: Log, pc: Pc) {
    match pc
    case Fetched(_, e) => Genuine(e, l.origin)
    case Claiming(e) => Genuine(e, l.origin)
    case Stored(e) => Genuine(e, l.origin)
    case Holding(e) => Genuine(e, l.origin)
    case Moved(id) => id in l.origin
    case Missing(id) => id in l.origin && id !in l.live
    case Listing(_, got) => forall e <- got :: Genuine(e, l.origin)
    case Draining(got) => forall e <- got :: Genuine(e, l.origin)
    case _ => true
  }

  ghost predicate Safe(l: Log) {
    && (forall id :: SafeAt(l, id))
    && (forall w :: SafePc(l, PcOf(l.s, w)))
  }

  lemma Push(s: seq<Id>, id: Id, k: Id)
    ensures Count([id] + s, k) == Count(s, k) + if k == id then 1 else 0
  {
    CountConcat([id], s, k);
    CountSingle(id, k);
  }

  lemma Present(l: Log, id: Id)
    requires SafeAt(l, id)
    ensures id in l.s.r.ready || id in l.s.r.inflight || id in l.s.r.scheduled || id in l.s.r.dead <==> id in l.live
    ensures id in l.s.r.inflight ==> id !in l.s.r.scheduled
  {
    CountPositive(l.s.r.ready, id);
    CountPositive(l.s.r.inflight, id);
    CountPositive(l.s.r.dead, id);
  }

  /** Two worlds that differ only in Redis data keep every process' knowledge if no live job reappears. */
  lemma PcsKept(l: Log, l': Log, w: nat)
    requires forall v :: SafePc(l, PcOf(l.s, v))
    requires forall v :: v != w ==> PcOf(l'.s, v) == PcOf(l.s, v)
    requires SafePc(l', PcOf(l'.s, w))
    requires forall id <- l.origin.Keys :: id in l'.origin && l'.origin[id] == l.origin[id]
    requires forall id <- l'.live.Keys :: id in l.live || id !in l.origin
    ensures forall v :: SafePc(l', PcOf(l'.s, v))
  {
    forall v ensures SafePc(l', PcOf(l'.s, v)) {
      assert SafePc(l, PcOf(l.s, v));
    }
  }

  lemma EnqueueSafe(cfg: Config, l: Log, a: Action)
    requires Safe(l) && a.Enqueue?
    requires EventOf(cfg, l.s, a).Accepted? ==> a.id !in l.origin
    ensures Safe(Exec(cfg, l, a))
  {
    var l' := Exec(cfg, l, a);
    forall k ensures SafeAt(l', k) {
      assert SafeAt(l, k);
      Push(l.s.r.ready, a.id, k);
    }
    assert PcOf(l'.s, 0) == PcOf(l.s, 0);
    forall v ensures SafePc(l', PcOf(l'.s, v)) {
      assert SafePc(l, PcOf(l.s, v));
    }
  }

  /** A script that takes one in-flight id elsewhere, or finds it gone and does nothing. */
  lemma TransferSafe(l: Log, l': Log, e: Envelope)
    requires forall id :: SafeAt(l, id)
    requires Genuine(e, l.origin)
    requires l'.origin == l.origin && l'.live == l.live
    requires e.jobId in l.s.r.inflight
    requires l'.s.r.envelopes == l.s.r.envelopes[e.jobId := e]
    requires l'.s.r.inflight == RemoveFirst(l.s.r.inflight, e.jobId)
    requires var r, r' := l.s.r, l'.s.r;
      || (r'.ready == [e.jobId] + r.ready && r'.scheduled == r.scheduled && r'.dead == r.dead)
      || (r'.ready == r.ready && r'.scheduled.Keys == r.scheduled.Keys + {e.jobId} && r'.dead == r.dead)
      || (r'.ready == r.ready && r'.scheduled == r.scheduled && r'.dead == [e.jobId] + r.dead)
    ensures forall id :: SafeAt(l', id)
  {
    Present(l, e.jobId);
    forall k ensures SafeAt(l', k) {
      assert SafeAt(l, k);
      CountRemoveFirst(l.s.r.inflight, e.jobId, k);
      Push(l.s.r.ready, e.jobId, k);
      Push(l.s.r.dead, e.jobId, k);
      assert k in l'.s.r.scheduled ==> k in l'.s.r.scheduled.Keys;
    }
  }

  lemma RecoverSafe(cfg: Config, l: Log, a: Action)
    requires Safe(l) && (a.ReadLeases? || a.ReadInflight? || a.ReadScore? || a.FetchExpired? || a.RunRecover?)
    ensures Safe(Exec(cfg, l, a))
  {
    var l', pc := Exec(cfg, l, a), PcOf(l.s, a.w);
    assert SafePc(l, pc);
    if a.RunRecover? && pc.Fetched? && pc.e.jobId in l.s.r.inflight {
      TransferSafe(l, l', pc.e.(lastError := Some(LEASE_EXPIRED)));
    } else {
      assert l'.s.r == l.s.r;
      forall k ensures SafeAt(l', k) { assert SafeAt(l, k); }
    }
    if a.FetchExpired? {
      assert SafeAt(l, a.id);
    }
    PcsKept(l, l', a.w);
  }

  lemma PopCounts(r: Redis, k: Id)
    requires r.ready != []
    ensures Copies(PopCommand(r).0, k) == Copies(r, k)
  {
    CountLast(r.ready, k);
    Push(r.inflight, r.ready[|r.ready| - 1], k);
  }

  lemma PopSafe(cfg: Config, l: Log, w: nat)
    requires Safe(l)
    ensures Safe(Exec(cfg, l, Pop(w)))
  {
    var l', r := Exec(cfg, l, Pop(w)), l.s.r;
    if PcOf(l.s, w).Idle? && r.ready != [] {
      var id := r.ready[|r.ready| - 1];
      assert SafeAt(l, id);
      Present(l, id);
      forall k ensures SafeAt(l', k) {
        assert SafeAt(l, k);
        PopCounts(r, k);
      }
      assert PcOf(l'.s, w) == Moved(id);
      PcsKept(l, l', w);
    }
  }

  lemma DropMissingSafe(cfg: Config, l: Log, w: nat)
    requires Safe(l)
    ensures Safe(Exec(cfg, l, DropMissing(w)))
  {
    var l', pc, r := Exec(cfg, l, DropMissing(w)), PcOf(l.s, w), l.s.r;
    assert SafePc(l, pc);
    if pc.Missing? {
      assert SafeAt(l, pc.id);
      CountPositive(r.inflight, pc.id);
      forall k ensures SafeAt(l', k) {
        assert SafeAt(l, k);
        CountRemoveFirst(r.inflight, pc.id, k);
      }
      PcsKept(l, l', w);
    }
  }

  /** A step that reads: only what one process knows changes. */
  lemma ReadSafe(l: Log, l': Log, w: nat)
    requires Safe(l) && l'.s.r == l.s.r && l'.origin == l.origin && l'.live == l.live
    requires forall v :: v != w ==> PcOf(l'.s, v) == PcOf(l.s, v)
    requires SafePc(l', PcOf(l'.s, w))
    ensures Safe(l')
  {
    forall k ensures SafeAt(l', k) { assert SafeAt(l, k); }
    PcsKept(l, l', w);
  }

  lemma ReadMovedSafe(cfg: Config, l: Log, w: nat)
    requires Safe(l)
    ensures Safe(Exec(cfg, l, ReadMoved(w)))
  {
    var pc := PcOf(l.s, w);
    assert SafePc(l, pc);
    if pc.Moved? { assert SafeAt(l, pc.id); }
    ReadSafe(l, Exec(cfg, l, ReadMoved(w)), w);
  }

  /** Writing the envelope back and setting the lease move no id. */
  lemma StoreClaimSafe(cfg: Config, l: Log, w: nat)
    requires Safe(l)
    ensures Safe(Exec(cfg, l, StoreClaim(w)))
  {
    var l', pc := Exec(cfg, l, StoreClaim(w)), PcOf(l.s, w);
    assert SafePc(l, pc);
    if pc.Claiming? {
      assert l'.s.r == l.s.r.(envelopes := l.s.r.envelopes[pc.e.jobId := pc.e]);
      forall k ensures SafeAt(l', k) { assert SafeAt(l, k); }
      PcsKept(l, l', w);
    }
  }

  lemma AddLeaseSafe(cfg: Config, l: Log, w: nat, now: real)
    requires Safe(l)
    ensures Safe(Exec(cfg, l, AddLease(w, now)))
  {
    var l', pc := Exec(cfg, l, AddLease(w, now)), PcOf(l.s, w);
    assert SafePc(l, pc);
    if pc.Stored? {
      forall k ensures SafeAt(l', k) { assert SafeAt(l, k); }
      PcsKept(l, l', w);
    }
  }

  lemma PromoteSafe(cfg: Config, l: Log, w: nat)
    requires Safe(l)
    ensures Safe(Exec(cfg, l, RunPromote(w)))
  {
    var l', pc, r := Exec(cfg, l, RunPromote(w)), PcOf(l.s, w), l.s.r;
    if pc.Promoting? && pc.due != [] {
      forall k ensures SafeAt(l', k) {
        assert SafeAt(l, k);
        Push(r.ready, pc.due[0], k);
      }
      PcsKept(l, l', w);
    } else {
      assert SafePc(l, pc);
      ReadSafe(l, l', w);
    }
  }

  lemma AckSafe(cfg: Config, l: Log, w: nat)
    requires Safe(l)
    ensures Safe(Exec(cfg, l, Ack(w)))
  {
    var l', pc, r := Exec(cfg, l, Ack(w)), PcOf(l.s, w), l.s.r;
    if pc.Holding? {
      assert SafeAt(l, pc.e.jobId);
      CountPositive(r.inflight, pc.e.jobId);
      forall k ensures SafeAt(l', k) {
        assert SafeAt(l, k);
        CountRemoveFirst(r.inflight, pc.e.jobId, k);
      }
      PcsKept(l, l', w);
    }
  }

  lemma RetryCallSafe(cfg: Config, l: Log, l': Log, e: Envelope, error: string, now: real)
    requires forall id :: SafeAt(l, id)
    requires Genuine(e, l.origin)
    requires l'.origin == l.origin && l'.live == l.live && l'.s.r == RetryCommand(cfg, l.s.r, e, error, now).0
    ensures forall id :: SafeAt(l', id)
  {
    if e.jobId !in l.s.r.inflight {
      forall k ensures SafeAt(l', k) { assert SafeAt(l, k); }
    } else if e.attempt >= cfg.maxAttempts {
      TransferSafe(l, l', e.(retryAt := None, lastError := Some(error)));
    } else {
      var at := now + QueueSpec.Delay(cfg, e.attempt);
      assert l'.s.r.scheduled == l.s.r.scheduled[e.jobId := at];
      TransferSafe(l, l', e.(retryAt := Some(at), lastError := Some(error)));
    }
  }

  lemma RetrySafe(cfg: Config, l: Log, w: nat, error: string, now: real)
    requires Safe(l)
    ensures Safe(Exec(cfg, l, Retry(w, error, now)))
  {
    var l', pc := Exec(cfg, l, Retry(w, error, now)), PcOf(l.s, w);
    assert SafePc(l, pc);
    if pc.Holding? {
      RetryCallSafe(cfg, l, l', pc.e, error, now);
      PcsKept(l, l', w);
    }
  }

  lemma RenewSafe(cfg: Config, l: Log, w: nat, now: real)
    requires Safe(l)
    ensures Safe(Exec(cfg, l, Renew(w, now)))
  {
    var l' := Exec(cfg, l, Renew(w, now));
    forall k ensures SafeAt(l', k) { assert SafeAt(l, k); }
    assert SafePc(l, PcOf(l.s, w));
    PcsKept(l, l', w);
  }

  lemma LetterCounts(r: Redis, id: Id, k: Id)
    requires id in r.dead
    ensures Copies(RemoveDeadScript(r, id).0, k) == Copies(r, k) - if k == id then 1 else 0
  {
    CountPositive(r.dead, id);
    CountRemoveFirst(r.dead, id, k);
  }

  lemma RemovedSafe(l: Log, l': Log, id: Id)
    requires forall k :: SafeAt(l, k)
    requires l'.s.r == RemoveDeadScript(l.s.r, id).0 && l'.origin == l.origin
    requires l'.live == if id in l.s.r.dead then l.live - {id} else l.live
    ensures forall k :: SafeAt(l', k)
  {
    forall k ensures SafeAt(l', k) {
      assert SafeAt(l, k);
      if id in l.s.r.dead { LetterCounts(l.s.r, id, k); }
    }
  }

  lemma RemoveLetterSafe(cfg: Config, l: Log, w: nat)
    requires Safe(l)
    ensures Safe(Exec(cfg, l, RemoveLetter(w)))
  {
    var l', pc := Exec(cfg, l, RemoveLetter(w)), PcOf(l.s, w);
    assert SafePc(l, pc);
    if pc.Draining? && pc.got != [] {
      RemovedSafe(l, l', pc.got[0].jobId);
      PcsKept(l, l', w);
    }
  }

  lemma ReadLetterSafe(cfg: Config, l: Log, w: nat)
    requires Safe(l)
    ensures Safe(Exec(cfg, l, ReadLetter(w)))
  {
    var pc := PcOf(l.s, w);
    assert SafePc(l, pc);
    if pc.Listing? && pc.todo != [] { assert SafeAt(l, pc.todo[0]); }
    ReadSafe(l, Exec(cfg, l, ReadLetter(w)), w);
  }

  lemma PlainReadSafe(cfg: Config, l: Log, a: Action)
    requires Safe(l) && (a.ReadDead? || a.SkipLetter? || a.Crash? || a.ReadDue?)
    ensures Safe(Exec(cfg, l, a))
  {
    assert SafePc(l, PcOf(l.s, a.w));
    ReadSafe(l, Exec(cfg, l, a), a.w);
  }

  lemma StepSafe(cfg: Config, l: Log, a: Action)
    requires Safe(l) && (EventOf(cfg, l.s, a).Accepted? ==> EventOf(cfg, l.s, a).id !in l.origin)
    ensures Safe(Exec(cfg, l, a))
  {
    match a
    case Enqueue(_, _, _) => EnqueueSafe(cfg, l, a);
    case Pop(w) => PopSafe(cfg, l, w);
    case DropMissing(w) => DropMissingSafe(cfg, l, w);
    case ReadMoved(w) => ReadMovedSafe(cfg, l, w);
    case StoreClaim(w) => StoreClaimSafe(cfg, l, w);
    case AddLease(w, now) => AddLeaseSafe(cfg, l, w, now);
    case ReadDue(_, _, _) => PlainReadSafe(cfg, l, a);
    case RunPromote(w) => PromoteSafe(cfg, l, w);
    case Renew(w, now) => RenewSafe(cfg, l, w, now);
    case Ack(w) => AckSafe(cfg, l, w);
    case Retry(w, error, now) => RetrySafe(cfg, l, w, error, now);
    case RemoveLetter(w) => RemoveLetterSafe(cfg, l, w);
    case ReadDead(_) => PlainReadSafe(cfg, l, a);
    case ReadLetter(w) => ReadLetterSafe(cfg, l, w);
    case SkipLetter(_) => PlainReadSafe(cfg, l, a);
    case Crash(_) => PlainReadSafe(cfg, l, a);
    case _ => RecoverSafe(cfg, l, a);
  }

  lemma {:induction false} RunSafe(cfg: Config, l: Log, actions: seq<Action>)
    requires Safe(l) && MarkersHold(cfg, l, actions)
    ensures Safe(ExecAll(cfg, l, actions))
    decreases |actions|
  {
    if actions != [] {
      StepSafe(cfg, l, actions[0]);
      RunSafe(cfg, Exec(cfg, l, actions[0]), actions[1..]);
    }
  }

  /** After every run: an accepted job that has not been acknowledged or removed as a dead letter is
      listed exactly once and its envelope still carries its payload; any other id is listed nowhere. */
  lemma NoLossNoDuplication(cfg: Config, actions: seq<Action>, id: Id)
    requires MarkersHold(cfg, BEGIN, actions)
    ensures var l := ExecAll(cfg, BEGIN, actions); var r := l.s.r;
      && (id in l.live ==>
            && multiset(r.ready)[id] + multiset(r.inflight)[id]
               + multiset(r.scheduled.Keys)[id] + multiset(r.dead)[id] == 1
            && id in r.envelopes && r.envelopes[id].jobId == id && r.envelopes[id].payload == l.live[id])
      && (id !in l.live ==> id !in r.ready && id !in r.inflight && id !in r.scheduled && id !in r.dead)
  {
    assert Safe(BEGIN);
    RunSafe(cfg, BEGIN, actions);
    var l := ExecAll(cfg, BEGIN, actions);
    assert SafeAt(l, id);
    Present(l, id);
  }

  lemma NothingToDrop(cfg: Config, l: Log, w: nat)
    requires Safe(l) && PcOf(l.s, w).Missing?
    ensures Act(cfg, l.s, DropMissing(w)).r == l.s.r
  {
    var id := PcOf(l.s, w).id;
    assert SafePc(l, PcOf(l.s, w));
    assert SafeAt(l, id);
    Present(l, id);
    RemoveFirstAbsent(l.s.r.inflight, id);
  }

  /** A claim that finds no envelope has hold of a job that already left the queue; its `LREM` removes
      nothing. */
  lemma MissingEnvelopeDropsNothing(cfg: Config, actions: seq<Action>, w: nat)
    requires MarkersHold(cfg, BEGIN, actions)
    ensures var l := ExecAll(cfg, BEGIN, actions); var pc := PcOf(l.s, w);
      pc.Missing? ==> pc.id in l.origin && pc.id !in l.live && Act(cfg, l.s, DropMissing(w)).r == l.s.r
  {
    assert Safe(BEGIN);
    RunSafe(cfg, BEGIN, actions);
    var l := ExecAll(cfg, BEGIN, actions);
    var pc := PcOf(l.s, w);
    assert SafePc(l, pc);
    if pc.Missing? {
      NothingToDrop(cfg, l, w);
    }
  }

  /** The ids that claims move to the in-flight list in a run, in order. */
  function Popped(cfg: Config, l: Log, actions: seq<Action>): seq<Id>
    decreases |actions|
  {
    if actions == [] then [] else
      PoppedBy(l, actions[0]) + Popped(cfg, Exec(cfg, l, actions[0]), actions[1..])
  }

  function PoppedBy(l: Log, a: Action): seq<Id> {
    if a.Pop? && PcOf(l.s, a.w).Idle? && l.s.r.ready != [] then [l.s.r.ready[|l.s.r.ready| - 1]] else []
  }

  /** The rightmost ready id was taken, or the ready ids stayed in place, perhaps behind a new one. */
  predicate ReadyMoved(ready: seq<Id>, ready': seq<Id>, popped: seq<Id>) {
    if popped != [] then ready != [] && popped == [ready[|ready| - 1]] && ready' == ready[..|ready| - 1]
    else |ready'| >= |ready| && ready'[|ready'| - |ready|..] == ready
  }

  lemma ReadyStep(cfg: Config, l: Log, a: Action)
    ensures ReadyMoved(l.s.r.ready, Exec(cfg, l, a).s.r.ready, PoppedBy(l, a))
  {
    var ready, ready' := l.s.r.ready, Exec(cfg, l, a).s.r.ready;
    if PoppedBy(l, a) == [] && ready' != ready {
      assert ready'[1..] == ready;
    }
  }

  /** The ready lists before each step of a run and after the last one. */
  function ReadyLists(cfg: Config, l: Log, actions: seq<Action>): (r: seq<seq<Id>>)
    ensures |r| == |actions| + 1 && r[0] == l.s.r.ready
    decreases |actions|
  {
    if actions == [] then [l.s.r.ready] else [l.s.r.ready] + ReadyLists(cfg, Exec(cfg, l, actions[0]), actions[1..])
  }

  function PopLists(cfg: Config, l: Log, actions: seq<Action>): (r: seq<seq<Id>>)
    ensures |r| == |actions|
    decreases |actions|
  {
    if actions == [] then [] else [PoppedBy(l, actions[0])] + PopLists(cfg, Exec(cfg, l, actions[0]), actions[1..])
  }

  predicate Moves(lists: seq<seq<Id>>, pops: seq<seq<Id>>)
    decreases |pops|
  {
    && |lists| == |pops| + 1
    && (pops != [] ==> ReadyMoved(lists[0], lists[1], pops[0]) && Moves(lists[1..], pops[1..]))
  }

  lemma {:induction false} StepsMove(cfg: Config, l: Log, actions: seq<Action>)
    ensures Moves(ReadyLists(cfg, l, actions), PopLists(cfg, l, actions))
    decreases |actions|
  {
    if actions != [] {
      ReadyStep(cfg, l, actions[0]);
      StepsMove(cfg, Exec(cfg, l, actions[0]), actions[1..]);
    }
  }

  function Flat(lists: seq<seq<Id>>): seq<Id> {
    if lists == [] then [] else lists[0] + Flat(lists[1..])
  }

  lemma {:induction false} PoppedIsFlat(cfg: Config, l: Log, actions: seq<Action>)
    ensures Popped(cfg, l, actions) == Flat(PopLists(cfg, l, actions))
    decreases |actions|
  {
    if actions != [] {
      PoppedIsFlat(cfg, Exec(cfg, l, actions[0]), actions[1..]);
    }
  }

  /** First in, first out, for any lists that move in this way. */
  lemma {:induction false} InOrder(lists: seq<seq<Id>>, pops: seq<seq<Id>>, p: nat)
    requires Moves(lists, pops)
    requires p < |lists[0]| && p < |Flat(pops)|
    ensures Flat(pops)[p] == lists[0][|lists[0]| - 1 - p]
    decreases |pops|
  {
    var popped, rest := pops[0], Flat(pops[1..]);
    if p >= |popped| {
      InOrder(lists[1..], pops[1..], p - |popped|);
    }
    PositionStep(lists[0], lists[1], popped, rest, p);
  }

  lemma PositionStep(ready: seq<Id>, ready': seq<Id>, popped: seq<Id>, rest: seq<Id>, p: nat)
    requires p < |ready| && p < |popped + rest| && ReadyMoved(ready, ready', popped)
    requires p >= |popped| ==> rest[p - |popped|] == ready'[|ready'| - 1 - (p - |popped|)]
    ensures (popped + rest)[p] == ready[|ready| - 1 - p]
  {
    if popped == [] {
      assert ready'[|ready'| - |ready|..][|ready| - 1 - p] == ready'[|ready'| - 1 - p];
    }
  }

  /** No overtaking: the job at position p from the right end is moved by the (p+1)-th claim from now on. */
  lemma NoOvertaking(cfg: Config, l: Log, actions: seq<Action>, p: nat)
    requires p < |l.s.r.ready| && p < |Popped(cfg, l, actions)|
    ensures Popped(cfg, l, actions)[p] == l.s.r.ready[|l.s.r.ready| - 1 - p]
  {
    PoppedIsFlat(cfg, l, actions);
    StepsMove(cfg, l, actions);
    InOrder(ReadyLists(cfg, l, actions), PopLists(cfg, l, actions), p);
  }
}

/** What the four separate commands of a claim allow, and the memory queue does not. */
module RedisRaces {
  import opened Basics
  import opened Envelopes
  import opened RedisCommands
  import opened RedisWorld

  const CFG: Config := Settings(1, 10.0, 1.0, 100.0)
  const JOB: Payload := Payload(Lit("null"), "p", "t", 0.0)
  const E0: Envelope := Envelope("j", JOB, 0, None, None)
  /** The envelope after the recovery, and after one and two claims of it. */
  const ER: Envelope := E0.(lastError := Some(LEASE_EXPIRED))
  const E1: Envelope := ER.(attempt := 1)
  const E2: Envelope := ER.(attempt := 2)

  /** A run that stays within the marker assumption, extended action by action. */
  datatype Story = Story(actions: seq<Action>, l: Log)

  ghost predicate Told(s: Story) {
    MarkersHold(CFG, BEGIN, s.actions) && ExecAll(CFG, BEGIN, s.actions) == s.l
  }

  lemma {:induction false} Extend(l: Log, actions: seq<Action>, a: Action)
    requires MarkersHold(CFG, l, actions)
    requires var end := ExecAll(CFG, l, actions);
      EventOf(CFG, end.s, a).Accepted? ==> EventOf(CFG, end.s, a).id !in end.origin
    ensures MarkersHold(CFG, l, actions + [a])
    ensures ExecAll(CFG, l, actions + [a]) == Exec(CFG, ExecAll(CFG, l, actions), a)
    decreases |actions|
  {
    var more := actions + [a];
    if actions == [] {
      assert more[1..] == [];
      assert ExecAll(CFG, Exec(CFG, l, a), []) == Exec(CFG, l, a);
    } else {
      assert more[1..] == actions[1..] + [a];
      Extend(Exec(CFG, l, actions[0]), actions[1..], a);
    }
  }

  /** The envelope that a claim writes back is that of a job in flight. */
  predicate InFlightWrite(l: Log, a: Action) {
    a.StoreClaim? && PcOf(l.s, a.w).Claiming? ==> PcOf(l.s, a.w).e.jobId in l.s.r.inflight
  }

  predicate InFlightWrites(l: Log, actions: seq<Action>)
    decreases |actions|
  {
    actions == [] || (InFlightWrite(l, actions[0]) && InFlightWrites(Exec(CFG, l, actions[0]), actions[1..]))
  }

  lemma {:induction false} ExtendWrites(l: Log, actions: seq<Action>, a: Action)
    requires InFlightWrites(l, actions) && InFlightWrite(ExecAll(CFG, l, actions), a)
    ensures InFlightWrites(l, actions + [a])
    decreases |actions|
  {
    var more := actions + [a];
    if actions == [] {
      assert more[1..] == [];
    } else {
      assert more[1..] == actions[1..] + [a];
      ExtendWrites(Exec(CFG, l, actions[0]), actions[1..], a);
    }
  }

  lemma Next(s: Story, a: Action) returns (s': Story)
    requires Told(s)
    requires EventOf(CFG, s.l.s, a).Accepted? ==> EventOf(CFG, s.l.s, a).id !in s.l.origin
    ensures Told(s') && s'.l == Exec(CFG, s.l, a)
    ensures InFlightWrites(BEGIN, s.actions) && InFlightWrite(s.l, a) ==> InFlightWrites(BEGIN, s'.actions)
  {
    Extend(BEGIN, s.actions, a);
    if InFlightWrites(BEGIN, s.actions) && InFlightWrite(s.l, a) { ExtendWrites(BEGIN, s.actions, a); }
    s' := Story(s.actions + [a], Exec(CFG, s.l, a));
  }

  /** The part of the queue that the story is about. */
  predicate At(l: Log, ready: seq<Id>, inflight: seq<Id>, envelopes: map<Id, Envelope>, leases: map<Id, real>) {
    var r := l.s.r;
    r.ready == ready && r.inflight == inflight && r.envelopes == envelopes && r.leases == leases
  }

  predicate Are(l: Log, pc1: Pc, pc2: Pc, pc3: Pc) {
    PcOf(l.s, 1) == pc1 && PcOf(l.s, 2) == pc2 && PcOf(l.s, 3) == pc3
  }

  /** One more action, with the world and the live jobs after it spelled out. */
  predicate Onward(s: Story, s': Story, r: Redis, w: nat, pc: Pc) {
    s'.l.s == World(r, s.l.s.pcs[w := pc])
  }

  lemma Pops(s: Story, w: nat) returns (s': Story)
    requires Told(s) && PcOf(s.l.s, w).Idle? && s.l.s.r.ready != []
    ensures Told(s') && Onward(s, s', PopCommand(s.l.s.r).0, w, Moved(s.l.s.r.ready[|s.l.s.r.ready| - 1]))
    ensures s'.l.live == s.l.live && (InFlightWrites(BEGIN, s.actions) ==> InFlightWrites(BEGIN, s'.actions))
  {
    s' := Next(s, Pop(w));
  }

  lemma Reads(s: Story, w: nat) returns (s': Story)
    requires Told(s) && PcOf(s.l.s, w).Moved? && PcOf(s.l.s, w).id in s.l.s.r.envelopes
    ensures Told(s') && Onward(s, s', s.l.s.r, w, Claiming(Claimed(s.l.s.r.envelopes[PcOf(s.l.s, w).id])))
    ensures s'.l.live == s.l.live && (InFlightWrites(BEGIN, s.actions) ==> InFlightWrites(BEGIN, s'.actions))
  {
    s' := Next(s, ReadMoved(w));
  }

  lemma Stores(s: Story, w: nat) returns (s': Story)
    requires Told(s) && PcOf(s.l.s, w).Claiming?
    ensures var e := PcOf(s.l.s, w).e;
      && Told(s') && Onward(s, s', s.l.s.r.(envelopes := s.l.s.r.envelopes[e.jobId := e]), w, Stored(e))
      && s'.l.live == s.l.live
      && (InFlightWrites(BEGIN, s.actions) && e.jobId in s.l.s.r.inflight ==> InFlightWrites(BEGIN, s'.actions))
  {
    s' := Next(s, StoreClaim(w));
  }

  lemma Leases(s: Story, w: nat) returns (s': Story)
    requires Told(s) && PcOf(s.l.s, w).Stored?
    ensures var e := PcOf(s.l.s, w).e;
      && Told(s') && Onward(s, s', s.l.s.r.(leases := s.l.s.r.leases[e.jobId := CFG.lease]), w, Holding(e))
      && s'.l.live == s.l.live
  {
    s' := Next(s, AddLease(w, 0.0));
  }

  /** Process 1 moves the job to the in-flight list and pauses. */
  lemma Submitted() returns (s: Story)
    ensures Told(s) && At(s.l, ["j"], [], map["j" := E0], map[]) && Are(s.l, Idle, Idle, Idle)
    ensures InFlightWrites(BEGIN, s.actions)
  {
    s := Story([], BEGIN);
    s := Next(s, Enqueue("j", JOB, 0.0));
  }

  lemma Moving() returns (s: Story)
    ensures Told(s) && At(s.l, [], ["j"], map["j" := E0], map[]) && Are(s.l, Moved("j"), Idle, Idle)
    ensures InFlightWrites(BEGIN, s.actions)
  {
    s := Submitted();
    s := Pops(s, 1);
  }

  /** Process 2 looks for expired leases. */
  lemma Looking() returns (s: Story)
    ensures Told(s) && At(s.l, [], ["j"], map["j" := E0], map[]) && Are(s.l, Moved("j"), Expired({}), Idle)
    ensures InFlightWrites(BEGIN, s.actions)
  {
    s := Moving();
    s := Next(s, ReadLeases(2, 0.0));
  }

  lemma Looked() returns (s: Story)
    ensures Told(s) && At(s.l, [], ["j"], map["j" := E0], map[]) && Are(s.l, Moved("j"), Scanning({}, ["j"]), Idle)
    ensures InFlightWrites(BEGIN, s.actions)
  {
    s := Looking();
    s := Next(s, ReadInflight(2));
  }

  lemma Scanned() returns (s: Story)
    ensures Told(s) && At(s.l, [], ["j"], map["j" := E0], map[]) && Are(s.l, Moved("j"), Scanning({"j"}, []), Idle)
    ensures InFlightWrites(BEGIN, s.actions)
  {
    s := Looked();
    s := Next(s, ReadScore(2));
  }

  /** It sees an in-flight id without a lease. */
  lemma Noticed() returns (s: Story)
    ensures Told(s) && At(s.l, [], ["j"], map["j" := E0], map[]) && Are(s.l, Moved("j"), Recovering({"j"}), Idle)
    ensures InFlightWrites(BEGIN, s.actions)
  {
    s := Scanned();
    s := Next(s, ReadScore(2));
  }

  lemma FetchedIt() returns (s: Story)
    ensures Told(s) && At(s.l, [], ["j"], map["j" := E0], map[]) && Are(s.l, Moved("j"), Fetched({}, E0), Idle)
    ensures InFlightWrites(BEGIN, s.actions)
  {
    s := Noticed();
    s := Next(s, FetchExpired(2, "j"));
  }

  /** It requeues the job, which process 1 still believes to be moving. */
  lemma Requeued() returns (s: Story)
    ensures Told(s) && At(s.l, ["j"], [], map["j" := ER], map[]) && Are(s.l, Moved("j"), Recovering({}), Idle)
    ensures InFlightWrites(BEGIN, s.actions)
  {
    s := FetchedIt();
    s := Next(s, RunRecover(2));
  }

  lemma ClaimsRequeued() returns (s: Story)
    ensures Told(s) && At(s.l, ["j"], [], map["j" := ER], map[]) && Are(s.l, Claiming(E1), Recovering({}), Idle)
  {
    s := Requeued();
    s := Reads(s, 1);
  }

  /** Process 1 goes on, so the waiting job has used up its attempts. */
  lemma AttemptBoundFails() returns (s: Story)
    ensures Told(s)
    ensures At(s.l, ["j"], [], map["j" := E1], map[]) && E1.attempt == CFG.maxAttempts
    ensures Are(s.l, Stored(E1), Recovering({}), Idle)
  {
    s := ClaimsRequeued();
    s := Stores(s, 1);
  }

  /** A lease for a job that is not in flight. */
  lemma LeaseWithoutFlight() returns (s: Story)
    ensures Told(s) && At(s.l, ["j"], [], map["j" := E1], map["j" := 10.0])
  {
    s := AttemptBoundFails();
    s := Leases(s, 1);
  }

  lemma TakenOver() returns (s: Story)
    ensures Told(s) && At(s.l, [], ["j"], map["j" := ER], map[]) && Are(s.l, Moved("j"), Recovering({}), Moved("j"))
    ensures InFlightWrites(BEGIN, s.actions)
  {
    s := Requeued();
    s := Pops(s, 3);
  }

  lemma OtherReads() returns (s: Story)
    ensures Told(s) && At(s.l, [], ["j"], map["j" := ER], map[])
    ensures Are(s.l, Moved("j"), Recovering({}), Claiming(E1)) && InFlightWrites(BEGIN, s.actions)
  {
    s := TakenOver();
    s := Reads(s, 3);
  }

  lemma OtherWrites() returns (s: Story)
    ensures Told(s) && At(s.l, [], ["j"], map["j" := E1], map[])
    ensures Are(s.l, Moved("j"), Recovering({}), Stored(E1)) && InFlightWrites(BEGIN, s.actions)
  {
    s := OtherReads();
    s := Stores(s, 3);
  }

  lemma ReadsTheLast() returns (s: Story)
    ensures Told(s) && At(s.l, [], ["j"], map["j" := E1], map[])
    ensures Are(s.l, Claiming(E2), Recovering({}), Stored(E1)) && InFlightWrites(BEGIN, s.actions)
  {
    s := OtherWrites();
    s := Reads(s, 1);
  }

  /** A claim beyond the cap, attempt 2 with a cap of 1, although the job is in flight whenever a claim
      writes: two claims of it count two attempts. */
  lemma CapExceeded() returns (s: Story)
    ensures Told(s) && InFlightWrites(BEGIN, s.actions)
    ensures At(s.l, [], ["j"], map["j" := E2], map[]) && E2.attempt > CFG.maxAttempts
  {
    s := ReadsTheLast();
    s := Stores(s, 1);
  }

  lemma BothClaiming() returns (s: Story)
    ensures Told(s) && At(s.l, [], ["j"], map["j" := ER], map[]) && Are(s.l, Claiming(E1), Recovering({}), Claiming(E1))
  {
    s := OtherReads();
    s := Reads(s, 1);
  }

  lemma SecondStores() returns (s: Story)
    ensures Told(s) && At(s.l, [], ["j"], map["j" := E1], map[]) && Are(s.l, Claiming(E1), Recovering({}), Stored(E1))
  {
    s := BothClaiming();
    s := Stores(s, 3);
  }

  lemma SecondHolds() returns (s: Story)
    ensures Told(s) && At(s.l, [], ["j"], map["j" := E1], map["j" := 10.0])
    ensures Are(s.l, Claiming(E1), Recovering({}), Holding(E1))
  {
    s := SecondStores();
    s := Leases(s, 3);
  }

  lemma SecondFinishes() returns (s: Story)
    ensures Told(s) && At(s.l, [], [], map[], map[]) && Are(s.l, Claiming(E1), Recovering({}), Idle)
    ensures "j" !in s.l.live
  {
    s := SecondHolds();
    s := Next(s, Ack(3));
  }

  lemma WrittenLate() returns (s: Story)
    ensures Told(s) && At(s.l, [], [], map["j" := E1], map[]) && Are(s.l, Stored(E1), Recovering({}), Idle)
    ensures "j" !in s.l.live
  {
    s := SecondFinishes();
    s := Stores(s, 1);
  }

  /** Process 3 finishes the job before process 1 writes: an envelope and a lease stay behind for a job
      that is listed nowhere. */
  lemma EnvelopeLeftBehind() returns (s: Story)
    ensures Told(s) && At(s.l, [], [], map["j" := E1], map["j" := 10.0]) && "j" !in s.l.live
  {
    s := WrittenLate();
    s := Leases(s, 1);
  }
}
