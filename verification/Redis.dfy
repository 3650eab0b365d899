/** The Redis backend: the keys of one queue and what each command or script does to them. Index 0 of a
    list is its left end. */
module RedisCommands {
  import opened Basics
  import opened Envelopes
  import QueueSpec

  datatype Redis = Redis(
    markers: map<Id, real>,
    envelopes: map<Id, Envelope>,
    ready: seq<Id>,
    inflight: seq<Id>,
    leases: map<Id, real>,
    scheduled: map<Id, real>,
    dead: seq<Id>)

  const EMPTY_REDIS: Redis := Redis(map[], map[], [], [], map[], map[], [])

  /** SET NX EX on the marker, then HSET and LPUSH. */
  function EnqueueScript(r: Redis, e: Envelope, now: real, ttl: real): (Redis, bool) {
    var id := e.jobId;
    if id in r.markers && r.markers[id] > now then (r, false)
    else (r.(markers := r.markers[id := now + ttl], envelopes := r.envelopes[id := e], ready := [id] + r.ready), true)
  }

  function AckScript(r: Redis, id: Id): (Redis, bool) {
    if id !in r.inflight then (r, false)
    else (r.(inflight := RemoveFirst(r.inflight, id), leases := r.leases - {id}, envelopes := r.envelopes - {id}), true)
  }

  function RetryScript(r: Redis, e: Envelope, at: real): (Redis, bool) {
    var id := e.jobId;
    if id !in r.inflight then (r, false)
    else (r.(inflight := RemoveFirst(r.inflight, id), leases := r.leases - {id},
             envelopes := r.envelopes[id := e], scheduled := r.scheduled[id := at]), true)
  }

  function DeadScript(r: Redis, e: Envelope): (Redis, bool) {
    var id := e.jobId;
    if id !in r.inflight then (r, false)
    else (r.(inflight := RemoveFirst(r.inflight, id), leases := r.leases - {id},
             envelopes := r.envelopes[id := e], dead := [id] + r.dead), true)
  }

  /** The recovery script with the ready list as its destination; with the dead list it is `DeadScript`. */
  function RequeueScript(r: Redis, e: Envelope): (Redis, bool) {
    var id := e.jobId;
    if id !in r.inflight then (r, false)
    else (r.(inflight := RemoveFirst(r.inflight, id), leases := r.leases - {id},
             envelopes := r.envelopes[id := e], ready := [id] + r.ready), true)
  }

  /** Recovery of one claim, with the envelope read earlier. */
  function RecoverOne(cfg: Config, r: Redis, e: Envelope): (Redis, bool) {
    var updated := e.(lastError := Some(LEASE_EXPIRED));
    if e.attempt >= cfg.maxAttempts then DeadScript(r, updated) else RequeueScript(r, updated)
  }

  function PromoteScript(r: Redis, id: Id): (Redis, bool) {
    if id !in r.scheduled then (r, false)
    else (r.(scheduled := r.scheduled - {id}, ready := [id] + r.ready), true)
  }

  function RenewScript(r: Redis, id: Id, until: real): (Redis, bool) {
    if id !in r.leases then (r, false) else (r.(leases := r.leases[id := until]), true)
  }

  function RemoveDeadScript(r: Redis, id: Id): (Redis, bool) {
    if id !in r.dead then (r, false)
    else (r.(dead := RemoveFirst(r.dead, id), envelopes := r.envelopes - {id}), true)
  }

  /** The retry and dead-letter branches of `retry`, decided by the holder's own envelope. */
  function RetryCommand(cfg: Config, r: Redis, e: Envelope, error: string, now: real): (Redis, bool) {
    if e.attempt >= cfg.maxAttempts then DeadScript(r, e.(retryAt := None, lastError := Some(error)))
    else
      var at := now + QueueSpec.Delay(cfg, e.attempt);
      RetryScript(r, e.(retryAt := Some(at), lastError := Some(error)), at)
  }

  /** BRPOPLPUSH from the ready list to the in-flight list. */
  function PopCommand(r: Redis): (Redis, Option<Id>) {
    if r.ready == [] then (r, None) else
      var id := r.ready[|r.ready| - 1];
      (r.(ready := r.ready[..|r.ready| - 1], inflight := [id] + r.inflight), Some(id))
  }

  /** ZRANGEBYSCORE from minus infinity to `now`, as a set. */
  function UpTo(scores: map<Id, real>, now: real): set<Id> {
    set id <- scores.Keys | scores[id] <= now
  }

  /** The attempt count and cleared retry time that a claim writes back. */
  function Claimed(e: Envelope): Envelope {
    e.(attempt := e.attempt + 1, retryAt := None)
  }
}

/** Any number of processes on one Redis queue, interleaved one command or script at a time. A process
    may crash between any two of them. */
module RedisWorld {
  import opened Basics
  import opened Envelopes
  import opened RedisCommands
  import QueueSpec

  /** Where a process is inside the operation it is performing, with what it has read so far. */
  datatype Pc =
    | Idle
    | Expired(ids: set<Id>)
    | Scanning(ids: set<Id>, todo: seq<Id>)
    | Recovering(ids: set<Id>)
    | Fetched(ids: set<Id>, e: Envelope)
    | Promoting(due: seq<Id>)
    | Moved(id: Id)
    | Missing(id: Id)
    | Claiming(e: Envelope)
    | Stored(e: Envelope)
    | Holding(e: Envelope)
    | Listing(todo: seq<Id>, got: seq<Envelope>)
    | Draining(got: seq<Envelope>)

  datatype World = World(r: Redis, pcs: map<nat, Pc>)

  const START: World := World(EMPTY_REDIS, map[])

  function PcOf(s: World, w: nat): Pc {
    if w in s.pcs then s.pcs[w] else Idle
  }

  function Goto(s: World, w: nat, pc: Pc): World {
    s.(pcs := s.pcs[w := pc])
  }

  function Do(s: World, r: Redis, w: nat, pc: Pc): World {
    World(r, s.pcs[w := pc])
  }

  datatype Action =
    | Enqueue(id: Id, p: Payload, now: real)
    | ReadLeases(w: nat, now: real)
    | ReadInflight(w: nat)
    | ReadScore(w: nat)
    | FetchExpired(w: nat, id: Id)
    | RunRecover(w: nat)
    | ReadDue(w: nat, now: real, order: seq<Id>)
    | RunPromote(w: nat)
    | Pop(w: nat)
    | ReadMoved(w: nat)
    | DropMissing(w: nat)
    | StoreClaim(w: nat)
    | AddLease(w: nat, now: real)
    | Renew(w: nat, now: real)
    | Ack(w: nat)
    | Retry(w: nat, error: string, now: real)
    | ReadDead(w: nat)
    | ReadLetter(w: nat)
    | RemoveLetter(w: nat)
    | SkipLetter(w: nat)
    | Crash(w: nat)

  /** The commands of `recover_stale`: two reads, one score per in-flight id, then one envelope read and
      one script per expired id, in any order. */
  function ActRecover(cfg: Config, s: World, a: Action): World
    requires a.ReadLeases? || a.ReadInflight? || a.ReadScore? || a.FetchExpired? || a.RunRecover?
  {
    var pc := PcOf(s, a.w);
    match a
    case ReadLeases(w, now) => if pc.Idle? then Goto(s, w, Expired(UpTo(s.r.leases, now))) else s
    case ReadInflight(w) => if pc.Expired? then Goto(s, w, Scanning(pc.ids, s.r.inflight)) else s
    case ReadScore(w) =>
      if !pc.Scanning? then s
      else if pc.todo == [] then Goto(s, w, Recovering(pc.ids))
      else Goto(s, w, Scanning(if pc.todo[0] in s.r.leases then pc.ids else pc.ids + {pc.todo[0]}, pc.todo[1..]))
    case FetchExpired(w, id) =>
      if !pc.Recovering? then s
      else if pc.ids == {} then Goto(s, w, Idle)
      else if id !in pc.ids then s
      else if id !in s.r.envelopes then Goto(s, w, Recovering(pc.ids - {id}))
      else Goto(s, w, Fetched(pc.ids - {id}, s.r.envelopes[id]))
    case RunRecover(w) =>
      if pc.Fetched? then Do(s, RecoverOne(cfg, s.r, pc.e).0, w, Recovering(pc.ids)) else s
  }

  /** The four commands of `claim`, after recovery and promotion. */
  function ActClaim(cfg: Config, s: World, a: Action): World
    requires a.Pop? || a.ReadMoved? || a.DropMissing? || a.StoreClaim? || a.AddLease?
  {
    var pc := PcOf(s, a.w);
    match a
    case Pop(w) =>
      if !pc.Idle? then s else
        var (r, id) := PopCommand(s.r);
        if id.None? then s else Do(s, r, w, Moved(id.value))
    case ReadMoved(w) =>
      if !pc.Moved? then s
      else if pc.id in s.r.envelopes then Goto(s, w, Claiming(Claimed(s.r.envelopes[pc.id])))
      else Goto(s, w, Missing(pc.id))
    case DropMissing(w) =>
      if pc.Missing? then Do(s, s.r.(inflight := RemoveFirst(s.r.inflight, pc.id)), w, Idle) else s
    case StoreClaim(w) =>
      if pc.Claiming? then Do(s, s.r.(envelopes := s.r.envelopes[pc.e.jobId := pc.e]), w, Stored(pc.e)) else s
    case AddLease(w, now) =>
      if pc.Stored? then Do(s, s.r.(leases := s.r.leases[pc.e.jobId := now + cfg.lease]), w, Holding(pc.e)) else s
  }

  function Act(cfg: Config, s: World, a: Action): World {
    match a
    case Enqueue(id, p, now) =>
      if QueueSpec.Refused(id, p) then s
      else s.(r := EnqueueScript(s.r, Envelope(id, p, 0, None, None), now, cfg.ttl).0)
    case ReadLeases(_, _) => ActRecover(cfg, s, a)
    case ReadInflight(_) => ActRecover(cfg, s, a)
    case ReadScore(_) => ActRecover(cfg, s, a)
    case FetchExpired(_, _) => ActRecover(cfg, s, a)
    case RunRecover(_) => ActRecover(cfg, s, a)
    case ReadDue(w, now, order) =>
      if PcOf(s, w).Idle? && ToSet(order) == UpTo(s.r.scheduled, now) then Goto(s, w, Promoting(order)) else s
    case RunPromote(w) =>
      var pc := PcOf(s, w);
      if !pc.Promoting? then s
      else if pc.due == [] then Goto(s, w, Idle)
      else Do(s, PromoteScript(s.r, pc.due[0]).0, w, Promoting(pc.due[1..]))
    case Pop(_) => ActClaim(cfg, s, a)
    case ReadMoved(_) => ActClaim(cfg, s, a)
    case DropMissing(_) => ActClaim(cfg, s, a)
    case StoreClaim(_) => ActClaim(cfg, s, a)
    case AddLease(_, _) => ActClaim(cfg, s, a)
    case Renew(w, now) =>
      var pc := PcOf(s, w);
      if pc.Holding? then s.(r := RenewScript(s.r, pc.e.jobId, now + cfg.lease).0) else s
    case Ack(w) =>
      var pc := PcOf(s, w);
      if pc.Holding? then Do(s, AckScript(s.r, pc.e.jobId).0, w, Idle) else s
    case Retry(w, error, now) =>
      var pc := PcOf(s, w);
      if pc.Holding? then Do(s, RetryCommand(cfg, s.r, pc.e, error, now).0, w, Idle) else s
    case ReadDead(w) => if PcOf(s, w).Idle? then Goto(s, w, Listing(s.r.dead, [])) else s
    case ReadLetter(w) =>
      var pc := PcOf(s, w);
      if !pc.Listing? then s
      else if pc.todo == [] then Goto(s, w, Draining(pc.got))
      else Goto(s, w, Listing(pc.todo[1..],
        pc.got + if pc.todo[0] in s.r.envelopes then [s.r.envelopes[pc.todo[0]]] else []))
    case RemoveLetter(w) =>
      var pc := PcOf(s, w);
      if !pc.Draining? || pc.got == [] then s
      else Do(s, RemoveDeadScript(s.r, pc.got[0].jobId).0, w, Draining(pc.got[1..]))
    case SkipLetter(w) =>
      var pc := PcOf(s, w);
      if !pc.Draining? then s
      else Goto(s, w, if pc.got == [] then Idle else Draining(pc.got[1..]))
    case Crash(w) => Goto(s, w, Idle)
  }

  /** What the reply of a script told its caller: a job was accepted, or left the queue for good. */
  datatype Event = Accepted(id: Id, p: Payload) | Removed(id: Id) | Quiet

  function EventOf(cfg: Config, s: World, a: Action): Event {
    match a
    case Enqueue(id, p, now) =>
      if !QueueSpec.Refused(id, p) && EnqueueScript(s.r, Envelope(id, p, 0, None, None), now, cfg.ttl).1
      then Accepted(id, p) else Quiet
    case Ack(w) =>
      var pc := PcOf(s, w);
      if pc.Holding? && AckScript(s.r, pc.e.jobId).1 then Removed(pc.e.jobId) else Quiet
    case RemoveLetter(w) =>
      var pc := PcOf(s, w);
      if pc.Draining? && pc.got != [] && RemoveDeadScript(s.r, pc.got[0].jobId).1
      then Removed(pc.got[0].jobId) else Quiet
    case _ => Quiet
  }

  /** The world, the jobs ever accepted, and those of them that have not left the queue, by the replies. */
  datatype Log = Log(s: World, origin: map<Id, Payload>, live: map<Id, Payload>)

  const BEGIN: Log := Log(START, map[], map[])

  function Note(l: Log, ev: Event): Log {
    match ev
    case Accepted(id, p) => l.(origin := l.origin[id := p], live := l.live[id := p])
    case Removed(id) => l.(live := l.live - {id})
    case Quiet => l
  }

  function Exec(cfg: Config, l: Log, a: Action): Log {
    Note(l, EventOf(cfg, l.s, a)).(s := Act(cfg, l.s, a))
  }

  function ExecAll(cfg: Config, l: Log, actions: seq<Action>): Log
    decreases |actions|
  {
    if actions == [] then l else ExecAll(cfg, Exec(cfg, l, actions[0]), actions[1..])
  }

  /** Markers do not run out: no id is accepted twice. */
  predicate MarkersHold(cfg: Config, l: Log, actions: seq<Action>)
    decreases |actions|
  {
    actions == [] ||
    (var ev := EventOf(cfg, l.s, actions[0]);
     && (ev.Accepted? ==> ev.id !in l.origin)
     && MarkersHold(cfg, Exec(cfg, l, actions[0]), actions[1..]))
  }
}
