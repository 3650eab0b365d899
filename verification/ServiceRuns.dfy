/** Runs of whole calls over the stores, by handlers and by workers: counts stay exact and reports gated,
    under conditions that are exact for each call. */
module ServiceRuns {
  import opened Basics
  import opened Envelopes
  import opened QueueSpec
  import opened Protocol
  import opened ProtocolRuns
  import opened ReportGating
  import opened HandlerSpec
  import W = WorkerProcess

  datatype Request =
    | Post(id: Id, p: Payload, now: real, rival: Option<Payload>)
    | ApproveJob(who: Principal, id: Id)
    | RejectJob(who: Principal, id: Id)
    | Process(e: Envelope, run: W.Run)

  function Answered(rules: Rules, o: Office, r: Request): Office {
    match r
    case Post(id, p, now, rival) => Posted(rules, o, id, p, now, rival).0
    case ApproveJob(who, id) => AfterReview(o, id, Approval(o.jobs, o.results, who, id))
    case RejectJob(who, id) => AfterReview(o, id, Rejection(o.jobs, who, id))
    case Process(e, run) =>
      var v := W.Called(rules, W.Shelves(o.jobs, o.results, o.slots), e, run).0;
      Office(o.m, v.jobs, v.results, v.slots)
  }

  /** A delivered job belongs to the tenant of its record. */
  predicate CanAsk(o: Office, r: Request) {
    match r
    case Post(id, p, _, rival) => CanPost(id, p, rival)
    case Process(e, _) => e.jobId in o.jobs ==> o.jobs[e.jobId].tenant == e.payload.tenant
    case _ => true
  }

  /** No submission loses the race to one that the queue refuses, and no delivered job has been finalised
      before; with no slot taken, the floor at zero hides some of these. */
  predicate Smooth(rules: Rules, o: Office, r: Request) {
    match r
    case Post(id, p, now, rival) => !WinnerRefused(rules, o, id, p, now, rival) || SlotOf(o.slots, p.tenant) == 0
    case Process(e, run) =>
      e.jobId in o.jobs ==>
        || Active(o.jobs[e.jobId].status)
        || (SlotOf(o.slots, e.payload.tenant) == 0 && Final(rules, o.jobs[e.jobId].status, e, run))
    case _ => true
  }

  /** The call finalises the job again, and leaves no report in a failed record. */
  predicate Final(rules: Rules, status: Status, e: Envelope, run: W.Run) {
    run.Reported? || (e.attempt >= rules.cfg.maxAttempts && !status.Approved?)
  }

  /** The counts after one record is rewritten and, perhaps, one slot given back. */
  lemma Rewritten(rules: Rules, o: Office, o': Office, id: Id, back: bool)
    requires Balanced(rules.limit, o.jobs, o.slots) && id in o.jobs && id in o'.jobs
    requires o'.jobs == o.jobs[id := o'.jobs[id]] && o'.jobs[id].tenant == o.jobs[id].tenant
    requires o'.slots == if back then Release(o.slots, o.jobs[id].tenant) else o.slots
    ensures var t, before, after := o.jobs[id].tenant, Active(o.jobs[id].status), Active(o'.jobs[id].status);
      Balanced(rules.limit, o'.jobs, o'.slots) <==>
        (if back then (before && !after) || (before == after && SlotOf(o.slots, t) == 0) else before == after)
  {
    var t := o.jobs[id].tenant;
    forall u ensures |ActiveOf(o'.jobs, u)| == |ActiveOf(o.jobs, u)| - JobWeight(o.jobs, id, u) + JobWeight(o'.jobs, id, u) {
      JobWritten(o.jobs, id, o'.jobs[id], u);
    }
    assert SlotOf(o.slots, t) == |ActiveOf(o.jobs, t)| <= rules.limit;
    if Active(o.jobs[id].status) { assert id in ActiveOf(o.jobs, t); }
    if Balanced(rules.limit, o'.jobs, o'.slots) {
      assert SlotOf(o'.slots, t) == |ActiveOf(o'.jobs, t)|;
    } else {
      var u :| !(SlotOf(o'.slots, u) == |ActiveOf(o'.jobs, u)| <= rules.limit);
      assert SlotOf(o.slots, u) == |ActiveOf(o.jobs, u)| <= rules.limit;
    }
  }

  lemma ProcessShown(rules: Rules, o: Office, e: Envelope, run: W.Run)
    requires rules.approval && (forall x :: ShownOk(o.jobs, o.results, x)) && e.jobId in o.jobs
    ensures var o' := Answered(rules, o, Process(e, run));
      (forall x :: ShownOk(o'.jobs, o'.results, x)) <==> run.Reported? || !o.jobs[e.jobId].status.Approved?
  {
    var o', id := Answered(rules, o, Process(e, run)), e.jobId;
    assert ShownOk(o.jobs, o.results, id);
    if run.Reported? || !o.jobs[id].status.Approved? {
      forall x ensures ShownOk(o'.jobs, o'.results, x) { assert ShownOk(o.jobs, o.results, x); }
    } else {
      assert !ShownOk(o'.jobs, o'.results, id);
    }
  }

  lemma ProcessExactly(rules: Rules, o: Office, e: Envelope, run: W.Run)
    requires InOrder(rules, o) && rules.approval && CanAsk(o, Process(e, run))
    ensures InOrder(rules, Answered(rules, o, Process(e, run))) <==> Smooth(rules, o, Process(e, run))
  {
    var o' := Answered(rules, o, Process(e, run));
    if e.jobId in o.jobs {
      assert ShownOk(o.jobs, o.results, e.jobId);
      ProcessShown(rules, o, e, run);
      var back := run.Reported? || e.attempt >= rules.cfg.maxAttempts;
      assert o'.jobs == o.jobs[e.jobId := o'.jobs[e.jobId]];
      Rewritten(rules, o, o', e.jobId, back);
    }
  }

  /** Every call leaves the stores in order if and only if it is smooth. */
  lemma AnsweredExactly(rules: Rules, o: Office, r: Request)
    requires InOrder(rules, o) && rules.approval && CanAsk(o, r)
    ensures InOrder(rules, Answered(rules, o, r)) <==> Smooth(rules, o, r)
  {
    match r
    case Post(id, p, now, rival) => PostedExactly(rules, o, id, p, now, rival);
    case ApproveJob(who, id) => ReviewInOrder(rules, o, who, id, Approval(o.jobs, o.results, who, id));
    case RejectJob(who, id) => ReviewInOrder(rules, o, who, id, Rejection(o.jobs, who, id));
    case Process(e, run) => ProcessExactly(rules, o, e, run);
  }

  predicate AllSmooth(rules: Rules, o: Office, rs: seq<Request>)
    decreases |rs|
  {
    rs == [] ||
    (CanAsk(o, rs[0]) && Smooth(rules, o, rs[0]) && AllSmooth(rules, Answered(rules, o, rs[0]), rs[1..]))
  }

  function AnsweredAll(rules: Rules, o: Office, rs: seq<Request>): Office
    decreases |rs|
  {
    if rs == [] then o else AnsweredAll(rules, Answered(rules, o, rs[0]), rs[1..])
  }

  lemma {:induction false} RunInOrder(rules: Rules, o: Office, rs: seq<Request>)
    requires InOrder(rules, o) && rules.approval && AllSmooth(rules, o, rs)
    ensures InOrder(rules, AnsweredAll(rules, o, rs))
    decreases |rs|
  {
    if rs != [] {
      AnsweredExactly(rules, o, rs[0]);
      RunInOrder(rules, Answered(rules, o, rs[0]), rs[1..]);
    }
  }

  /** After any smooth run of calls on empty stores, whatever markers are left: every tenant's count is the
      number of its active jobs and within the limit, and a record shows a report if and only if it is
      approved, which is then the stored result. */
  lemma ServiceStaysInOrder(rules: Rules, left: map<Id, real>, rs: seq<Request>, t: Tenant, id: Id)
    requires rules.approval && AllSmooth(rules, Office(EMPTY_QUEUE.(known := left), map[], map[], map[]), rs)
    ensures var o := AnsweredAll(rules, Office(EMPTY_QUEUE.(known := left), map[], map[], map[]), rs);
      && SlotOf(o.slots, t) == |ActiveOf(o.jobs, t)| <= rules.limit
      && (id in o.jobs ==>
            && (o.jobs[id].report.Some? <==> o.jobs[id].status.Approved?)
            && (o.jobs[id].status.Approved? ==> id in o.results && o.jobs[id].report == o.results[id]))
  {
    var o0 := Office(EMPTY_QUEUE.(known := left), map[], map[], map[]);
    forall u ensures SlotOf(o0.slots, u) == |ActiveOf(o0.jobs, u)| { assert ActiveOf(map[], u) == {}; }
    RunInOrder(rules, o0, rs);
    assert ShownOk(AnsweredAll(rules, o0, rs).jobs, AnsweredAll(rules, o0, rs).results, id);
  }

  // The submissions of `HandlerSpec` are the protocol's, with nothing else interleaved.

  function OfficeOf(s: Sys): Office {
    Office(s.h.m, s.jobs, s.results, s.slots)
  }

  /** A handler's steps up to its slot. */
  function Arrived(rules: Rules, s: Sys, k: nat, id: Id, p: Payload): Sys {
    SlotAcquired(rules, LookedUp(Submitted(s, k, id, p), k), k)
  }

  /** Its steps after its record; those that do not apply do nothing. */
  function Departed(rules: Rules, s: Sys, k: nat, now: real): Sys {
    SlotReleased(RecordDropped(JobEnqueued(rules, s, k, now), k), k, Deleted, Done(QueueRejected))
  }

  /** The second look of a handler that lost the race. */
  function LookedAgain(s: Sys, k: nat): Sys {
    SlotReleased(Reread(s, k), k, Vanished, Done(Unavailable))
  }

  /** Only submission `k` and the stores differ. */
  predicate OnlySub(s: Sys, s': Sys, k: nat, id: Id, p: Payload, pc: SubPc) {
    s'.subs == s.subs[k := Sub(id, p, pc)] && s'.results == s.results
  }

  lemma ArrivedAt(rules: Rules, s: Sys, k: nat, id: Id, p: Payload)
    requires k !in s.subs && !QueueSpec.Refused(id, p)
    ensures var s' := Arrived(rules, s, k, id, p); var (slots, got) := Acquire(s.slots, rules.limit, p.tenant);
      && s'.h == s.h && s'.jobs == s.jobs
      && (if id in s.jobs then OnlySub(s, s', k, id, p, Done(Existing)) && s'.slots == s.slots
          else OnlySub(s, s', k, id, p, if got then HasSlot else Done(LimitReached)) && s'.slots == slots)
  {
    var s1 := Submitted(s, k, id, p);
    assert s1 == s.(subs := s.subs[k := Sub(id, p, Start)]);
    var s2 := LookedUp(s1, k);
    var pc := if id in s.jobs then Done(Existing) else Absent;
    Overwritten(s.subs, k, Sub(id, p, Start), Sub(id, p, pc));
    assert s2 == s.(subs := s.subs[k := Sub(id, p, pc)]);
    if id !in s.jobs {
      var got := Acquire(s.slots, rules.limit, p.tenant).1;
      Overwritten(s.subs, k, Sub(id, p, pc), Sub(id, p, if got then HasSlot else Done(LimitReached)));
    }
  }

  lemma Overwritten(subs: map<nat, Sub>, k: nat, a: Sub, b: Sub)
    ensures subs[k := a][k := b] == subs[k := b]
  {
  }

  /** The queue refused the job: record and slot go. */
  lemma RefusedDeparts(s: Sys, k: nat, id: Id, p: Payload)
    requires k in s.subs && s.subs[k] == Sub(id, p, Refused)
    ensures var s' := SlotReleased(RecordDropped(s, k), k, Deleted, Done(QueueRejected));
      && OfficeOf(s') == OfficeOf(s).(jobs := s.jobs - {id}, slots := Release(s.slots, p.tenant))
      && OnlySub(s, s', k, id, p, Done(QueueRejected))
  {
    var s1 := RecordDropped(s, k);
    assert s1.subs == s.subs[k := Sub(id, p, Deleted)] && s1.jobs == s.jobs - {id};
    Overwritten(s.subs, k, Sub(id, p, Deleted), Sub(id, p, Done(QueueRejected)));
  }

  lemma DepartedAt(rules: Rules, s: Sys, k: nat, id: Id, p: Payload, now: real)
    requires At(s, k, Created) && s.subs[k] == Sub(id, p, Created) && !QueueSpec.Refused(id, p)
    ensures var s' := Departed(rules, s, k, now); var (o, outcome) := HandedOver(rules, OfficeOf(s), id, p, now);
      OfficeOf(s') == o && OnlySub(s, s', k, id, p, Done(outcome))
  {
    var s1 := JobEnqueued(rules, s, k, now);
    var (m, reply) := QueueSpec.Enqueue(rules.cfg, s.h.m, id, p, now);
    assert OfficeOf(s1) == OfficeOf(s).(m := m);
    if reply.Accepted? {
      assert s1.subs == s.subs[k := Sub(id, p, Done(Enqueued))];
    } else {
      assert s1.subs == s.subs[k := Sub(id, p, Refused)];
      RefusedDeparts(s1, k, id, p);
      Overwritten(s.subs, k, Sub(id, p, Refused), Sub(id, p, Done(QueueRejected)));
    }
  }

  lemma CreatedAt(s: Sys, k: nat, id: Id, p: Payload)
    requires k in s.subs && s.subs[k] == Sub(id, p, HasSlot)
    ensures var s' := RecordSet(s, k);
      && s'.h == s.h && s'.slots == s.slots
      && (if id in s.jobs then OnlySub(s, s', k, id, p, LostRace) && s'.jobs == s.jobs
          else OnlySub(s, s', k, id, p, Created) && s'.jobs == s.jobs[id := NewRecord(id, p)])
  {
    assert At(s, k, HasSlot);
    assert s.subs[k].(pc := LostRace) == Sub(id, p, LostRace) && s.subs[k].(pc := Created) == Sub(id, p, Created);
  }

  lemma DoneStays(rules: Rules, s: Sys, k: nat, now: real)
    requires k in s.subs && s.subs[k].pc.Done?
    ensures RecordSet(s, k) == s && Departed(rules, s, k, now) == s
  {
  }

  /** An undisturbed handler replies and leaves everything as the specification says. */
  lemma SubmitAlone(rules: Rules, s: Sys, k: nat, id: Id, p: Payload, now: real)
    requires k !in s.subs && !QueueSpec.Refused(id, p)
    ensures var s' := Departed(rules, RecordSet(Arrived(rules, s, k, id, p), k), k, now);
      var (o, outcome) := Posted(rules, OfficeOf(s), id, p, now, None);
      At(s', k, Done(outcome)) && OfficeOf(s') == o
  {
    var s1 := Arrived(rules, s, k, id, p);
    ArrivedAt(rules, s, k, id, p);
    if s1.subs[k].pc.HasSlot? {
      CreateAndDepart(rules, s1, k, id, p, now);
    } else {
      DoneStays(rules, s1, k, now);
    }
  }

  lemma CreateAndDepart(rules: Rules, s: Sys, k: nat, id: Id, p: Payload, now: real)
    requires k in s.subs && s.subs[k] == Sub(id, p, HasSlot) && id !in s.jobs && !QueueSpec.Refused(id, p)
    ensures var s' := Departed(rules, RecordSet(s, k), k, now);
      var (o, outcome) := HandedOver(rules, OfficeOf(s).(jobs := s.jobs[id := NewRecord(id, p)]), id, p, now);
      At(s', k, Done(outcome)) && OfficeOf(s') == o
  {
    CreatedAt(s, k, id, p);
    DepartedAt(rules, RecordSet(s, k), k, id, p, now);
  }

  /** Two handlers for one job: `j` overtakes `k` between its slot and its record, and goes on between its
      release and its second look. */
  function Raced(rules: Rules, s: Sys, k: nat, j: nat, id: Id, p: Payload, q: Payload): Sys {
    RecordSet(RecordSet(Arrived(rules, Arrived(rules, s, k, id, p), j, id, q), j), k)
  }

  function RaceEnded(rules: Rules, s: Sys, k: nat, j: nat, now: real): Sys {
    LookedAgain(Departed(rules, SlotReleased(s, k, LostRace, Released), j, now), k)
  }

  lemma RacedAt(rules: Rules, s: Sys, k: nat, j: nat, id: Id, p: Payload, q: Payload)
    requires k !in s.subs && j !in s.subs && j != k && CanPost(id, p, Some(q))
    requires id !in s.jobs && SlotOf(s.slots, p.tenant) < rules.limit
    ensures var s' := Raced(rules, s, k, j, id, p, q);
      var (slots2, lost) := Acquire(Acquire(s.slots, rules.limit, p.tenant).0, rules.limit, p.tenant);
      && s'.h == s.h && s'.results == s.results && s'.slots == slots2
      && s'.jobs == s.jobs[id := NewRecord(id, p)]
      && k in s'.subs && s'.subs[k] == Sub(id, p, if lost then LostRace else Created)
      && j in s'.subs && s'.subs[j] == Sub(id, q, if lost then Created else Done(LimitReached))
  {
    var s1 := Arrived(rules, s, k, id, p);
    ArrivedAt(rules, s, k, id, p);
    var s2 := Arrived(rules, s1, j, id, q);
    ArrivedAt(rules, s1, j, id, q);
    RaceMade(s2, k, j, id, p, q);
  }

  lemma RaceMade(s: Sys, k: nat, j: nat, id: Id, p: Payload, q: Payload)
    requires k in s.subs && s.subs[k] == Sub(id, p, HasSlot) && j != k && j in s.subs && id !in s.jobs
    requires s.subs[j] == Sub(id, q, HasSlot) || s.subs[j] == Sub(id, q, Done(LimitReached))
    requires p.tenant == q.tenant
    ensures var s' := RecordSet(RecordSet(s, j), k); var lost := s.subs[j].pc.HasSlot?;
      && s'.h == s.h && s'.results == s.results && s'.slots == s.slots
      && s'.jobs == s.jobs[id := NewRecord(id, p)]
      && k in s'.subs && s'.subs[k] == Sub(id, p, if lost then LostRace else Created)
      && j in s'.subs && s'.subs[j] == Sub(id, q, if lost then Created else Done(LimitReached))
  {
    var s1 := RecordSet(s, j);
    if s.subs[j].pc.HasSlot? {
      CreatedAt(s, j, id, q);
    } else {
      assert s1 == s;
    }
    CreatedAt(s1, k, id, p);
  }

  lemma RaceEndedAt(rules: Rules, s: Sys, k: nat, j: nat, id: Id, p: Payload, q: Payload, now: real)
    requires At(s, k, LostRace) && At(s, j, Created) && k != j && CanPost(id, p, Some(q))
    requires s.subs[k] == Sub(id, p, LostRace) && s.subs[j] == Sub(id, q, Created)
    ensures var s' := RaceEnded(rules, s, k, j, now); var (o, outcome) := RaceLost(rules, OfficeOf(s), id, q, now);
      At(s', k, Done(outcome)) && OfficeOf(s') == o
  {
    var s1 := SlotReleased(s, k, LostRace, Released);
    assert OfficeOf(s1) == OfficeOf(s).(slots := Release(s.slots, q.tenant));
    DepartedAt(rules, s1, j, id, q, now);
    var s2 := Departed(rules, s1, j, now);
    assert At(s2, k, Released) && s2.subs[k].id == id && s2.subs[k].payload == p;
  }

  lemma CreatedIgnores(rules: Rules, s: Sys, k: nat, j: nat, now: real)
    requires At(s, k, Created) && At(s, j, Done(LimitReached)) && k != j
    ensures RaceEnded(rules, s, k, j, now) == s
  {
  }

  /** Two handlers racing for one job leave everything, and the slower one replies, as the specification
      says. */
  lemma RaceAlone(rules: Rules, s: Sys, k: nat, j: nat, id: Id, p: Payload, q: Payload, now: real)
    requires k !in s.subs && j !in s.subs && j != k && CanPost(id, p, Some(q))
    requires id !in s.jobs && SlotOf(s.slots, p.tenant) < rules.limit
    ensures var s' := Departed(rules, RaceEnded(rules, Raced(rules, s, k, j, id, p, q), k, j, now), k, now);
      var (o, outcome) := Posted(rules, OfficeOf(s), id, p, now, Some(q));
      At(s', k, Done(outcome)) && OfficeOf(s') == o
  {
    var s1 := Raced(rules, s, k, j, id, p, q);
    RacedAt(rules, s, k, j, id, p, q);
    if At(s1, k, LostRace) {
      RaceEndedAt(rules, s1, k, j, id, p, q, now);
      DoneStays(rules, RaceEnded(rules, s1, k, j, now), k, now);
    } else {
      CreatedIgnores(rules, s1, k, j, now);
      DepartedAt(rules, s1, k, id, p, now);
    }
  }

  // So are the reviews.

  lemma OpenedAt(s: Sys, r: nat, who: Principal, id: Id, approve: bool)
    requires r !in s.reviews && Reviewable(s, who, id)
    ensures ReviewOpened(s, r, who, id, approve) == s.(reviews := s.reviews[r :=
      if approve then Looked(id, who, s.jobs[id])
      else Decided(id, s.jobs[id].(status := Rejected, approvedBy := Some(who)))])
  {
  }

  lemma FetchedAt(s: Sys, r: nat, who: Principal, id: Id, read: JobRecord)
    requires r !in s.reviews
    ensures var s1 := s.(reviews := s.reviews[r := Looked(id, who, read)]);
      ReportFetched(s1, r) ==
        if id in s.results && s.results[id].Some?
        then s.(reviews := s.reviews[r := Decided(id, read.(status := Approved, report := s.results[id], approvedBy := Some(who)))])
        else s
  {
    var reviews := s.reviews[r := Looked(id, who, read)];
    var job := read.(status := Approved, report := if id in s.results then s.results[id] else None, approvedBy := Some(who));
    Closed(s.reviews, r, Looked(id, who, read), Decided(id, job));
    assert AfterFetch(s.results, reviews, r)
           == if id in s.results && s.results[id].Some? then s.reviews[r := Decided(id, job)] else s.reviews;
  }

  lemma DecidedAt(s: Sys, r: nat, id: Id, job: JobRecord)
    requires r !in s.reviews
    ensures DecisionWritten(s.(reviews := s.reviews[r := Decided(id, job)]), r) == s.(jobs := s.jobs[id := job])
  {
    Closed(s.reviews, r, Decided(id, job), Decided(id, job));
  }

  lemma Closed(reviews: map<nat, OpenReview>, r: nat, a: OpenReview, b: OpenReview)
    requires r !in reviews
    ensures reviews[r := a][r := b] == reviews[r := b] && reviews[r := a] - {r} == reviews
  {
  }

  /** An approval that nobody disturbs ends in the stores, and in nothing else, as the specification says. */
  lemma ApproveAlone(s: Sys, r: nat, who: Principal, id: Id)
    requires r !in s.reviews
    ensures var s' := DecisionWritten(ReportFetched(ReviewOpened(s, r, who, id, true), r), r);
      && OfficeOf(s') == AfterReview(OfficeOf(s), id, Approval(s.jobs, s.results, who, id))
      && s' == s.(jobs := s'.jobs)
  {
    if Reviewable(s, who, id) {
      OpenedAt(s, r, who, id, true);
      FetchedAt(s, r, who, id, s.jobs[id]);
      if id in s.results && s.results[id].Some? {
        DecidedAt(s, r, id, s.jobs[id].(status := Approved, report := s.results[id], approvedBy := Some(who)));
      }
    }
  }

  /** And so does a rejection. */
  lemma RejectAlone(s: Sys, r: nat, who: Principal, id: Id)
    requires r !in s.reviews
    ensures var s' := DecisionWritten(ReviewOpened(s, r, who, id, false), r);
      && OfficeOf(s') == AfterReview(OfficeOf(s), id, Rejection(s.jobs, who, id))
      && s' == s.(jobs := s'.jobs)
  {
    if Reviewable(s, who, id) {
      OpenedAt(s, r, who, id, false);
      DecidedAt(s, r, id, s.jobs[id].(status := Rejected, approvedBy := Some(who)));
    }
  }
}
