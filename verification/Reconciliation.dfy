/** One reconciliation pass over the dead letters, on its own: what it drains, settles and gives back, and
    that a second pass is idle. */
module Reconciliation {
  import opened Basics
  import opened Envelopes
  import opened QueueSpec
  import opened QueueInvariant
  import opened QueueRuns
  import opened Protocol

  /** What a pass reads and writes. */
  datatype Books = Books(m: Mem, jobs: map<Id, JobRecord>, slots: map<Tenant, nat>)

  predicate OwesSlot(jobs: map<Id, JobRecord>, e: Envelope) {
    e.jobId in jobs && Active(jobs[e.jobId].status)
  }

  /** One letter: skipped without a record, removed with a settled one, otherwise failed and removed. */
  function Settle(b: Books, e: Envelope): Books {
    if e.jobId !in b.jobs then b
    else if !OwesSlot(b.jobs, e) then b.(m := RemoveDead(b.m, e.jobId).0)
    else Books(RemoveDead(b.m, e.jobId).0,
               b.jobs[e.jobId := b.jobs[e.jobId].(status := Failed, attempt := e.attempt)],
               Release(b.slots, e.payload.tenant))
  }

  function SettleAll(b: Books, letters: seq<Envelope>): Books
    decreases |letters|
  {
    if letters == [] then b else SettleAll(Settle(b, letters[0]), letters[1..])
  }

  /** The letters whose jobs a pass fails. */
  function ClosedBy(b: Books, letters: seq<Envelope>): seq<Envelope>
    decreases |letters|
  {
    if letters == [] then []
    else (if OwesSlot(b.jobs, letters[0]) then [letters[0]] else []) + ClosedBy(Settle(b, letters[0]), letters[1..])
  }

  /** The letters of jobs that are active. */
  function Owing(jobs: map<Id, JobRecord>, letters: seq<Envelope>): seq<Envelope> {
    if letters == [] then []
    else (if OwesSlot(jobs, letters[0]) then [letters[0]] else []) + Owing(jobs, letters[1..])
  }

  lemma {:induction false} OwingElsewhere(
    jobs: map<Id, JobRecord>, jobs': map<Id, JobRecord>, x: Id, letters: seq<Envelope>)
    requires forall e <- letters :: e.jobId != x
    requires forall id :: id != x ==> (id in jobs <==> id in jobs') && (id in jobs ==> jobs[id] == jobs'[id])
    ensures Owing(jobs, letters) == Owing(jobs', letters)
  {
    if letters != [] {
      OwingElsewhere(jobs, jobs', x, letters[1..]);
    }
  }

  /** A pass fails the jobs that are active when it begins, in the order of their letters. */
  lemma {:induction false} ClosedAreOwing(b: Books, letters: seq<Envelope>)
    requires forall i, j :: 0 <= i < j < |letters| ==> letters[i].jobId != letters[j].jobId
    ensures ClosedBy(b, letters) == Owing(b.jobs, letters)
    decreases |letters|
  {
    if letters != [] {
      var rest := letters[1..];
      forall i | 0 <= i < |rest| ensures rest[i].jobId != letters[0].jobId { assert rest[i] == letters[i + 1]; }
      ClosedAreOwing(Settle(b, letters[0]), rest);
      OwingElsewhere(b.jobs, Settle(b, letters[0]).jobs, letters[0].jobId, rest);
    }
  }

  function Letters(b: Books): seq<Envelope> {
    LettersOf(b.m.envelopes, b.m.dead)
  }

  /** How many of the letters belong to `t` and to a job that still occupies a slot. */
  function Owed(jobs: map<Id, JobRecord>, letters: seq<Envelope>, t: Tenant): nat {
    if letters == [] then 0
    else (if OwesSlot(jobs, letters[0]) && letters[0].payload.tenant == t then 1 else 0) + Owed(jobs, letters[1..], t)
  }

  function Monus(a: nat, n: nat): nat {
    if a >= n then a - n else 0
  }

  /** `s` without the ids that have a record. */
  function Unrecorded(s: seq<Id>, recorded: set<Id>): seq<Id> {
    if s == [] then [] else (if s[0] in recorded then [] else [s[0]]) + Unrecorded(s[1..], recorded)
  }

  predicate GenuineAt(m: Mem, e: Envelope) {
    e.jobId in m.dead && e.jobId in m.envelopes && m.envelopes[e.jobId] == e
  }

  /** The letters are the current envelopes of distinct dead ids. */
  predicate Genuine(m: Mem, letters: seq<Envelope>) {
    && (forall e <- letters :: GenuineAt(m, e))
    && (forall i, j :: 0 <= i < j < |letters| ==> letters[i].jobId != letters[j].jobId)
  }

  lemma {:induction false} LettersMatch(cfg: Config, m: Mem, ids: seq<Id>)
    requires Inv(cfg, m) && forall id <- ids :: id in m.dead
    ensures var r := LettersOf(m.envelopes, ids);
      |r| == |ids| && forall i :: 0 <= i < |ids| ==> GenuineAt(m, r[i]) && r[i].jobId == ids[i]
  {
    if ids != [] {
      LettersMatch(cfg, m, ids[1..]);
      assert InvAt(cfg, m, ids[0]);
      Listed(cfg, m, ids[0]);
    }
  }

  lemma DeadLettersGenuine(cfg: Config, m: Mem)
    requires Inv(cfg, m)
    ensures var r := LettersOf(m.envelopes, m.dead); Genuine(m, r) && |r| == |m.dead|
    ensures forall i :: 0 <= i < |m.dead| ==> LettersOf(m.envelopes, m.dead)[i].jobId == m.dead[i]
  {
    LettersMatch(cfg, m, m.dead);
    forall id ensures Copies(m, id) == if id in m.envelopes then 1 else 0 { assert InvAt(cfg, m, id); }
    LocationsPartition(m);
  }

  /** What settling one letter does. */
  lemma SettleKeeps(cfg: Config, b: Books, e: Envelope)
    requires Inv(cfg, b.m) && GenuineAt(b.m, e)
    ensures var b' := Settle(b, e);
      && Inv(cfg, b'.m) && OthersKept(b.m, b'.m, e.jobId)
      && b'.m == b.m.(dead := b'.m.dead, envelopes := b'.m.envelopes)
      && b'.m.dead == (if e.jobId in b.jobs then RemoveFirst(b.m.dead, e.jobId) else b.m.dead)
      && PlaceOf(b'.m, e.jobId) == (if e.jobId in b.jobs then Gone else Dead)
      && (e.jobId !in b.jobs ==> b' == b)
  {
    RemoveDeadKeeps(cfg, b.m, e.jobId);
    assert InvAt(cfg, b.m, e.jobId);
    Listed(cfg, b.m, e.jobId);
  }

  lemma RestGenuine(cfg: Config, b: Books, letters: seq<Envelope>)
    requires Inv(cfg, b.m) && letters != [] && Genuine(b.m, letters)
    ensures Genuine(Settle(b, letters[0]).m, letters[1..])
  {
    var b' := Settle(b, letters[0]);
    SettleKeeps(cfg, b, letters[0]);
    forall i | 0 <= i < |letters[1..]| ensures GenuineAt(b'.m, letters[1..][i]) {
      var e := letters[i + 1];
      assert GenuineAt(b.m, e) && KeptAt(b.m, b'.m, e.jobId);
      assert InvAt(cfg, b.m, e.jobId) && InvAt(cfg, b'.m, e.jobId);
      Listed(cfg, b.m, e.jobId);
      Listed(cfg, b'.m, e.jobId);
    }
  }

  function Ids(letters: seq<Envelope>): set<Id> {
    set e <- letters :: e.jobId
  }

  /** The fate of one id in a pass over `letters`. */
  predicate FateOf(b: Books, b': Books, letters: seq<Envelope>, id: Id) {
    if id in Ids(letters) && id in b.jobs then
      && PlaceOf(b'.m, id) == Gone && id in b'.jobs && id in b.m.envelopes
      && b'.jobs[id] == (if Active(b.jobs[id].status)
                         then b.jobs[id].(status := Failed, attempt := b.m.envelopes[id].attempt)
                         else b.jobs[id])
    else
      && KeptAt(b.m, b'.m, id)
      && (id in b'.jobs <==> id in b.jobs) && (id in b.jobs ==> b'.jobs[id] == b.jobs[id])
  }

  lemma {:induction false} SettleAllFates(cfg: Config, b: Books, letters: seq<Envelope>, id: Id)
    requires Inv(cfg, b.m) && Genuine(b.m, letters)
    ensures var b' := SettleAll(b, letters);
      && Inv(cfg, b'.m) && b'.m == b.m.(dead := b'.m.dead, envelopes := b'.m.envelopes)
      && FateOf(b, b', letters, id)
    decreases |letters|
  {
    if letters != [] {
      var e, b1, rest := letters[0], Settle(b, letters[0]), letters[1..];
      SettleKeeps(cfg, b, e);
      RestGenuine(cfg, b, letters);
      SettleAllFates(cfg, b1, rest, id);
      assert letters == [e] + rest;
      assert Ids(letters) == {e.jobId} + Ids(rest);
      assert e.jobId !in Ids(rest);
      assert id != e.jobId ==> KeptAt(b.m, b1.m, id);
    }
  }

  lemma {:induction false} SettleAllSlots(cfg: Config, b: Books, letters: seq<Envelope>, t: Tenant)
    requires Inv(cfg, b.m) && Genuine(b.m, letters)
    ensures SlotOf(SettleAll(b, letters).slots, t) == Monus(SlotOf(b.slots, t), Owed(b.jobs, letters, t))
    decreases |letters|
  {
    if letters != [] {
      var e, b1, rest := letters[0], Settle(b, letters[0]), letters[1..];
      SettleKeeps(cfg, b, e);
      RestGenuine(cfg, b, letters);
      SettleAllSlots(cfg, b1, rest, t);
      forall i | 0 <= i < |rest| ensures rest[i].jobId != e.jobId { assert rest[i] == letters[i + 1]; }
      OwedElsewhere(b.jobs, b1.jobs, e.jobId, rest, t);
    }
  }

  lemma {:induction false} OwedElsewhere(
    jobs: map<Id, JobRecord>, jobs': map<Id, JobRecord>, x: Id, letters: seq<Envelope>, t: Tenant)
    requires forall e <- letters :: e.jobId != x
    requires forall id :: id != x ==> (id in jobs <==> id in jobs') && (id in jobs ==> jobs[id] == jobs'[id])
    ensures Owed(jobs, letters, t) == Owed(jobs', letters, t)
  {
    if letters != [] {
      OwedElsewhere(jobs, jobs', x, letters[1..], t);
    }
  }

  lemma {:induction false} UnrecordedRemove(s: seq<Id>, x: Id, recorded: set<Id>)
    requires NoDup(s) && x in recorded
    ensures Unrecorded(RemoveFirst(s, x), recorded) == Unrecorded(s, recorded)
  {
    if s != [] && s[0] != x {
      UnrecordedRemove(s[1..], x, recorded);
      var r := RemoveFirst(s[1..], x);
      assert ([s[0]] + r)[1..] == r;
    }
  }

  lemma {:induction false} UnrecordedHas(s: seq<Id>, recorded: set<Id>, x: Id)
    ensures x in Unrecorded(s, recorded) <==> x in s && x !in recorded
  {
    if s != [] {
      UnrecordedHas(s[1..], recorded, x);
    }
  }

  lemma {:induction false} NothingRecorded(s: seq<Id>, recorded: set<Id>)
    requires forall id <- s :: id !in recorded
    ensures Unrecorded(s, recorded) == s
  {
    if s != [] {
      NothingRecorded(s[1..], recorded);
    }
  }

  lemma {:induction false} SettleAllDead(cfg: Config, b: Books, letters: seq<Envelope>)
    requires Inv(cfg, b.m) && Genuine(b.m, letters) && NoDup(b.m.dead)
    ensures var b' := SettleAll(b, letters);
      && Unrecorded(b'.m.dead, b.jobs.Keys) == Unrecorded(b.m.dead, b.jobs.Keys)
      && b'.jobs.Keys == b.jobs.Keys
    decreases |letters|
  {
    if letters != [] {
      var e, b1 := letters[0], Settle(b, letters[0]);
      SettleKeeps(cfg, b, e);
      RestGenuine(cfg, b, letters);
      RemoveFirstKeepsNoDup(b.m.dead, e.jobId);
      assert b1.jobs.Keys == b.jobs.Keys;
      SettleAllDead(cfg, b1, letters[1..]);
      if e.jobId in b.jobs {
        UnrecordedRemove(b.m.dead, e.jobId, b.jobs.Keys);
      }
    }
  }

  /** What an isolated pass does to one id: a letter with a record is gone and its job settled, as failed
      with the letter's attempt if it was still active; nothing else about the id changes. */
  predicate PassAt(b: Books, b': Books, id: Id) {
    if id in b.m.dead && id in b.jobs then
      && PlaceOf(b'.m, id) == Gone && id in b'.jobs && id in b.m.envelopes
      && !Active(b'.jobs[id].status)
      && b'.jobs[id] == (if Active(b.jobs[id].status)
                         then b.jobs[id].(status := Failed, attempt := b.m.envelopes[id].attempt)
                         else b.jobs[id])
    else
      && KeptAt(b.m, b'.m, id)
      && (id in b'.jobs <==> id in b.jobs) && (id in b.jobs ==> b'.jobs[id] == b.jobs[id])
  }

  lemma PassFate(cfg: Config, b: Books, id: Id)
    requires Inv(cfg, b.m)
    ensures PassAt(b, SettleAll(b, Letters(b)), id)
  {
    DeadLettersGenuine(cfg, b.m);
    IdsAreDead(cfg, b.m);
    SettleAllFates(cfg, b, Letters(b), id);
    assert id in Ids(Letters(b)) <==> id in b.m.dead;
  }

  /** An isolated pass drains exactly the letters that have a record and keeps the others in order; every
      id fares as above; each tenant gets back one slot per drained job that was still active. */
  lemma PassEffect(cfg: Config, b: Books)
    requires Inv(cfg, b.m)
    ensures var b' := SettleAll(b, Letters(b));
      && Inv(cfg, b'.m)
      && b'.m.dead == Unrecorded(b.m.dead, b.jobs.Keys)
      && b'.m == b.m.(dead := b'.m.dead, envelopes := b'.m.envelopes)
      && (forall id :: PassAt(b, b', id))
      && (forall t :: SlotOf(b'.slots, t) == Monus(SlotOf(b.slots, t), Owed(b.jobs, Letters(b), t)))
  {
    var b' := SettleAll(b, Letters(b));
    DeadLettersGenuine(cfg, b.m);
    SettleAllFates(cfg, b, Letters(b), "");
    forall id ensures PassAt(b, b', id) { PassFate(cfg, b, id); }
    forall t ensures SlotOf(b'.slots, t) == Monus(SlotOf(b.slots, t), Owed(b.jobs, Letters(b), t)) {
      SettleAllSlots(cfg, b, Letters(b), t);
    }
    DeadAfter(cfg, b);
  }

  lemma IdsAreDead(cfg: Config, m: Mem)
    requires Inv(cfg, m)
    ensures Ids(LettersOf(m.envelopes, m.dead)) == ToSet(m.dead)
  {
    DeadLettersGenuine(cfg, m);
    var r := LettersOf(m.envelopes, m.dead);
    forall id <- m.dead ensures id in Ids(r) {
      var i :| 0 <= i < |m.dead| && m.dead[i] == id;
      assert r[i] in r && r[i].jobId == id;
    }
  }

  lemma DeadAfter(cfg: Config, b: Books)
    requires Inv(cfg, b.m)
    ensures SettleAll(b, Letters(b)).m.dead == Unrecorded(b.m.dead, b.jobs.Keys)
    ensures SettleAll(b, Letters(b)).jobs.Keys == b.jobs.Keys
  {
    var letters := Letters(b);
    var b' := SettleAll(b, letters);
    DeadLettersGenuine(cfg, b.m);
    IdsAreDead(cfg, b.m);
    forall id ensures Copies(b.m, id) == if id in b.m.envelopes then 1 else 0 { assert InvAt(cfg, b.m, id); }
    LocationsPartition(b.m);
    SettleAllDead(cfg, b, letters);
    forall id <- b'.m.dead ensures id !in b.jobs {
      SettleAllFates(cfg, b, letters, id);
      assert InvAt(cfg, b.m, id) && InvAt(cfg, b'.m, id);
      Listed(cfg, b.m, id);
      Listed(cfg, b'.m, id);
    }
    NothingRecorded(b'.m.dead, b.jobs.Keys);
  }

  lemma {:induction false} NothingToSettle(b: Books, letters: seq<Envelope>)
    requires forall e <- letters :: e.jobId !in b.jobs
    ensures SettleAll(b, letters) == b
    decreases |letters|
  {
    if letters != [] {
      NothingToSettle(b, letters[1..]);
    }
  }

  /** A second pass changes nothing. */
  lemma SecondPassIdle(cfg: Config, b: Books)
    requires Inv(cfg, b.m)
    ensures var b' := SettleAll(b, Letters(b)); SettleAll(b', Letters(b')) == b'
  {
    var b' := SettleAll(b, Letters(b));
    PassEffect(cfg, b);
    DeadAfter(cfg, b);
    IdsAreDead(cfg, b'.m);
    forall e <- Letters(b') ensures e.jobId !in b'.jobs {
      assert e.jobId in Ids(Letters(b'));
      UnrecordedHas(b.m.dead, b.jobs.Keys, e.jobId);
    }
    NothingToSettle(b', Letters(b'));
  }

  // The same pass in the protocol, by one worker with nothing interleaved.

  function BooksOf(s: Sys): Books {
    Books(s.h.m, s.jobs, s.slots)
  }

  /** A step that does not apply does nothing. */
  function LetterActions(w: nat): seq<Action> {
    [ReadLetter(w), GiveUp(w), RemoveLetter(w)]
  }

  function PassActions(letters: seq<Envelope>, w: nat): seq<Action> {
    if letters == [] then [ReadLetter(w)] else LetterActions(w) + PassActions(letters[1..], w)
  }

  lemma OneStep(rules: Rules, s: Sys, a: Action, rest: seq<Action>)
    ensures ActAll(rules, s, [a] + rest) == ActAll(rules, Act(rules, s, a), rest)
  {
    assert ([a] + rest)[1..] == rest;
  }

  lemma TwoSteps(rules: Rules, s: Sys, w: nat, rest: seq<Action>)
    ensures ActAll(rules, s, [ReadLetter(w)] + ([GiveUp(w)] + rest)) == ActAll(rules, GivenUp(LetterRead(s, w), w), rest)
  {
    OneStep(rules, s, ReadLetter(w), [GiveUp(w)] + rest);
    OneStep(rules, LetterRead(s, w), GiveUp(w), rest);
  }

  lemma ThreeSteps(rules: Rules, s: Sys, w: nat, rest: seq<Action>)
    ensures ActAll(rules, s, LetterActions(w) + rest)
            == ActAll(rules, LetterRemoved(rules, GivenUp(LetterRead(s, w), w), w), rest)
  {
    var more := [RemoveLetter(w)] + rest;
    assert LetterActions(w) + rest == [ReadLetter(w)] + ([GiveUp(w)] + more);
    TwoSteps(rules, s, w, more);
    OneStep(rules, GivenUp(LetterRead(s, w), w), RemoveLetter(w), rest);
  }

  /** A letter without a record is left where it is. */
  lemma SkippedLetter(rules: Rules, s: Sys, w: nat, letters: seq<Envelope>)
    requires PcOf(s, w) == Reconciling(letters) && letters != [] && letters[0].jobId !in s.jobs
    ensures var s' := LetterRemoved(rules, GivenUp(LetterRead(s, w), w), w);
      BooksOf(s') == BooksOf(s) && PcOf(s', w) == Reconciling(letters[1..])
  {
    assert PcOf(LetterRead(s, w), w) == Reconciling(letters[1..]);
  }

  lemma RemovedLetter(rules: Rules, s: Sys, w: nat, letters: seq<Envelope>)
    requires PcOf(s, w) == Removing(letters) && letters != []
    ensures var s' := LetterRemoved(rules, s, w);
      && BooksOf(s') == BooksOf(s).(m := RemoveDead(s.h.m, letters[0].jobId).0)
      && PcOf(s', w) == Reconciling(letters[1..])
  {
  }

  lemma ClosedLetter(s: Sys, w: nat, letters: seq<Envelope>, read: JobRecord)
    requires PcOf(s, w) == Closing(letters, read) && letters != []
    ensures var s', e := GivenUp(s, w), letters[0];
      && BooksOf(s') == Books(s.h.m, s.jobs[e.jobId := read.(status := Failed, attempt := e.attempt)],
                              Release(s.slots, e.payload.tenant))
      && PcOf(s', w) == Removing(letters)
  {
  }

  lemma OneLetter(rules: Rules, s: Sys, w: nat, letters: seq<Envelope>)
    requires PcOf(s, w) == Reconciling(letters) && letters != []
    ensures var s' := LetterRemoved(rules, GivenUp(LetterRead(s, w), w), w);
      BooksOf(s') == Settle(BooksOf(s), letters[0]) && PcOf(s', w) == Reconciling(letters[1..])
  {
    var id, s1 := letters[0].jobId, LetterRead(s, w);
    assert BooksOf(s1) == BooksOf(s);
    if id !in s.jobs {
      SkippedLetter(rules, s, w, letters);
    } else if !Active(s.jobs[id].status) {
      RemovedLetter(rules, s1, w, letters);
    } else {
      ClosedLetter(s1, w, letters, s.jobs[id]);
      RemovedLetter(rules, GivenUp(s1, w), w, letters);
    }
  }

  lemma {:induction false} PassAlone(rules: Rules, s: Sys, w: nat, letters: seq<Envelope>)
    requires PcOf(s, w) == Reconciling(letters)
    ensures var s' := ActAll(rules, s, PassActions(letters, w));
      BooksOf(s') == SettleAll(BooksOf(s), letters) && PcOf(s', w) == Free
    decreases |letters|
  {
    if letters == [] {
      assert ActAll(rules, LetterRead(s, w), []) == LetterRead(s, w);
    } else {
      OneLetter(rules, s, w, letters);
      PassAlone(rules, LetterRemoved(rules, GivenUp(LetterRead(s, w), w), w), w, letters[1..]);
      ThreeSteps(rules, s, w, PassActions(letters[1..], w));
    }
  }

  /** A worker that runs a whole pass uninterrupted has the effect described above. */
  lemma ReconcileAlone(rules: Rules, s: Sys, w: nat)
    requires PcOf(s, w) == Free
    ensures var b := BooksOf(s);
      var s' := ActAll(rules, s, [ListLetters(w)] + PassActions(Letters(b), w));
      BooksOf(s') == SettleAll(b, Letters(b)) && PcOf(s', w) == Free
  {
    var b := BooksOf(s);
    var s1 := LettersListed(s, w);
    assert PcOf(s1, w) == Reconciling(Letters(b)) && BooksOf(s1) == b;
    PassAlone(rules, s1, w, Letters(b));
    var rest := PassActions(Letters(b), w);
    assert ([ListLetters(w)] + rest)[1..] == rest;
  }
}
