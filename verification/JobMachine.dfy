/** The life of one job: its place, its attempt, and the attempts of holders who have not acted. They are not fenced. */
module JobMachine {
  import opened Basics

  datatype Stage = Fresh | Ready | Inflight | Scheduled | Dead | Gone

  datatype Job = Job(stage: Stage, attempt: nat, tokens: seq<nat>)

  datatype Move = Accept | Deliver | Expire | Promote | AckWith(t: nat) | RetryWith(t: nat) | Clear | Idle

  function Without<T>(s: seq<T>, i: nat): (r: seq<T>)
    requires i < |s|
    ensures |r| == |s| - 1
  {
    s[..i] + s[i + 1..]
  }

  predicate CanMove(n: nat, j: Job, mv: Move) {
    match mv
    case Accept => j.stage == Fresh
    case Deliver => j.stage == Ready && j.attempt < n
    case Expire => j.stage == Inflight && j.attempt <= n
    case Promote => j.stage == Scheduled
    case AckWith(t) => t < |j.tokens|
    case RetryWith(t) => t < |j.tokens| && 1 <= j.tokens[t] <= n
    case Clear => j.stage == Dead
    case Idle => true
  }

  function MoveJob(n: nat, j: Job, mv: Move): Job
    requires CanMove(n, j, mv)
  {
    match mv
    case Accept => j.(stage := Ready, attempt := 0)
    case Deliver => Job(Inflight, j.attempt + 1, j.tokens + [j.attempt + 1])
    case Expire => j.(stage := if j.attempt >= n then Dead else Ready)
    case Promote => j.(stage := Ready)
    case AckWith(t) =>
      var j' := j.(tokens := Without(j.tokens, t));
      if j.stage == Inflight then j'.(stage := Gone, attempt := 0) else j'
    case RetryWith(t) =>
      var j' := j.(tokens := Without(j.tokens, t));
      if j.stage != Inflight then j'
      else j'.(stage := if j.tokens[t] >= n then Dead else Scheduled, attempt := j.tokens[t])
    case Clear => j.(stage := Gone, attempt := 0)
    case Idle => j
  }

  /** What a delivery at attempt `a` can still lead to, if the cap is `n`. */
  function Weight(n: nat, a: nat): nat {
    if a >= n then 0 else Pow2(n - a) - 1
  }

  function TokenWeight(n: nat, tokens: seq<nat>): nat {
    if tokens == [] then 0 else Weight(n, tokens[0]) + TokenWeight(n, tokens[1..])
  }

  /** An upper bound on all further deliveries. */
  function Potential(n: nat, j: Job): nat {
    (match j.stage
     case Fresh => Weight(n, 0)
     case Dead => 0
     case Gone => 0
     case _ => Weight(n, j.attempt)) + TokenWeight(n, j.tokens)
  }

  function StageRank(s: Stage): nat {
    match s
    case Fresh => 4
    case Inflight => 3
    case Scheduled => 2
    case Ready => 1
    case Dead => 1
    case Gone => 0
  }

  function Measure(n: nat, j: Job): nat {
    4 * Potential(n, j) + StageRank(j.stage) + |j.tokens|
  }

  lemma {:induction false} TokenWeightConcat(n: nat, s: seq<nat>, t: seq<nat>)
    ensures TokenWeight(n, s + t) == TokenWeight(n, s) + TokenWeight(n, t)
  {
    if s == [] {
      assert s + t == t;
    } else {
      TokenWeightConcat(n, s[1..], t);
      assert (s + t)[1..] == s[1..] + t;
    }
  }

  lemma SpendWeight(n: nat, s: seq<nat>, i: nat)
    requires i < |s|
    ensures TokenWeight(n, s) == TokenWeight(n, Without(s, i)) + Weight(n, s[i])
  {
    assert s == s[..i] + ([s[i]] + s[i + 1..]);
    TokenWeightConcat(n, s[..i], [s[i]] + s[i + 1..]);
    TokenWeightConcat(n, s[..i], s[i + 1..]);
    TokenWeightConcat(n, [s[i]], s[i + 1..]);
    assert TokenWeight(n, [s[i]]) == Weight(n, s[i]);
  }

  /** A delivery pays for itself out of the potential; no other move adds to it. */
  lemma MoveCosts(n: nat, j: Job, mv: Move)
    requires CanMove(n, j, mv)
    ensures Potential(n, MoveJob(n, j, mv)) + (if mv.Deliver? then 1 else 0) <= Potential(n, j)
  {
    match mv
    case Deliver =>
      var a := j.attempt;
      TokenWeightConcat(n, j.tokens, [a + 1]);
      assert TokenWeight(n, [a + 1]) == Weight(n, a + 1);
      assert Pow2(n - a) == 2 * Pow2(n - a - 1);
    case AckWith(t) => SpendWeight(n, j.tokens, t);
    case RetryWith(t) => SpendWeight(n, j.tokens, t);
    case _ =>
  }

  /** Every move other than standing still decreases the measure. */
  lemma MoveDecreases(n: nat, j: Job, mv: Move)
    requires CanMove(n, j, mv) && !mv.Idle?
    ensures Measure(n, MoveJob(n, j, mv)) < Measure(n, j)
  {
    MoveCosts(n, j, mv);
  }

  /** Deliveries still possible as long as no retry stores an attempt below the current one. */
  function Remaining(n: nat, j: Job): int {
    match j.stage
    case Fresh => n
    case Dead => 0
    case Gone => 0
    case _ => n - j.attempt
  }

  /** A retry that finds the job in flight does not come from a holder with fewer attempts behind it. */
  predicate NotBehind(j: Job, mv: Move) {
    mv.RetryWith? && mv.t < |j.tokens| && j.stage == Inflight ==> j.attempt <= j.tokens[mv.t]
  }

  lemma FencedMoveCosts(n: nat, j: Job, mv: Move)
    requires CanMove(n, j, mv) && NotBehind(j, mv)
    requires j.attempt <= n
    ensures Remaining(n, MoveJob(n, j, mv)) + (if mv.Deliver? then 1 else 0) <= Remaining(n, j)
    ensures MoveJob(n, j, mv).attempt <= n
  {
  }

  /** The condition is exact: a retry leaves no more deliveries possible than before if and only if it does
      not come from behind. */
  lemma RetryCostsExactly(n: nat, j: Job, t: nat)
    requires CanMove(n, j, RetryWith(t)) && j.attempt <= n
    ensures Remaining(n, MoveJob(n, j, RetryWith(t))) <= Remaining(n, j) <==> NotBehind(j, RetryWith(t))
  {
  }

  function DeliveredBy(moves: seq<Move>): nat {
    if moves == [] then 0 else (if moves[0].Deliver? then 1 else 0) + DeliveredBy(moves[1..])
  }

  predicate CanMoveAll(n: nat, j: Job, moves: seq<Move>)
    decreases |moves|
  {
    moves == [] || (CanMove(n, j, moves[0]) && CanMoveAll(n, MoveJob(n, j, moves[0]), moves[1..]))
  }

  function MoveAll(n: nat, j: Job, moves: seq<Move>): Job
    requires CanMoveAll(n, j, moves)
    decreases |moves|
  {
    if moves == [] then j else MoveAll(n, MoveJob(n, j, moves[0]), moves[1..])
  }

  lemma {:induction false} MoveAllConcat(n: nat, j: Job, s: seq<Move>, t: seq<Move>)
    requires CanMoveAll(n, j, s) && CanMoveAll(n, MoveAll(n, j, s), t)
    ensures CanMoveAll(n, j, s + t) && MoveAll(n, j, s + t) == MoveAll(n, MoveAll(n, j, s), t)
    ensures DeliveredBy(s + t) == DeliveredBy(s) + DeliveredBy(t)
    decreases |s|
  {
    if s == [] {
      assert s + t == t;
    } else {
      MoveAllConcat(n, MoveJob(n, j, s[0]), s[1..], t);
      assert (s + t)[1..] == s[1..] + t;
    }
  }

  lemma MoveTwice(n: nat, j: Job, mv1: Move, mv2: Move)
    requires CanMove(n, j, mv1) && CanMove(n, MoveJob(n, j, mv1), mv2)
    ensures CanMoveAll(n, j, [mv1, mv2])
    ensures MoveAll(n, j, [mv1, mv2]) == MoveJob(n, MoveJob(n, j, mv1), mv2)
  {
    assert [mv1, mv2][1..] == [mv2];
    var j' := MoveJob(n, j, mv1);
    assert MoveAll(n, MoveJob(n, j', mv2), []) == MoveJob(n, j', mv2);
    assert CanMoveAll(n, j', [mv2]);
  }

  /** A schedule that uses up the whole potential of a ready job with `open` tokens: let the lease run
      out at once, exhaust the next attempt, then let the late holder put the job back and exhaust it
      once more. */
  function Wasteful(n: nat, a: nat, open: nat): seq<Move>
    requires a < n
    decreases n - a
  {
    if a + 1 == n then [Deliver] else
      [Deliver, Expire] + (Wasteful(n, a + 1, open + 1)
      + ([RetryWith(open), Promote] + Wasteful(n, a + 1, open + Pow2(n - a - 2))))
  }

  /** The schedule `moves` takes a ready job at attempt `a` to its last delivery, using up its weight. */
  predicate Exhausts(n: nat, a: nat, tokens: seq<nat>, moves: seq<Move>)
    requires a < n
  {
    && CanMoveAll(n, Job(Ready, a, tokens), moves)
    && DeliveredBy(moves) == Weight(n, a)
    && var j' := MoveAll(n, Job(Ready, a, tokens), moves);
       j'.stage == Inflight && j'.attempt == n
       && |j'.tokens| == |tokens| + Pow2(n - a - 1) && tokens <= j'.tokens
  }

  /** The late holder of attempt `a` puts an exhausted job back. */
  lemma PutBack(n: nat, a: nat, tokens: seq<nat>, j: Job) returns (j': Job)
    requires 1 <= a < n && j.stage == Inflight && tokens + [a] <= j.tokens
    ensures var moves := [RetryWith(|tokens|), Promote];
      CanMoveAll(n, j, moves) && MoveAll(n, j, moves) == j' && DeliveredBy(moves) == 0
    ensures j' == Job(Ready, a, Without(j.tokens, |tokens|))
    ensures tokens <= j'.tokens && |j'.tokens| == |j.tokens| - 1
  {
    assert j.tokens[|tokens|] == a;
    MoveTwice(n, j, RetryWith(|tokens|), Promote);
    j' := Job(Ready, a, Without(j.tokens, |tokens|));
    assert DeliveredBy([Promote]) == 0;
    assert [RetryWith(|tokens|), Promote][1..] == [Promote];
  }

  lemma StartTwice(n: nat, a: nat, tokens: seq<nat>)
    requires a + 1 < n
    ensures var j, moves := Job(Ready, a, tokens), [Deliver, Expire];
      && CanMoveAll(n, j, moves) && MoveAll(n, j, moves) == Job(Ready, a + 1, tokens + [a + 1])
      && DeliveredBy(moves) == 1
  {
    MoveTwice(n, Job(Ready, a, tokens), Deliver, Expire);
    assert [Deliver, Expire][1..] == [Expire];
    assert DeliveredBy([Expire]) == 0;
  }

  lemma {:induction false} WastefulRuns(n: nat, a: nat, tokens: seq<nat>)
    requires a < n
    ensures Exhausts(n, a, tokens, Wasteful(n, a, |tokens|))
    decreases n - a
  {
    var j := Job(Ready, a, tokens);
    assert Pow2(n - a) == 2 * Pow2(n - a - 1);
    if a + 1 == n {
      assert MoveJob(n, j, Deliver) == Job(Inflight, n, tokens + [n]);
      assert DeliveredBy([Deliver]) == 1;
    } else {
      var first := Wasteful(n, a + 1, |tokens| + 1);
      var second := Wasteful(n, a + 1, |tokens| + Pow2(n - a - 2));
      var back := [RetryWith(|tokens|), Promote];
      StartTwice(n, a, tokens);
      var j1 := Job(Ready, a + 1, tokens + [a + 1]);
      WastefulRuns(n, a + 1, j1.tokens);
      var j2 := MoveAll(n, j1, first);
      var j3 := PutBack(n, a + 1, tokens, j2);
      WastefulRuns(n, a + 1, j3.tokens);
      Assembled(n, j, j1, j2, j3, first, back, second);
      assert Pow2(n - a - 1) == 2 * Pow2(n - a - 2);
    }
  }

  lemma Assembled(n: nat, j: Job, j1: Job, j2: Job, j3: Job, first: seq<Move>, back: seq<Move>, second: seq<Move>)
    requires CanMoveAll(n, j, [Deliver, Expire]) && MoveAll(n, j, [Deliver, Expire]) == j1
    requires CanMoveAll(n, j1, first) && MoveAll(n, j1, first) == j2
    requires CanMoveAll(n, j2, back) && MoveAll(n, j2, back) == j3
    requires CanMoveAll(n, j3, second)
    ensures var all := [Deliver, Expire] + (first + (back + second));
      && CanMoveAll(n, j, all) && MoveAll(n, j, all) == MoveAll(n, j3, second)
      && DeliveredBy(all)
         == DeliveredBy([Deliver, Expire]) + DeliveredBy(first) + DeliveredBy(back) + DeliveredBy(second)
  {
    MoveAllConcat(n, j2, back, second);
    MoveAllConcat(n, j1, first, back + second);
    MoveAllConcat(n, j, [Deliver, Expire], first + (back + second));
  }

  /** The bound is met: for every cap some schedule delivers a job `2^n - 1` times. */
  lemma BoundIsMet(n: nat) returns (moves: seq<Move>)
    requires n >= 1
    ensures CanMoveAll(n, Job(Fresh, 0, []), moves)
    ensures DeliveredBy(moves) == Pow2(n) - 1
  {
    WastefulRuns(n, 0, []);
    moves := [Accept] + Wasteful(n, 0, 0);
    MoveAllConcat(n, Job(Fresh, 0, []), [Accept], Wasteful(n, 0, 0));
  }
}
