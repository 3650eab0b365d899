/** The circuit breaker around an external provider, called by one caller at a time. */
module CircuitBreakers {
  import opened Basics

  /** Failures since the last success or reset, and when the circuit opened. */
  datatype State = State(failures: nat, openedAt: Option<real>)

  const CLOSED: State := State(0, None)

  /** One call: when it is made, when its operation would end, and whether the operation succeeds. */
  datatype Attempt = Attempt(at: real, ends: real, ok: bool)

  datatype Reply = CircuitOpen | Succeeded | Failed

  predicate OpenAt(recovery: int, s: State, now: real) {
    s.openedAt.Some? && now - s.openedAt.value < recovery as real
  }

  function Called(threshold: int, recovery: int, s: State, a: Attempt): (State, Reply) {
    if OpenAt(recovery, s, a.at) then (s, CircuitOpen) else
      var s1 := if s.openedAt.Some? then CLOSED else s;
      if a.ok then (CLOSED, Succeeded)
      else
        var failures := s1.failures + 1;
        (State(failures, if failures >= threshold then Some(a.ends) else s1.openedAt), Failed)
  }

  class CircuitBreaker {
    const threshold: int
    const recovery: int
    var state: State

    constructor (threshold: int, recovery: int)
      ensures this.threshold == threshold && this.recovery == recovery && state == CLOSED
    {
      this.threshold, this.recovery, state := threshold, recovery, CLOSED;
    }

    /** The operation is started unless the circuit is open at that moment. */
    method Call(a: Attempt) returns (reply: Reply)
      modifies this
      ensures (state, reply) == Called(threshold, recovery, old(state), a)
      ensures reply.CircuitOpen? <==> OpenAt(recovery, old(state), a.at)
      ensures reply.CircuitOpen? ==> state == old(state)
    {
      if state.openedAt.Some? {
        if a.at - state.openedAt.value < recovery as real {
          return CircuitOpen;
        }
        state := CLOSED;
      }
      if !a.ok {
        state := state.(failures := state.failures + 1);
        if state.failures >= threshold {
          state := state.(openedAt := Some(a.ends));
        }
        return Failed;
      }
      state := CLOSED;
      return Succeeded;
    }

    method IsOpen(now: real) returns (open: bool)
      ensures open == OpenAt(recovery, state, now)
    {
      if state.openedAt.None? {
        return false;
      }
      return now - state.openedAt.value < recovery as real;
    }
  }

  /** Operations started by a sequence of calls. */
  function Starts(threshold: int, recovery: int, s: State, run: seq<Attempt>): nat
    decreases |run|
  {
    if run == [] then 0 else
      var (s', reply) := Called(threshold, recovery, s, run[0]);
      (if reply.CircuitOpen? then 0 else 1) + Starts(threshold, recovery, s', run[1..])
  }

  function StateAfter(threshold: int, recovery: int, s: State, run: seq<Attempt>): State
    decreases |run|
  {
    if run == [] then s
    else StateAfter(threshold, recovery, Called(threshold, recovery, s, run[0]).0, run[1..])
  }

  /** Calls follow one another, on a clock that does not go back. */
  predicate Sequential(from: real, run: seq<Attempt>)
    decreases |run|
  {
    run == [] || (from <= run[0].at <= run[0].ends && Sequential(run[0].ends, run[1..]))
  }

  /** All calls are made by `until`, and no operation succeeds. */
  predicate Failing(until: real, run: seq<Attempt>) {
    forall a <- run :: a.at <= until && !a.ok
  }

  /** A closed breaker counts fewer failures than its threshold. */
  predicate Reachable(threshold: int, s: State) {
    s.openedAt.None? ==> s.failures < threshold
  }

  /** Whole recovery periods in a stretch of time. */
  function Periods(stretch: real, recovery: int): nat
    requires recovery >= 1 && stretch >= 0.0
  {
    (stretch / recovery as real).Floor
  }

  lemma Quotient(x: real, r: real)
    requires r > 0.0
    ensures x == (x / r) * r
  {
  }

  lemma SameQuotient(p: real, q: real, r: real)
    requires r > 0.0 && p * r == q * r
    ensures p == q
  {
    assert (p - q) * r == 0.0;
  }

  lemma PeriodsGrow(x: real, y: real, recovery: int)
    requires recovery >= 1 && 0.0 <= x <= y
    ensures Periods(x, recovery) <= Periods(y, recovery)
  {
    assert x / recovery as real <= y / recovery as real;
  }

  lemma OneMorePeriod(x: real, recovery: int)
    requires recovery >= 1 && x >= 0.0
    ensures Periods(x + recovery as real, recovery) == Periods(x, recovery) + 1
  {
    var r := recovery as real;
    var q, y := x / r, x + r;
    Quotient(x, r);
    Quotient(y, r);
    assert y == (q + 1.0) * r;
    SameQuotient(y / r, q + 1.0, r);
  }

  /** Recovery periods that may begin after `since` and end by `until`. */
  function Recoveries(since: real, until: real, recovery: int): nat
    requires recovery >= 1
  {
    if since > until then 0 else Periods(until - since, recovery)
  }

  /** How many operations may still start, from `now` to `until`: those left before the circuit opens,
      and `threshold` after each recovery. */
  function Budget(threshold: int, recovery: int, s: State, now: real, until: real): int
    requires recovery >= 1
  {
    if now > until then 0 else
      match s.openedAt
      case None => threshold - s.failures + threshold * Recoveries(now, until, recovery)
      case Some(o) =>
        if now - o < recovery as real then threshold * Recoveries(o, until, recovery)
        else threshold * (Recoveries(now, until, recovery) + 1)
  }

  lemma Times(threshold: int, m: nat, n: nat)
    requires threshold >= 1 && m <= n
    ensures 0 <= threshold * m <= threshold * n
  {
  }

  lemma LaterRecoversLess(x: real, y: real, until: real, recovery: int)
    requires recovery >= 1 && x <= y
    ensures Recoveries(y, until, recovery) <= Recoveries(x, until, recovery)
    ensures x + recovery as real <= y <= until ==> Recoveries(y, until, recovery) + 1 <= Recoveries(x, until, recovery)
  {
    if y <= until {
      PeriodsGrow(until - y, until - x, recovery);
      if x + recovery as real <= y {
        OneMorePeriod(until - y, recovery);
        PeriodsGrow(until - y + recovery as real, until - x, recovery);
      }
    }
  }

  /** A failing start from a closed circuit. */
  lemma ClosedSpends(threshold: int, recovery: int, failures: nat, now: real, until: real, a: Attempt)
    requires threshold >= 1 && recovery >= 1 && failures < threshold
    requires now <= a.at <= a.ends && a.at <= until && !a.ok
    ensures var s' := Called(threshold, recovery, State(failures, None), a).0;
      Budget(threshold, recovery, s', a.ends, until) + 1
      <= threshold - failures + threshold * Recoveries(now, until, recovery)
  {
    var ends, start := Recoveries(a.ends, until, recovery), Recoveries(now, until, recovery);
    LaterRecoversLess(now, a.ends, until, recovery);
    Times(threshold, ends, start);
  }

  /** A call made while the circuit has been open: refused, or the first after a recovery. */
  lemma OpenSpends(threshold: int, recovery: int, s: State, now: real, until: real, a: Attempt)
    requires threshold >= 1 && recovery >= 1 && s.openedAt.Some?
    requires now <= a.at <= a.ends && a.at <= until && !a.ok
    ensures var (s', reply) := Called(threshold, recovery, s, a);
      Budget(threshold, recovery, s', a.ends, until) + (if reply.CircuitOpen? then 0 else 1)
      <= Budget(threshold, recovery, s, now, until)
  {
    var o, r := s.openedAt.value, recovery as real;
    if OpenAt(recovery, s, a.at) {
      var ends, since := Recoveries(a.ends, until, recovery), Recoveries(o, until, recovery);
      Times(threshold, since, since);
      if o + r <= a.ends <= until {
        LaterRecoversLess(o, a.ends, until, recovery);
        Times(threshold, ends + 1, since);
      }
    } else {
      var at := Recoveries(a.at, until, recovery);
      ClosedSpends(threshold, recovery, 0, a.at, until, a);
      assert Called(threshold, recovery, s, a) == Called(threshold, recovery, CLOSED, a);
      var from := if now - o < r then Recoveries(o, until, recovery) else Recoveries(now, until, recovery) + 1;
      LaterRecoversLess(o, a.at, until, recovery);
      LaterRecoversLess(now, a.at, until, recovery);
      Times(threshold, at + 1, from);
      assert threshold * (at + 1) == threshold * at + threshold;
    }
  }

  lemma BudgetNotNegative(threshold: int, recovery: int, s: State, now: real, until: real)
    requires threshold >= 1 && recovery >= 1 && Reachable(threshold, s)
    ensures Budget(threshold, recovery, s, now, until) >= 0
  {
    Times(threshold, 0, Recoveries(now, until, recovery));
    Times(threshold, 0, Recoveries(now, until, recovery) + 1);
    if s.openedAt.Some? { Times(threshold, 0, Recoveries(s.openedAt.value, until, recovery)); }
  }

  lemma {:induction false} StartsWithinBudget(
    threshold: int, recovery: int, s: State, now: real, until: real, run: seq<Attempt>)
    requires threshold >= 1 && recovery >= 1 && Reachable(threshold, s)
    requires Sequential(now, run) && Failing(until, run)
    ensures Starts(threshold, recovery, s, run) <= Budget(threshold, recovery, s, now, until)
    decreases |run|
  {
    if run == [] {
      BudgetNotNegative(threshold, recovery, s, now, until);
    } else {
      var a := run[0];
      assert a in run;
      if s.openedAt.Some? {
        OpenSpends(threshold, recovery, s, now, until, a);
      } else {
        ClosedSpends(threshold, recovery, s.failures, now, until, a);
      }
      StartsWithinBudget(threshold, recovery, Called(threshold, recovery, s, a).0, a.ends, until, run[1..]);
    }
  }

  lemma {:induction false} StaysReachable(threshold: int, recovery: int, s: State, run: seq<Attempt>)
    requires threshold >= 1 && Reachable(threshold, s)
    ensures Reachable(threshold, StateAfter(threshold, recovery, s, run))
    decreases |run|
  {
    if run != [] {
      StaysReachable(threshold, recovery, Called(threshold, recovery, s, run[0]).0, run[1..]);
    }
  }

  /** The admission bound: whatever happened before, a stretch of `length` seconds without a success
      starts at most `threshold` operations, and `threshold` more for each whole recovery period in it. */
  lemma AdmissionBound(
    threshold: int, recovery: int, earlier: seq<Attempt>, from: real, length: real, run: seq<Attempt>)
    requires threshold >= 1 && recovery >= 1 && length >= 0.0
    requires Sequential(from, run) && Failing(from + length, run)
    ensures var s := StateAfter(threshold, recovery, CLOSED, earlier);
      Starts(threshold, recovery, s, run) <= threshold * (Periods(length, recovery) + 1)
  {
    var s, until := StateAfter(threshold, recovery, CLOSED, earlier), from + length;
    var p := Periods(length, recovery);
    StaysReachable(threshold, recovery, CLOSED, earlier);
    StartsWithinBudget(threshold, recovery, s, from, until, run);
    assert Recoveries(from, until, recovery) == p;
    assert threshold * (p + 1) == threshold * p + threshold;
    if s.openedAt.Some? && from - s.openedAt.value < recovery as real {
      LaterRecoversLess(from - recovery as real, s.openedAt.value, until, recovery);
      OneMorePeriod(length, recovery);
      Times(threshold, Recoveries(s.openedAt.value, until, recovery), p + 1);
    }
  }

  /** `n` failing calls at one moment. */
  function Burst(at: real, n: nat): seq<Attempt> {
    seq(n, _ => Attempt(at, at, false))
  }

  /** A burst of `threshold` calls at `from` and after each of the next `periods` recoveries. */
  function Bursts(threshold: nat, recovery: int, from: real, periods: nat): seq<Attempt>
    decreases periods
  {
    Burst(from, threshold)
    + if periods == 0 then [] else Bursts(threshold, recovery, from + recovery as real, periods - 1)
  }

  lemma {:induction false} BurstStarts(
    threshold: nat, recovery: int, failures: nat, at: real, n: nat, rest: seq<Attempt>)
    requires threshold >= 1 && recovery >= 1 && failures + n == threshold && n >= 1
    ensures Starts(threshold, recovery, State(failures, None), Burst(at, n) + rest)
            == n + Starts(threshold, recovery, State(threshold, Some(at)), rest)
    decreases n
  {
    var run := Burst(at, n) + rest;
    assert run[0] == Attempt(at, at, false);
    assert run[1..] == Burst(at, n - 1) + rest;
    if n == 1 {
      assert Burst(at, 0) + rest == rest;
    } else {
      BurstStarts(threshold, recovery, failures + 1, at, n - 1, rest);
    }
  }

  lemma {:induction false} BurstFits(at: real, n: nat, until: real, rest: seq<Attempt>)
    requires at <= until && Sequential(at, rest) && Failing(until, rest)
    ensures Sequential(at, Burst(at, n) + rest) && Failing(until, Burst(at, n) + rest)
    decreases n
  {
    var run := Burst(at, n) + rest;
    if n == 0 {
      assert run == rest;
    } else {
      assert run[0] == Attempt(at, at, false);
      assert run[1..] == Burst(at, n - 1) + rest;
      BurstFits(at, n - 1, until, rest);
      assert run == [run[0]] + run[1..];
    }
  }

  lemma SequentialEarlier(x: real, y: real, run: seq<Attempt>)
    requires x <= y && Sequential(y, run)
    ensures Sequential(x, run)
  {
  }

  /** The bursts are such a stretch, of exactly `periods` recovery periods. */
  lemma {:induction false} BurstsFit(threshold: nat, recovery: int, from: real, periods: nat)
    requires threshold >= 1 && recovery >= 1
    ensures var run := Bursts(threshold, recovery, from, periods);
      Sequential(from, run) && Failing(from + (periods * recovery) as real, run)
    decreases periods
  {
    var until := from + (periods * recovery) as real;
    if periods == 0 {
      BurstFits(from, threshold, until, []);
    } else {
      var next := from + recovery as real;
      var rest := Bursts(threshold, recovery, next, periods - 1);
      BurstsFit(threshold, recovery, next, periods - 1);
      assert periods * recovery == recovery + (periods - 1) * recovery;
      assert until == next + ((periods - 1) * recovery) as real;
      assert (periods - 1) * recovery >= 0;
      SequentialEarlier(from, next, rest);
      BurstFits(from, threshold, until, rest);
    }
  }

  /** The bound is met: a provider that stays down is called this often. */
  lemma {:induction false} BoundIsMet(threshold: nat, recovery: int, s: State, from: real, periods: nat)
    requires threshold >= 1 && recovery >= 1
    requires s == CLOSED || (s.openedAt.Some? && from - s.openedAt.value >= recovery as real)
    ensures var run := Bursts(threshold, recovery, from, periods);
      Starts(threshold, recovery, s, run) == threshold * (periods + 1)
    decreases periods
  {
    var rest := if periods == 0 then [] else Bursts(threshold, recovery, from + recovery as real, periods - 1);
    var run := Burst(from, threshold) + rest;
    assert Called(threshold, recovery, s, run[0]) == Called(threshold, recovery, CLOSED, run[0]);
    assert Starts(threshold, recovery, s, run) == Starts(threshold, recovery, CLOSED, run);
    BurstStarts(threshold, recovery, 0, from, threshold, rest);
    if periods > 0 {
      BoundIsMet(threshold, recovery, State(threshold, Some(from)), from + recovery as real, periods - 1);
      assert threshold * (periods + 1) == threshold + threshold * periods;
    } else {
      assert threshold * (periods + 1) == threshold;
    }
  }

  // The breaker as a function of the operations that it started.

  /** The operations that a run starts, in order. */
  function Started(threshold: int, recovery: int, s: State, run: seq<Attempt>): seq<Attempt>
    decreases |run|
  {
    if run == [] then [] else
      var (s', reply) := Called(threshold, recovery, s, run[0]);
      (if reply.CircuitOpen? then [] else [run[0]]) + Started(threshold, recovery, s', run[1..])
  }

  /** How many operations at the end of `ops`, since the last success, have failed. */
  function Failures(ops: seq<Attempt>): nat {
    if ops == [] || ops[|ops| - 1].ok then 0 else 1 + Failures(ops[..|ops| - 1])
  }

  /** The state that a closed breaker reaches after starting `ops`: it opened with the last operation if and
      only if the failures since the last success fill up whole thresholds. */
  predicate Tells(threshold: int, s: State, ops: seq<Attempt>)
    requires threshold >= 1
  {
    var n := Failures(ops);
    if n > 0 && n % threshold == 0
    then ops != [] && s == State(threshold, Some(ops[|ops| - 1].ends))
    else s == State(n % threshold, None)
  }

  lemma OneMoreFailure(n: nat, threshold: int)
    requires threshold >= 1
    ensures (n + 1) % threshold == if n % threshold + 1 == threshold then 0 else n % threshold + 1
  {
    var q, r := n / threshold, n % threshold;
    assert n == threshold * q + r;
    if r + 1 == threshold {
      assert n + 1 == threshold * (q + 1);
      ModUnique(n + 1, threshold, q + 1, 0);
    } else {
      assert n + 1 == threshold * q + (r + 1);
      ModUnique(n + 1, threshold, q, r + 1);
    }
  }

  lemma Multiples(d: int, a: int, b: int)
    requires d >= 1 && a < b
    ensures d * a + d <= d * b
  {
    assert d * b == d * a + d * (b - a);
    assert d * (b - a - 1) >= 0;
  }

  lemma ModUnique(n: nat, d: int, q: int, r: int)
    requires d >= 1 && 0 <= r < d && n == d * q + r
    ensures n % d == r
  {
    var q' := n / d;
    if q > q' { Multiples(d, q', q); }
    if q < q' { Multiples(d, q, q'); }
  }

  lemma OneMore(ops: seq<Attempt>, a: Attempt)
    ensures Failures(ops + [a]) == if a.ok then 0 else 1 + Failures(ops)
  {
    assert (ops + [a])[..|ops|] == ops;
  }

  lemma StepTells(threshold: int, recovery: int, s: State, ops: seq<Attempt>, a: Attempt)
    requires threshold >= 1 && Tells(threshold, s, ops)
    ensures var (s', reply) := Called(threshold, recovery, s, a);
      Tells(threshold, s', if reply.CircuitOpen? then ops else ops + [a])
  {
    OneMore(ops, a);
    OneMoreFailure(Failures(ops), threshold);
  }

  lemma {:induction false} RunTells(threshold: int, recovery: int, s: State, ops: seq<Attempt>, run: seq<Attempt>)
    requires threshold >= 1 && Tells(threshold, s, ops)
    ensures Tells(threshold, StateAfter(threshold, recovery, s, run), ops + Started(threshold, recovery, s, run))
    decreases |run|
  {
    if run == [] {
      assert ops + [] == ops;
    } else {
      var (s', reply) := Called(threshold, recovery, s, run[0]);
      var more := if reply.CircuitOpen? then [] else [run[0]];
      var rest := Started(threshold, recovery, s', run[1..]);
      StepTells(threshold, recovery, s, ops, run[0]);
      assert ops + [] == ops;
      RunTells(threshold, recovery, s', ops + more, run[1..]);
      Regroup(ops, more, rest);
    }
  }

  /** After any run, successes included, the circuit is open if and only if the operations that failed since
      the last success are a positive multiple of the threshold, and the last one ended less than the recovery
      time ago. The next call is refused exactly then, and otherwise starts its operation. */
  lemma OpenExactly(threshold: int, recovery: int, run: seq<Attempt>, a: Attempt)
    requires threshold >= 1
    ensures var s, ops := StateAfter(threshold, recovery, CLOSED, run), Started(threshold, recovery, CLOSED, run);
      var open := Failures(ops) > 0 && Failures(ops) % threshold == 0
                  && a.at - ops[|ops| - 1].ends < recovery as real;
      && (OpenAt(recovery, s, a.at) <==> open)
      && Called(threshold, recovery, s, a).1 == if open then CircuitOpen else if a.ok then Succeeded else Failed
  {
    RunTells(threshold, recovery, CLOSED, [], run);
    var ops := Started(threshold, recovery, CLOSED, run);
    assert [] + ops == ops;
  }

  lemma {:induction false} AllStarted(threshold: int, recovery: int, s: State, ops: seq<Attempt>, rest: seq<Attempt>)
    requires threshold >= 1 && Tells(threshold, s, ops)
    requires Failures(ops) + |rest| <= threshold && (rest == [] || Failures(ops) < threshold)
    ensures Started(threshold, recovery, s, rest) == rest
    decreases |rest|
  {
    if rest != [] {
      SmallModulus(Failures(ops), threshold);
      var (s', reply) := Called(threshold, recovery, s, rest[0]);
      StepTells(threshold, recovery, s, ops, rest[0]);
      OneMore(ops, rest[0]);
      AllStarted(threshold, recovery, s', ops + [rest[0]], rest[1..]);
    }
  }

  lemma SmallModulus(n: nat, d: int)
    requires d >= 1 && n < d
    ensures n % d == n
  {
    ModUnique(n, d, 0, n);
  }

  lemma FreshStarts(threshold: int, recovery: int, rest: seq<Attempt>)
    requires threshold >= 1 && |rest| <= threshold
    ensures Started(threshold, recovery, CLOSED, rest) == rest
  {
    SmallModulus(0, threshold);
    AllStarted(threshold, recovery, CLOSED, [], rest);
  }

  /** A success wipes the slate: whatever came before it, none of the next `threshold` calls is refused. */
  lemma SuccessResets(threshold: int, recovery: int, run: seq<Attempt>, a: Attempt, rest: seq<Attempt>)
    requires threshold >= 1 && |rest| <= threshold
    requires Called(threshold, recovery, StateAfter(threshold, recovery, CLOSED, run), a).1.Succeeded?
    ensures var s := StateAfter(threshold, recovery, CLOSED, run);
      Started(threshold, recovery, Called(threshold, recovery, s, a).0, rest) == rest
  {
    FreshStarts(threshold, recovery, rest);
  }
}
