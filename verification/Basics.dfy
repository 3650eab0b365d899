/** Small datatypes and sequence facts shared by the other modules. */
module Basics {

  datatype Option<+T> = None | Some(value: T)

  /** JSON-like values: job requests, tool arguments and tool results.
      A literal stands for null, a boolean or a number and carries its printed text. */
  datatype Json =
    | Lit(text: string)
    | Str(s: string)
    | Arr(items: seq<Json>)
    | Obj(entries: seq<Entry>)

  datatype Entry = Entry(key: string, value: Json)

  function Pow2(n: nat): (p: nat)
    ensures p >= 1
  {
    if n == 0 then 1 else 2 * Pow2(n - 1)
  }

  /** Occurrences of `x` in `s`. */
  function Count<T(==)>(s: seq<T>, x: T): nat {
    multiset(s)[x]
  }

  predicate NoDup<T(==)>(s: seq<T>) {
    forall i, j :: 0 <= i < j < |s| ==> s[i] != s[j]
  }

  /** Python's `list.remove` and Redis' `LREM key 1 x`: drop the first occurrence, if any. */
  function RemoveFirst<T(==)>(s: seq<T>, x: T): (r: seq<T>)
  {
    if s == [] then [] else if s[0] == x then s[1..] else [s[0]] + RemoveFirst(s[1..], x)
  }

  function Reverse<T>(s: seq<T>): (r: seq<T>)
    ensures |r| == |s|
  {
    if s == [] then [] else Reverse(s[1..]) + [s[0]]
  }

  function ToSet<T(==)>(s: seq<T>): set<T> {
    set x | x in s
  }

  lemma Regroup<T>(s: seq<T>, t: seq<T>, u: seq<T>)
    ensures s + (t + u) == (s + t) + u
  {
  }

  lemma CountConcat<T>(s: seq<T>, t: seq<T>, x: T)
    ensures Count(s + t, x) == Count(s, x) + Count(t, x)
  {
  }

  lemma CountPositive<T>(s: seq<T>, x: T)
    ensures x in s <==> Count(s, x) >= 1
  {
  }

  lemma CountSingle<T>(y: T, x: T)
    ensures Count([y], x) == if x == y then 1 else 0
  {
  }

  lemma CountHead<T>(s: seq<T>, x: T)
    requires s != []
    ensures Count(s, x) == (if s[0] == x then 1 else 0) + Count(s[1..], x)
  {
    assert s == [s[0]] + s[1..];
  }

  lemma CountLast<T>(s: seq<T>, x: T)
    requires s != []
    ensures Count(s, x) == (if s[|s| - 1] == x then 1 else 0) + Count(s[..|s| - 1], x)
  {
    assert s == s[..|s| - 1] + [s[|s| - 1]];
  }

  lemma {:induction false} CountRemoveFirst<T>(s: seq<T>, y: T, x: T)
    ensures Count(RemoveFirst(s, y), x) == if x == y && x in s then Count(s, x) - 1 else Count(s, x)
  {
    if s != [] {
      CountHead(s, x);
      if s[0] != y {
        CountRemoveFirst(s[1..], y, x);
        CountConcat([s[0]], RemoveFirst(s[1..], y), x);
        CountSingle(s[0], x);
      }
    }
  }

  lemma {:induction false} CountReverse<T>(s: seq<T>, x: T)
    ensures Count(Reverse(s), x) == Count(s, x)
  {
    if s != [] {
      CountHead(s, x);
      CountReverse(s[1..], x);
      CountConcat(Reverse(s[1..]), [s[0]], x);
      CountSingle(s[0], x);
    }
  }

  /** No element occurs twice exactly when every occurrence count is at most one. */
  lemma {:induction false} NoDupIffCount<T>(s: seq<T>)
    ensures NoDup(s) <==> forall x <- s :: Count(s, x) <= 1
  {
    if s != [] {
      var rest := s[1..];
      NoDupIffCount(rest);
      forall x ensures Count(s, x) == (if s[0] == x then 1 else 0) + Count(rest, x) {
        CountHead(s, x);
      }
      forall x ensures x in rest <==> Count(rest, x) >= 1 {
        CountPositive(rest, x);
      }
      if NoDup(s) {
        assert s[0] !in rest;
        assert NoDup(rest);
      }
      if forall x <- s :: Count(s, x) <= 1 {
        assert Count(s, s[0]) <= 1;
        assert s[0] !in rest;
        forall x <- rest ensures Count(rest, x) <= 1 {
          assert x in s;
        }
        forall i, j | 0 <= i < j < |s| ensures s[i] != s[j] {
          if i == 0 {
            assert s[j] == rest[j - 1];
          } else {
            assert s[i] == rest[i - 1] && s[j] == rest[j - 1];
          }
        }
      }
    }
  }

  lemma {:induction false} RemoveFirstKeepsNoDup<T>(s: seq<T>, y: T)
    requires NoDup(s)
    ensures NoDup(RemoveFirst(s, y))
    ensures forall x :: x in RemoveFirst(s, y) <==> x in s && x != y
  {
    if s != [] {
      RemoveFirstKeepsNoDup(s[1..], y);
      forall x ensures x in RemoveFirst(s, y) <==> x in s && x != y {
        if x in s && x != s[0] { assert x in s[1..]; }
      }
      if s[0] != y {
        var r := RemoveFirst(s[1..], y);
        assert s[0] !in s[1..];
        assert s[0] !in r;
        forall i, j | 0 <= i < j < |[s[0]] + r| ensures ([s[0]] + r)[i] != ([s[0]] + r)[j] {
        }
      }
    }
  }

  lemma {:induction false} RemoveFirstAbsent<T>(s: seq<T>, x: T)
    requires x !in s
    ensures RemoveFirst(s, x) == s
  {
    if s != [] {
      RemoveFirstAbsent(s[1..], x);
      assert s == [s[0]] + s[1..];
    }
  }

  /** Reversing turns "push in front" into "append behind" and "pop the last" into "pop the first". */
  lemma ReversePush<T>(s: seq<T>, x: T)
    ensures Reverse([x] + s) == Reverse(s) + [x]
  {
    assert ([x] + s)[1..] == s;
  }

  lemma {:induction false} ReversePop<T>(s: seq<T>)
    requires s != []
    ensures Reverse(s[..|s| - 1]) == Reverse(s)[1..]
    ensures Reverse(s)[0] == s[|s| - 1]
  {
    if |s| > 1 {
      var rest := s[1..];
      ReversePop(rest);
      assert s[..|s| - 1][1..] == rest[..|rest| - 1];
      assert Reverse(s) == Reverse(rest) + [s[0]];
    }
  }
}
