/** Shared datatypes, 64-bit arithmetic and sums. */
module Prelude {

  datatype Option<+T> = None | Some(value: T) {
    function GetOr(default: T): T {
      match this
      case Some(v) => v
      case None => default
    }
  }

  datatype Result<+T, +E> = Ok(value: T) | Err(error: E)

  const U64_MAX: nat := 0xFFFF_FFFF_FFFF_FFFF

  /** Rust's u64. */
  type u64 = n: nat | n <= U64_MAX

  function Min(a: nat, b: nat): nat { if a <= b then a else b }

  function Max(a: nat, b: nat): nat { if a >= b then a else b }

  /** u64::saturating_add */
  function SatAdd(a: u64, b: u64): u64 { if a + b <= U64_MAX then a + b else U64_MAX }

  /** u64::saturating_sub */
  function SatSub(a: nat, b: nat): nat { if b <= a then a - b else 0 }

  /** u64::checked_add */
  function CheckedAdd(a: u64, b: u64): Option<u64> { if a + b <= U64_MAX then Some(a + b) else None }

  /** u64::checked_sub */
  function CheckedSub(a: u64, b: u64): Option<u64> { if b <= a then Some(a - b) else None }

  function Map<T, U>(f: T -> U, s: seq<T>): (r: seq<U>)
    ensures |r| == |s| && forall i :: 0 <= i < |s| ==> r[i] == f(s[i])
  {
    seq(|s|, i requires 0 <= i < |s| => f(s[i]))
  }

  /** SELECT of the rows in one of the given states, by id. */
  function ReadRows<R, S(==)>(stateOf: R -> S, rows: seq<R>, states: set<S>): (m: map<nat, R>)
    ensures forall id: nat :: id in m <==> id < |rows| && stateOf(rows[id]) in states
    ensures forall id: nat :: id in m ==> m[id] == rows[id]
  {
    map id: nat | 0 <= id < |rows| && stateOf(rows[id]) in states :: rows[id]
  }

  /** A run of steps, one after the other. */
  function Fold<S, T>(f: (S, T) -> S, s: S, ts: seq<T>): S {
    if ts == [] then s else f(Fold(f, s, ts[..|ts| - 1]), ts[|ts| - 1])
  }

  /** Some run of admissible steps leads from one state to the other. */
  ghost predicate Reaches<S(!new), T(!new)>(f: (S, T) -> S, ok: T -> bool, s: S, t: S) {
    exists ts: seq<T> :: Leads(f, ok, s, t, ts)
  }

  ghost predicate Leads<S, T(!new)>(f: (S, T) -> S, ok: T -> bool, s: S, t: S, ts: seq<T>) {
    Fold(f, s, ts) == t && forall x :: x in ts ==> ok(x)
  }

  lemma ReachesSelf<S(!new), T(!new)>(f: (S, T) -> S, ok: T -> bool, s: S)
    ensures Reaches(f, ok, s, s)
  {
    assert Leads(f, ok, s, s, []);
  }

  lemma ReachesNext<S(!new), T(!new)>(f: (S, T) -> S, ok: T -> bool, s: S, t: S, x: T)
    requires Reaches(f, ok, s, t) && ok(x)
    ensures Reaches(f, ok, s, f(t, x))
  {
    var ts :| Leads(f, ok, s, t, ts);
    FoldExtends(f, s, ts, x);
    assert Leads(f, ok, s, f(t, x), ts + [x]);
  }

  /** Two runs in a row. */
  lemma ReachesOn<S(!new), T(!new)>(f: (S, T) -> S, ok: T -> bool, more: T -> bool, s: S, t: S, u: S)
    requires Reaches(f, ok, s, t) && Reaches(f, more, t, u)
    requires forall x :: more(x) ==> ok(x)
    ensures Reaches(f, ok, s, u)
  {
    var first :| Leads(f, ok, s, t, first);
    var second :| Leads(f, more, t, u, second);
    FoldConcat(f, s, first, second);
    assert Leads(f, ok, s, u, first + second);
  }

  /** The run is good after every prefix of its steps. */
  predicate Always<S, T>(good: S -> bool, f: (S, T) -> S, s: S, ts: seq<T>) {
    good(Fold(f, s, ts)) && (ts == [] || Always(good, f, s, ts[..|ts| - 1]))
  }

  /** Every step of the run is safe in the state it is taken. */
  predicate EachStep<S, T>(safe: (S, T) -> bool, f: (S, T) -> S, s: S, ts: seq<T>) {
    ts == [] || (EachStep(safe, f, s, ts[..|ts| - 1]) && safe(Fold(f, s, ts[..|ts| - 1]), ts[|ts| - 1]))
  }

  /** What every step keeps holds at the end of every run. */
  lemma {:induction false} FoldKeeps<S(!new), T(!new)>(inv: S -> bool, f: (S, T) -> S, s: S, ts: seq<T>)
    requires inv(s)
    requires forall x, t :: inv(x) ==> inv(f(x, t))
    ensures inv(Fold(f, s, ts))
  {
    if ts != [] { FoldKeeps(inv, f, s, ts[..|ts| - 1]); }
  }

  /** Where a step keeps a good state exactly when it is safe, a run is always good exactly when each step is safe. */
  lemma {:induction false} AlwaysExactly<S(!new), T(!new)>(inv: S -> bool, good: S -> bool, safe: (S, T) -> bool,
                                                                 f: (S, T) -> S, s: S, ts: seq<T>)
    requires inv(s) && good(s)
    requires forall x, t :: inv(x) ==> inv(f(x, t))
    requires forall x, t :: inv(x) && good(x) ==> (good(f(x, t)) <==> safe(x, t))
    ensures Always(good, f, s, ts) <==> EachStep(safe, f, s, ts)
  {
    if ts != [] {
      var front := ts[..|ts| - 1];
      AlwaysExactly(inv, good, safe, f, s, front);
      FoldKeeps(inv, f, s, front);
      assert Always(good, f, s, front) ==> good(Fold(f, s, front));
    }
  }

  lemma FoldExtends<S, T>(f: (S, T) -> S, s: S, ts: seq<T>, t: T)
    ensures Fold(f, s, ts + [t]) == f(Fold(f, s, ts), t)
  {
    assert (ts + [t])[..|ts|] == ts;
  }

  /** A run can be cut anywhere. */
  lemma {:induction false} FoldConcat<S, T>(f: (S, T) -> S, s: S, a: seq<T>, b: seq<T>)
    ensures Fold(f, s, a + b) == Fold(f, Fold(f, s, a), b)
  {
    if b == [] {
      assert a + b == a;
    } else {
      assert (a + b)[..|a + b| - 1] == a + b[..|b| - 1];
      FoldConcat(f, s, a, b[..|b| - 1]);
    }
  }

  lemma FoldTwo<S, T>(f: (S, T) -> S, s: S, a: T, b: T)
    ensures Fold(f, s, [a, b]) == f(f(s, a), b)
  {
    FoldExtends(f, s, [], a);
    FoldExtends(f, s, [a], b);
    assert [] + [a] == [a] && [a] + [b] == [a, b];
  }

  lemma FoldThree<S, T>(f: (S, T) -> S, s: S, a: T, b: T, c: T)
    ensures Fold(f, s, [a, b, c]) == f(f(f(s, a), b), c)
  {
    FoldTwo(f, s, a, b);
    FoldExtends(f, s, [a, b], c);
    assert [a, b] + [c] == [a, b, c];
  }

  /** The steps of a run for which p holds in the state they are taken. */
  function Count<S, T>(p: (S, T) -> bool, f: (S, T) -> S, s: S, ts: seq<T>): nat {
    if ts == [] then 0 else
      var front := ts[..|ts| - 1];
      Count(p, f, s, front) + if p(Fold(f, s, front), ts[|ts| - 1]) then 1 else 0
  }

  lemma OneMore(n: nat, limit: nat)
    ensures (n + 1) * limit == n * limit + limit
  {
  }

  /** When some steps use up one unit of at most `limit` and others give all of them back, the uses are paid for by what
      is used now and by the resets. */
  lemma {:induction false} Amortized<S(!new), T(!new)>(good: S -> bool, fits: T -> bool, used: S -> nat, limit: nat,
      uses: (S, T) -> bool, resets: (S, T) -> bool, f: (S, T) -> S, s: S, ts: seq<T>)
    requires good(s) && forall t :: t in ts ==> fits(t)
    requires forall x :: good(x) ==> used(x) <= limit
    requires forall x, t :: good(x) && fits(t) ==>
               && good(f(x, t)) && !(uses(x, t) && resets(x, t))
               && used(f(x, t)) == if resets(x, t) then 0 else used(x) + if uses(x, t) then 1 else 0
    ensures good(Fold(f, s, ts))
    ensures Count(uses, f, s, ts) + used(s) <= used(Fold(f, s, ts)) + Count(resets, f, s, ts) * limit
  {
    if ts != [] {
      var front, last := ts[..|ts| - 1], ts[|ts| - 1];
      Amortized(good, fits, used, limit, uses, resets, f, s, front);
      assert last in ts && good(f(Fold(f, s, front), last));
      OneMore(Count(resets, f, s, front), limit);
    }
  }

  function Sum<T>(weight: T -> nat, s: seq<T>): nat {
    if s == [] then 0 else Sum(weight, s[..|s| - 1]) + weight(s[|s| - 1])
  }

  lemma {:induction false} SumConcat<T>(weight: T -> nat, a: seq<T>, b: seq<T>)
    ensures Sum(weight, a + b) == Sum(weight, a) + Sum(weight, b)
  {
    if b == [] {
      assert a + b == a;
    } else {
      assert (a + b)[..|a + b| - 1] == a + b[..|b| - 1];
      SumConcat(weight, a, b[..|b| - 1]);
    }
  }

  lemma SumOfTwo<T>(weight: T -> nat, x: T, y: T)
    ensures Sum(weight, [x]) == weight(x)
    ensures Sum(weight, [x, y]) == weight(x) + weight(y)
  {
    assert [x][..0] == [];
    assert [x, y][..1] == [x];
  }

  /** Replacing one element changes the sum by the difference of the two weights. */
  lemma {:induction false} SumUpdate<T>(weight: T -> nat, s: seq<T>, i: nat, x: T)
    requires i < |s|
    ensures Sum(weight, s[i := x]) + weight(s[i]) == Sum(weight, s) + weight(x)
  {
    if i == |s| - 1 {
      assert s[i := x][..|s| - 1] == s[..|s| - 1];
    } else {
      assert s[i := x][..|s| - 1] == s[..|s| - 1][i := x];
      SumUpdate(weight, s[..|s| - 1], i, x);
    }
  }

  lemma {:induction false} SumAtLeast<T>(weight: T -> nat, s: seq<T>, i: nat)
    requires i < |s|
    ensures weight(s[i]) <= Sum(weight, s)
  {
    if i < |s| - 1 { SumAtLeast(weight, s[..|s| - 1], i); }
  }

  /** A pointwise smaller weight has a smaller sum. */
  lemma {:induction false} SumMonotone<T>(small: T -> nat, large: T -> nat, s: seq<T>)
    requires forall x :: x in s ==> small(x) <= large(x)
    ensures Sum(small, s) <= Sum(large, s)
  {
    if s != [] { SumMonotone(small, large, s[..|s| - 1]); }
  }

  lemma {:induction false} SumPointwise<T>(weight: T -> nat, small: seq<T>, large: seq<T>)
    requires |small| == |large|
    requires forall i :: 0 <= i < |small| ==> weight(small[i]) <= weight(large[i])
    ensures Sum(weight, small) <= Sum(weight, large)
  {
    if small != [] { SumPointwise(weight, small[..|small| - 1], large[..|large| - 1]); }
  }

  function Without<T>(s: seq<T>, i: nat): seq<T>
    requires i < |s|
  {
    s[..i] + s[i + 1..]
  }

  lemma {:induction false} SumWithout<T>(weight: T -> nat, s: seq<T>, i: nat)
    requires i < |s|
    ensures Sum(weight, Without(s, i)) + weight(s[i]) == Sum(weight, s)
  {
    var n := |s| - 1;
    if i == n {
      assert Without(s, i) == s[..n];
    } else {
      SumWithout(weight, s[..n], i);
      assert Without(s, i)[..n - 1] == Without(s[..n], i);
    }
  }

  lemma MultisetWithout<T>(s: seq<T>, i: nat)
    requires i < |s|
    ensures multiset(Without(s, i)) == multiset(s) - multiset{s[i]}
  {
    assert s == s[..i] + [s[i]] + s[i + 1..];
  }

  /** A sum does not depend on the order of the elements. */
  lemma {:induction false} SumPermutation<T>(weight: T -> nat, a: seq<T>, b: seq<T>)
    requires multiset(a) == multiset(b)
    ensures Sum(weight, a) == Sum(weight, b)
    decreases |a|
  {
    if a == [] {
      assert |multiset(b)| == 0;
    } else {
      assert a[0] in multiset(b);
      var i :| 0 <= i < |b| && b[i] == a[0];
      SumWithout(weight, a, 0);
      SumWithout(weight, b, i);
      MultisetWithout(a, 0);
      MultisetWithout(b, i);
      SumPermutation(weight, Without(a, 0), Without(b, i));
    }
  }
}
