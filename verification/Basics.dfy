/** Values shared by every module: an optional value and a success-or-error result. */
module Basics {
  datatype Option<+T> = None | Some(value: T)

  datatype Result<+T, +E> = Ok(value: T) | Err(error: E)

  /** An injection from a finite set shows it no larger than its target. */
  lemma {:induction false} InjectionCount<T, U>(a: set<T>, b: set<U>, f: map<T, U>)
    requires forall i :: i in a ==> i in f && f[i] in b
    requires forall i, j :: i in a && j in a && i != j ==> f[i] != f[j]
    ensures |a| <= |b|
  {
    if |a| > 0 {
      var i :| i in a;
      InjectionCount(a - {i}, b - {f[i]}, f);
    }
  }

  // ---------------------------------------------------------------- lists

  /** `[x for x in xs if keep(x)]`. */
  function Filter<T>(xs: seq<T>, keep: T -> bool): seq<T> {
    if xs == [] then []
    else if keep(xs[0]) then [xs[0]] + Filter(xs[1..], keep)
    else Filter(xs[1..], keep)
  }

  lemma {:induction false} FilterKeeps<T>(xs: seq<T>, keep: T -> bool)
    ensures forall x :: x in Filter(xs, keep) ==> x in xs && keep(x)
  {
    if xs != [] {
      FilterKeeps(xs[1..], keep);
    }
  }

  lemma {:induction false} FilterAll<T>(xs: seq<T>, keep: T -> bool)
    requires forall i :: 0 <= i < |xs| ==> keep(xs[i])
    ensures Filter(xs, keep) == xs
  {
    if xs != [] {
      FilterAll(xs[1..], keep);
    }
  }

  lemma Associates<T>(a: seq<T>, b: seq<T>, c: seq<T>)
    ensures a + (b + c) == a + b + c
  {
  }

  lemma FilterStep<T>(kept: seq<T>, xs: seq<T>, keep: T -> bool, i: nat)
    requires i < |xs| && kept + Filter(xs[i..], keep) == Filter(xs, keep)
    ensures (if keep(xs[i]) then kept + [xs[i]] else kept) + Filter(xs[i + 1..], keep) == Filter(xs, keep)
  {
    assert xs[i..][1..] == xs[i + 1..];
    Associates(kept, [xs[i]], Filter(xs[i + 1..], keep));
  }

  /** `[f(x) for x in xs]`. */
  function Map<T, U>(xs: seq<T>, f: T -> U): (ys: seq<U>)
    ensures |ys| == |xs|
    ensures forall i :: 0 <= i < |xs| ==> ys[i] == f(xs[i])
  {
    seq(|xs|, i requires 0 <= i < |xs| => f(xs[i]))
  }

  /** The first hit from `i` on, or the length. */
  function NextHit(hits: seq<bool>, i: nat): (n: nat)
    requires i <= |hits|
    ensures i <= n <= |hits|
    ensures n < |hits| ==> hits[n]
    decreases |hits| - i
  {
    if i == |hits| || hits[i] then i else NextHit(hits, i + 1)
  }

  lemma {:induction false} NoHitBefore(hits: seq<bool>, i: nat)
    requires i <= |hits|
    ensures forall k :: i <= k < NextHit(hits, i) ==> !hits[k]
    decreases |hits| - i
  {
    if i < |hits| && !hits[i] {
      NoHitBefore(hits, i + 1);
    }
  }

  lemma {:induction false} NextHitIs(hits: seq<bool>, i: nat, n: nat)
    requires i <= n <= |hits|
    requires forall k :: i <= k < n ==> !hits[k]
    requires n < |hits| ==> hits[n]
    ensures NextHit(hits, i) == n
    decreases n - i
  {
    if i < n {
      NextHitIs(hits, i + 1, n);
    }
  }
}
