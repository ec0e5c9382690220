/** The in-place removal that Server::clearup performs on the vector of sessions. */
module Clearup {

  /** Of the first `n` elements, those whose entry in `closed` is `want`; `closed[i]` is what the one
      readyState read of `l[i]` said. */
  function Select<T>(l: seq<T>, closed: seq<bool>, want: bool, n: nat): seq<T>
    requires n <= |l| && n <= |closed|
  {
    if n == 0 then []
    else Select(l, closed, want, n - 1) + (if closed[n - 1] == want then [l[n - 1]] else [])
  }

  function Survivors<T>(l: seq<T>, closed: seq<bool>): seq<T>
    requires |l| == |closed|
  {
    Select(l, closed, false, |l|)
  }

  function Removed<T>(l: seq<T>, closed: seq<bool>): seq<T>
    requires |l| == |closed|
  {
    Select(l, closed, true, |l|)
  }

  /** The positions `Select` takes. */
  function Positions(closed: seq<bool>, want: bool, n: nat): seq<int>
    requires n <= |closed|
  {
    if n == 0 then []
    else Positions(closed, want, n - 1) + (if closed[n - 1] == want then [n - 1] else [])
  }

  lemma {:induction false} PositionsExact(closed: seq<bool>, want: bool, n: nat)
    requires n <= |closed|
    ensures forall i :: i in Positions(closed, want, n) <==> 0 <= i < n && closed[i] == want
  {
    if n > 0 {
      PositionsExact(closed, want, n - 1);
    }
  }

  ghost predicate Ascending(p: seq<int>, n: int) {
    && (forall k :: 0 <= k < |p| ==> p[k] < n)
    && (forall j, k :: 0 <= j < k < |p| ==> p[j] < p[k])
  }

  lemma {:induction false} PositionsAscend(closed: seq<bool>, want: bool, n: nat)
    requires n <= |closed|
    ensures Ascending(Positions(closed, want, n), n)
  {
    if n > 0 {
      PositionsAscend(closed, want, n - 1);
    }
  }

  /** Exact stable partition: each side takes exactly its own positions, in their order. */
  lemma {:induction false} StablePartition<T>(l: seq<T>, closed: seq<bool>, want: bool, n: nat)
    requires |l| == |closed| && n <= |l|
    ensures var p := Positions(closed, want, n);
      && |Select(l, closed, want, n)| == |p|
      && forall k :: 0 <= k < |p| ==> 0 <= p[k] < n && Select(l, closed, want, n)[k] == l[p[k]]
  {
    if n > 0 {
      StablePartition(l, closed, want, n - 1);
    }
  }

  lemma {:induction false} AllSurvive<T>(l: seq<T>, closed: seq<bool>, n: nat)
    requires |l| == |closed| && n <= |l|
    requires forall k :: 0 <= k < n ==> !closed[k]
    ensures Select(l, closed, false, n) == l[..n] && Select(l, closed, true, n) == []
  {
    if n > 0 {
      AllSurvive(l, closed, n - 1);
    }
  }

  /** std::remove_if followed by erase: a search for the first closed session, then one pass that
      moves each survivor down. `closed[i]` is the answer of the i-th call of the predicate. */
  method RemoveClosed<T>(a: array<T>, closed: seq<bool>) returns (n: nat, toFree: seq<T>)
    requires |closed| == a.Length
    modifies a
    ensures n <= a.Length
    ensures a[..n] == Survivors(old(a[..]), closed)
    ensures toFree == Removed(old(a[..]), closed)
  {
    ghost var l := a[..];
    n, toFree := 0, [];
    while n < a.Length && !closed[n]
      invariant n <= a.Length
      invariant a[..] == l
      invariant forall k :: 0 <= k < n ==> !closed[k]
    {
      n := n + 1;
    }
    AllSurvive(l, closed, n);
    ghost var kept := l[..n];
    var i := n;
    if i < a.Length {
      toFree := [a[i]];
      i := i + 1;
    }
    while i < a.Length
      invariant n <= i <= a.Length && (n < i || i == a.Length)
      invariant forall k :: i <= k < a.Length ==> a[k] == l[k]
      invariant kept == Select(l, closed, false, i)
      invariant n == |kept| && forall k :: 0 <= k < n ==> a[k] == kept[k]
      invariant toFree == Select(l, closed, true, i)
    {
      if closed[i] {
        toFree := toFree + [a[i]];
      } else {
        kept := kept + [a[i]];
        a[n] := a[i];
        n := n + 1;
      }
      i := i + 1;
    }
    assert a[..n] == kept;
  }
}
