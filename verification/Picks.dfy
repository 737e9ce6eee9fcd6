/** Which positions of a list a loop picks out, in order. */
module Picks {

  ghost predicate Rises(at: seq<nat>) {
    forall i, j :: 0 <= i < j < |at| ==> at[i] < at[j]
  }

  /** `at` lists the positions below `n` that satisfy `p`, ascending and each once. */
  ghost predicate IsPick(at: seq<nat>, n: nat, p: nat -> bool) {
    && Rises(at)
    && (forall i :: 0 <= i < |at| ==> at[i] < n && p(at[i]))
    && (forall k: nat :: k < n && p(k) ==> k in at)
  }

  lemma PickNext(at: seq<nat>, n: nat, p: nat -> bool)
    requires IsPick(at, n, p)
    ensures IsPick(if p(n) then at + [n] else at, n + 1, p)
  {
  }

  lemma {:induction false} Spread(at: seq<nat>, i: nat, j: nat)
    requires Rises(at) && i <= j < |at|
    ensures at[j] - at[i] >= j - i
    decreases j
  {
    if i < j {
      Spread(at, i, j - 1);
      assert at[j - 1] < at[j];
    }
  }

  /** A pick with nothing left out starts with 0, 1, 2 and so on. */
  lemma {:induction false} PickAll(at: seq<nat>, n: nat, m: nat)
    requires Rises(at) && m <= n && forall k: nat :: k < n ==> k in at
    ensures m <= |at| && forall i :: 0 <= i < m ==> at[i] == i
    decreases m
  {
    if m > 0 {
      PickAll(at, n, m - 1);
      var k: nat := m - 1;
      assert k in at;
      var j :| 0 <= j < |at| && at[j] == k;
      assert j >= m - 1;
      Spread(at, m - 1, j);
      Spread(at, 0, m - 1);
    }
  }

  /** Nothing is left out if and only if the pick is as long as the list, and then it is the list. */
  lemma PickWhole(at: seq<nat>, n: nat, p: nat -> bool)
    requires IsPick(at, n, p)
    ensures |at| <= n
    ensures |at| == n <==> forall k: nat :: k < n ==> p(k)
    ensures |at| == n ==> forall i :: 0 <= i < n ==> at[i] == i
  {
    if at != [] {
      Spread(at, 0, |at| - 1);
    }
    if forall k: nat :: k < n ==> p(k) {
      PickAll(at, n, n);
    }
    if |at| == n {
      forall i | 0 <= i < n
        ensures at[i] == i && p(i)
      {
        Spread(at, 0, i);
        Spread(at, i, n - 1);
      }
    }
  }
}
