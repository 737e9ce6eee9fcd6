/**
 The Elasticsearch index of agent actions, as fleet-server queries it.

 A document is addressed by its sequence number.  Every search fleet-server runs on this index is
 a window `lower < _seq_no <= upper`, optionally narrowed to unexpired documents and to one agent,
 sorted ascending and cut at a size limit.
 */
module Index {

  datatype Option<+T> = None | Some(value: T)

  /** How many pending actions a check-in asks for. */
  const MAX_AGENT_ACTIONS := 100

  /** Who can unmarshal a document that searches find: one that lists its agents everybody; one whose
      agents are not written as a list only the pending query, which leaves them out of its hits; a
      broken one nobody. */
  datatype Form = Listed | BareAgents | Broken

  /** `expiration` is the second the action expires; an action without one never matches the
      range clause, which is the same as having expired before every clock reading. */
  datatype Action = Action(agents: seq<string>, expiration: int, form: Form)

  type Docs = map<int, Action>

  /** `asOf` is the clock reading put into the expiration clause, when there is one. */
  datatype Window = Window(lower: int, upper: int, asOf: Option<int>, agent: Option<string>)

  predicate Matches(w: Window, d: Action) {
    && (w.asOf.Some? ==> d.expiration > w.asOf.value)
    && (w.agent.Some? ==> w.agent.value in d.agents)
  }

  predicate Selects(w: Window, docs: Docs, k: int) {
    k in docs && w.lower < k <= w.upper && Matches(w, docs[k])
  }

  function Last(ks: seq<int>): int
    requires ks != []
  {
    ks[|ks| - 1]
  }

  predicate Ascending(ks: seq<int>) {
    forall i, j :: 0 <= i < j < |ks| ==> ks[i] < ks[j]
  }

  /** `hits` is the answer of a sorted, size-limited search: selected documents only, ascending,
      and whatever is selected but missing lies above a full page. */
  ghost predicate IsSearch(hits: seq<int>, docs: Docs, w: Window, size: nat) {
    && Ascending(hits)
    && |hits| <= size
    && (forall k :: k in hits ==> Selects(w, docs, k))
    && (forall k :: Selects(w, docs, k) ==> k in hits || (|hits| == size && forall h :: h in hits ==> h < k))
  }

  predicate IsLeast(s: set<int>, m: int) {
    m in s && forall x :: x in s ==> m <= x
  }

  lemma {:induction false} LeastOf(s: set<int>, a: int) returns (m: int)
    requires a in s
    ensures IsLeast(s, m)
    decreases s
  {
    m := a;
    if b :| b in s && b < a {
      m := LeastOf(s - {a}, b);
      LeastWith(s, a, b, m);
    }
  }

  lemma LeastWith(s: set<int>, a: int, b: int, m: int)
    requires a in s && b in s && b < a && IsLeast(s - {a}, m)
    ensures IsLeast(s, m)
  {
    assert b in s - {a};
    forall x | x in s
      ensures m <= x
    {
      assert x != a ==> x in s - {a};
    }
  }

  function Least(s: set<int>, ghost a: int): (m: int)
    requires a in s
    ensures IsLeast(s, m)
  {
    assert exists m :: IsLeast(s, m) by {
      var m := LeastOf(s, a);
    }
    var m :| m in s && IsLeast(s, m);
    m
  }

  /** The first `n` members of `s`, ascending. */
  function Page(s: set<int>, n: nat): (ks: seq<int>)
    ensures Ascending(ks) && |ks| <= n
    ensures forall k :: k in ks ==> k in s
    ensures forall k :: k in s ==> k in ks || (|ks| == n && forall h :: h in ks ==> h < k)
    decreases n
  {
    if n == 0 || !(exists k :: k in s) then []
    else
      ghost var any :| any in s;
      var m := Least(s, any);
      var rest := Page(s - {m}, n - 1);
      PageStep(s, m, rest, n);
      [m] + rest
  }

  lemma PageStep(s: set<int>, m: int, rest: seq<int>, n: nat)
    requires n > 0 && IsLeast(s, m)
    requires Ascending(rest) && |rest| <= n - 1
    requires forall k :: k in rest ==> k in s - {m}
    requires forall k :: k in s - {m} ==> k in rest || (|rest| == n - 1 && forall h :: h in rest ==> h < k)
    ensures Ascending([m] + rest)
    ensures forall k :: k in [m] + rest ==> k in s
    ensures forall k :: k in s ==> k in [m] + rest || (|rest| == n - 1 && forall h :: h in [m] + rest ==> h < k)
  {
    forall i | 0 <= i < |rest|
      ensures m < rest[i]
    {
      assert rest[i] in rest;
      assert rest[i] in s - {m};
    }
    forall k | k in s
      ensures k in [m] + rest || (|rest| == n - 1 && forall h :: h in [m] + rest ==> h < k)
    {
      assert k == m || k in s - {m};
    }
  }

  /** The search Elasticsearch answers. */
  function Search(docs: Docs, w: Window, size: nat): (hits: seq<int>)
    ensures IsSearch(hits, docs, w, size)
  {
    Page((set k | k in docs && Selects(w, docs, k)), size)
  }

  lemma {:induction false} SearchPrefixUnique(a: seq<int>, b: seq<int>, docs: Docs, w: Window, size: nat, n: nat)
    requires IsSearch(a, docs, w, size) && IsSearch(b, docs, w, size)
    requires n <= |a|
    ensures n <= |b| && a[..n] == b[..n]
  {
    if n > 0 {
      SearchPrefixUnique(a, b, docs, w, size, n - 1);
      var i := n - 1;
      assert forall j :: 0 <= j < i ==> a[..i][j] == a[j] && b[..i][j] == b[j];
      assert Selects(w, docs, a[i]) by { assert a[i] in a; }
      assert i < |b|;
      assert Selects(w, docs, b[i]) by { assert b[i] in b; }
      assert a[i] in a && b[i] in b;
      assert a[i] == b[i];
      assert a[..n] == a[..i] + [a[i]];
      assert b[..n] == b[..i] + [b[i]];
    }
  }

  /** The index and the window leave only one possible answer. */
  lemma SearchUnique(a: seq<int>, b: seq<int>, docs: Docs, w: Window, size: nat)
    requires IsSearch(a, docs, w, size) && IsSearch(b, docs, w, size)
    ensures a == b
  {
    SearchPrefixUnique(a, b, docs, w, size, |a|);
    SearchPrefixUnique(b, a, docs, w, size, |b|);
    assert a[..|a|] == a && b[..|b|] == b;
  }

  /** Both indices hold the same documents at and below `upTo`. */
  ghost predicate SameUpTo(a: Docs, b: Docs, upTo: int) {
    forall k :: k <= upTo ==> (k in a <==> k in b) && (k in a && k in b ==> a[k] == b[k])
  }

  /** Documents above the window, in whatever order they appear, do not change the answer. */
  lemma SearchSettled(a: Docs, b: Docs, w: Window, size: nat)
    requires SameUpTo(a, b, w.upper)
    ensures Search(a, w, size) == Search(b, w, size)
  {
    assert forall k :: Selects(w, a, k) <==> Selects(w, b, k);
    SearchUnique(Search(a, w, size), Search(b, w, size), a, w, size);
  }
}
