/**
 The index monitor: follows an index by sequence number and publishes, batch by batch, the
 documents between its checkpoint and the index's global checkpoint.
 */
module IndexMonitor {
  import opened Index

  /** One checkpoint per shard; fleet-server reads only the first. */
  type SeqNo = seq<int>

  const UNDEFINED_SEQ_NO := -1

  function Value(s: SeqNo): int {
    if |s| == 0 then UNDEFINED_SEQ_NO else s[0]
  }

  /** What the environment does during one fetch: the documents a search can see, the clock, a
      search error, and whether the context ends before the batch is taken. */
  datatype Fetch = Fetch(view: Docs, now: int, fails: bool, cancelled: bool)

  /** The answer of one wait for the global checkpoint to advance. */
  datatype Wait = Advanced(checkpoint: SeqNo) | IndexNotFound | TimedOut | WaitFailed

  datatype Round = Round(wait: Wait, sleepCancelled: bool, fetch: nat -> Fetch)

  datatype Outcome = Drained | SearchError | Cancelled

  predicate LiveAt(withExpiration: bool, d: Action, now: int) {
    withExpiration ==> d.expiration > now
  }

  /** Where batch `i` starts: where the one before it ended. */
  function From(start: int, out: seq<seq<int>>, i: nat): int
    requires i <= |out|
  {
    if i == 0 || out[i - 1] == [] then start else Last(out[i - 1])
  }

  /** Batch `i` holds exactly the documents of its stretch that were live when it was fetched. */
  ghost predicate IsTile(docs: Docs, withExpiration: bool, from: int, batch: seq<int>, asOf: int) {
    && batch != []
    && Ascending(batch)
    && from < batch[0]
    && (forall k :: k in batch <==>
                    k in docs && from < k <= Last(batch) && LiveAt(withExpiration, docs[k], asOf))
  }

  /** The batches, read at the clock readings `asOf`, tile the range from `start` on. */
  ghost predicate Tiles(docs: Docs, withExpiration: bool, start: int, out: seq<seq<int>>, asOf: seq<int>) {
    |asOf| == |out| && forall i :: 0 <= i < |out| ==> TileAt(docs, withExpiration, start, out, asOf, i)
  }

  ghost predicate TileAt(docs: Docs, withExpiration: bool, start: int, out: seq<seq<int>>, asOf: seq<int>, i: nat)
    requires i < |out| == |asOf|
  {
    IsTile(docs, withExpiration, From(start, out, i), out[i], asOf[i])
  }

  lemma TileRises(docs: Docs, withExpiration: bool, start: int, out: seq<seq<int>>, asOf: seq<int>, i: nat)
    requires Tiles(docs, withExpiration, start, out, asOf) && i < |out|
    ensures out[i] != [] && From(start, out, i) < From(start, out, i + 1) == Last(out[i])
    ensures forall k :: k in out[i] ==> k in docs && From(start, out, i) < k <= Last(out[i])
  {
    assert TileAt(docs, withExpiration, start, out, asOf, i);
    assert Last(out[i]) in out[i];
  }

  /** A batch that starts where the last one ended extends the tiling. */
  lemma TilesExtend(docs: Docs, withExpiration: bool, start: int, out: seq<seq<int>>, asOf: seq<int>,
                    batch: seq<int>, now: int)
    requires Tiles(docs, withExpiration, start, out, asOf)
    requires IsTile(docs, withExpiration, From(start, out, |out|), batch, now)
    ensures Tiles(docs, withExpiration, start, out + [batch], asOf + [now])
    ensures From(start, out + [batch], |out| + 1) == Last(batch)
  {
    var out', asOf' := out + [batch], asOf + [now];
    forall i | 0 <= i < |out'|
      ensures TileAt(docs, withExpiration, start, out', asOf', i)
    {
      assert From(start, out', i) == From(start, out, i);
      assert i < |out| ==> TileAt(docs, withExpiration, start, out, asOf, i);
    }
  }

  function Flatten(out: seq<seq<int>>): seq<int> {
    if out == [] then [] else Flatten(out[..|out| - 1]) + out[|out| - 1]
  }

  ghost predicate InBatch(out: seq<seq<int>>, k: int) {
    exists i :: 0 <= i < |out| && k in out[i]
  }

  lemma {:induction false} FlattenMembers(out: seq<seq<int>>, k: int)
    ensures k in Flatten(out) <==> InBatch(out, k)
  {
    if out != [] {
      var n := |out| - 1;
      FlattenMembers(out[..n], k);
      if InBatch(out, k) && k !in out[n] {
        var i :| 0 <= i < |out| && k in out[i];
        assert out[..n][i] == out[i];
      }
      if InBatch(out[..n], k) {
        var i :| 0 <= i < n && k in out[..n][i];
        assert out[i] == out[..n][i];
      }
    }
  }

  /** Batches start later and later. */
  lemma {:induction false} FromAscends(docs: Docs, withExpiration: bool, start: int, out: seq<seq<int>>, asOf: seq<int>,
                                       i: nat, j: nat)
    requires Tiles(docs, withExpiration, start, out, asOf)
    requires i <= j <= |out|
    ensures From(start, out, i) <= From(start, out, j)
    decreases j
  {
    if i < j {
      FromAscends(docs, withExpiration, start, out, asOf, i, j - 1);
      TileRises(docs, withExpiration, start, out, asOf, j - 1);
    }
  }

  lemma TilesPrefix(docs: Docs, withExpiration: bool, start: int, out: seq<seq<int>>, asOf: seq<int>, n: nat)
    requires Tiles(docs, withExpiration, start, out, asOf)
    requires n <= |out|
    ensures Tiles(docs, withExpiration, start, out[..n], asOf[..n])
    ensures From(start, out[..n], n) == From(start, out, n)
  {
    forall i | 0 <= i < n
      ensures TileAt(docs, withExpiration, start, out[..n], asOf[..n], i)
    {
      assert TileAt(docs, withExpiration, start, out, asOf, i);
    }
  }

  lemma AscendingJoin(a: seq<int>, b: seq<int>, between: int)
    requires Ascending(a) && Ascending(b)
    requires (forall k :: k in a ==> k <= between) && (forall k :: k in b ==> between < k)
    ensures Ascending(a + b)
  {
    assert forall i :: 0 <= i < |a| ==> a[i] in a;
    assert forall i :: 0 <= i < |b| ==> b[i] in b;
  }

  lemma {:induction false} PublishedAscending(docs: Docs, withExpiration: bool, start: int, out: seq<seq<int>>,
                                              asOf: seq<int>)
    requires Tiles(docs, withExpiration, start, out, asOf)
    ensures Ascending(Flatten(out))
    ensures forall k :: k in Flatten(out) ==> k <= From(start, out, |out|)
  {
    if out != [] {
      var n := |out| - 1;
      TilesPrefix(docs, withExpiration, start, out, asOf, n);
      PublishedAscending(docs, withExpiration, start, out[..n], asOf[..n]);
      TileRises(docs, withExpiration, start, out, asOf, n);
      assert TileAt(docs, withExpiration, start, out, asOf, n);
      AscendingJoin(Flatten(out[..n]), out[n], From(start, out, n));
    }
  }

  /** The batch in whose stretch `k` falls. */
  lemma {:induction false} TileOf(docs: Docs, withExpiration: bool, start: int, out: seq<seq<int>>, asOf: seq<int>,
                                  k: int)
    returns (i: nat)
    requires Tiles(docs, withExpiration, start, out, asOf)
    requires start < k <= From(start, out, |out|)
    ensures i < |out| && From(start, out, i) < k <= From(start, out, i + 1)
    decreases |out|
  {
    var n := |out| - 1;
    if From(start, out, n) < k {
      i := n;
    } else {
      TilesPrefix(docs, withExpiration, start, out, asOf, n);
      i := TileOf(docs, withExpiration, start, out[..n], asOf[..n], k);
      assert From(start, out[..n], i) == From(start, out, i);
    }
  }

  lemma OnlyTile(docs: Docs, withExpiration: bool, start: int, out: seq<seq<int>>, asOf: seq<int>, i: nat, j: nat,
                 k: int)
    requires Tiles(docs, withExpiration, start, out, asOf)
    requires i < |out| && j < |out| && From(start, out, i) < k <= From(start, out, i + 1) && k in out[j]
    ensures j == i
  {
    TileRises(docs, withExpiration, start, out, asOf, j);
    if i < j {
      FromAscends(docs, withExpiration, start, out, asOf, i + 1, j);
    } else if j < i {
      FromAscends(docs, withExpiration, start, out, asOf, j + 1, i);
    }
  }

  /** A document of the index is published if and only if it was live when the batch whose stretch
      it falls in was fetched, and nothing else is published. */
  lemma PublishedWhenLive(docs: Docs, withExpiration: bool, start: int, out: seq<seq<int>>, asOf: seq<int>, i: nat,
                          k: int)
    requires Tiles(docs, withExpiration, start, out, asOf)
    requires i < |out| && From(start, out, i) < k <= From(start, out, i + 1)
    ensures k in Flatten(out) <==> k in docs && LiveAt(withExpiration, docs[k], asOf[i])
  {
    FlattenMembers(out, k);
    assert TileAt(docs, withExpiration, start, out, asOf, i);
    TileRises(docs, withExpiration, start, out, asOf, i);
    if InBatch(out, k) {
      var j :| 0 <= j < |out| && k in out[j];
      OnlyTile(docs, withExpiration, start, out, asOf, i, j, k);
    }
  }

  /** Everything published, taken together, is strictly ascending, lies between the start and the
      checkpoint, and without an expiration clause is exactly the documents there. */
  lemma PublishedExactlyOnce(docs: Docs, withExpiration: bool, start: int, out: seq<seq<int>>, asOf: seq<int>)
    requires Tiles(docs, withExpiration, start, out, asOf)
    ensures Ascending(Flatten(out))
    ensures forall k :: k in Flatten(out) ==> k in docs && start < k <= From(start, out, |out|)
    ensures !withExpiration ==>
              forall k :: k in docs && start < k <= From(start, out, |out|) ==> k in Flatten(out)
  {
    PublishedAscending(docs, withExpiration, start, out, asOf);
    forall k | k in Flatten(out)
      ensures k in docs && start < k <= From(start, out, |out|)
    {
      FlattenMembers(out, k);
      var j :| 0 <= j < |out| && k in out[j];
      TileRises(docs, withExpiration, start, out, asOf, j);
      FromAscends(docs, withExpiration, start, out, asOf, 0, j);
      FromAscends(docs, withExpiration, start, out, asOf, j + 1, |out|);
    }
    if !withExpiration {
      forall k | k in docs && start < k <= From(start, out, |out|)
        ensures k in Flatten(out)
      {
        var i := TileOf(docs, withExpiration, start, out, asOf, k);
        PublishedWhenLive(docs, withExpiration, start, out, asOf, i, k);
      }
    }
  }

  /** No document is left to fetch in the window. */
  ghost predicate Exhausted(w: Window, docs: Docs) {
    forall k :: !Selects(w, docs, k)
  }

  lemma ShortPageExhausts(docs: Docs, w: Window, size: nat, hits: seq<int>)
    requires IsSearch(hits, docs, w, size) && |hits| < size
    ensures Exhausted(if hits == [] then w else w.(lower := Last(hits)), docs)
  {
    if hits != [] {
      assert forall k :: k in hits ==> k <= Last(hits);
      assert Last(hits) in hits && Selects(w, docs, Last(hits));
      assert forall k :: Selects(w.(lower := Last(hits)), docs, k) ==> Selects(w, docs, k);
    }
  }

  /** A non-empty page of a search above `from` is a tile of the index. */
  lemma PageIsTile(docs: Docs, withExpiration: bool, w: Window, size: nat, hits: seq<int>, now: int)
    requires IsSearch(hits, docs, w, size) && hits != []
    requires w.agent == None && w.asOf == (if withExpiration then Some(now) else None)
    ensures IsTile(docs, withExpiration, w.lower, hits, now)
    ensures w.lower < Last(hits) <= w.upper
  {
    assert Selects(w, docs, hits[0]) && Selects(w, docs, Last(hits));
    forall k | k in docs && w.lower < k <= Last(hits) && LiveAt(withExpiration, docs[k], now)
      ensures k in hits
    {
      assert Selects(w, docs, k);
      assert Last(hits) in hits;
    }
  }

  lemma PageSettled(view: Docs, docs: Docs, w: Window, size: nat, hits: seq<int>)
    requires IsSearch(hits, view, w, size) && SameUpTo(view, docs, w.upper)
    ensures IsSearch(hits, docs, w, size)
    ensures hits != [] ==> Last(hits) in docs && w.lower < Last(hits) <= w.upper
  {
    assert forall k :: Selects(w, view, k) <==> Selects(w, docs, k);
    if hits != [] {
      assert Last(hits) in hits;
    }
  }

  // ---------------------------------------------------------------- what a run owes

  /** The checkpoint advances, no fetch of the round fails, and no batch is held up by the context. */
  ghost predicate Complete(round: Round) {
    round.wait.Advanced? && forall j: nat :: !round.fetch(j).fails && !round.fetch(j).cancelled
  }

  /** The context ends while the round waits to try again. */
  predicate Stops(round: Round) {
    (round.wait.IndexNotFound? || round.wait.WaitFailed?) && round.sleepCancelled
  }

  /** Document `k` appears between the start and the checkpoint round `i` is told, and does not expire
      before any clock reading up to that round, where that matters. */
  ghost predicate Owed(docs: Docs, withExpiration: bool, start: int, rounds: seq<Round>, i: nat, k: int)
    requires i < |rounds|
  {
    && Complete(rounds[i]) && k in docs && start < k <= Value(rounds[i].wait.checkpoint)
    && (withExpiration ==>
          forall a: nat, b: nat :: a <= i ==> docs[k].expiration > rounds[a].fetch(b).now)
  }

  ghost predicate PaidUpTo(docs: Docs, withExpiration: bool, start: int, rounds: seq<Round>, n: nat, out: seq<seq<int>>)
    requires n <= |rounds|
  {
    forall i: nat, k: int :: i < n && Owed(docs, withExpiration, start, rounds, i, k) ==> k in Flatten(out)
  }

  /** The clock was read for a batch in one of the first `n` rounds. */
  ghost predicate ReadIn(rounds: seq<Round>, n: nat, now: int)
    requires n <= |rounds|
  {
    exists a: nat, b: nat :: a < n && rounds[a].fetch(b).now == now
  }

  ghost predicate AllReadIn(rounds: seq<Round>, n: nat, asOf: seq<int>)
    requires n <= |rounds|
  {
    forall t :: 0 <= t < |asOf| ==> ReadIn(rounds, n, asOf[t])
  }

  lemma {:induction false} FlattenGrows(out: seq<seq<int>>, more: seq<seq<int>>)
    requires out <= more
    ensures forall k :: k in Flatten(out) ==> k in Flatten(more)
  {
    forall k | k in Flatten(out)
      ensures k in Flatten(more)
    {
      FlattenMembers(out, k);
      FlattenMembers(more, k);
      var i :| 0 <= i < |out| && k in out[i];
      assert more[i] == out[i];
    }
  }

  /** Once nothing is left to fetch below a checkpoint, every document up to it that was live at all
      readings is published. */
  lemma ExhaustedPublished(docs: Docs, withExpiration: bool, start: int, out: seq<seq<int>>, asOf: seq<int>,
                           upper: int, now: int, k: int)
    requires Tiles(docs, withExpiration, start, out, asOf)
    requires Exhausted(Window(From(start, out, |out|), upper, if withExpiration then Some(now) else None, None), docs)
    requires k in docs && start < k <= upper && LiveAt(withExpiration, docs[k], now)
    requires forall t :: 0 <= t < |asOf| ==> LiveAt(withExpiration, docs[k], asOf[t])
    ensures k in Flatten(out)
  {
    if k > From(start, out, |out|) {
      var w := Window(From(start, out, |out|), upper, if withExpiration then Some(now) else None, None);
      assert Selects(w, docs, k);
      assert false;
    }
    var i := TileOf(docs, withExpiration, start, out, asOf, k);
    PublishedWhenLive(docs, withExpiration, start, out, asOf, i, k);
  }

  lemma RoundPays(docs: Docs, withExpiration: bool, start: int, rounds: seq<Round>, n: nat,
                  out: seq<seq<int>>, asOf: seq<int>, j: nat)
    requires n < |rounds| && Complete(rounds[n]) && Tiles(docs, withExpiration, start, out, asOf)
    requires AllReadIn(rounds, n + 1, asOf) && PaidUpTo(docs, withExpiration, start, rounds, n, out)
    requires Exhausted(Window(From(start, out, |out|), Value(rounds[n].wait.checkpoint),
                              if withExpiration then Some(rounds[n].fetch(j).now) else None, None), docs)
    ensures PaidUpTo(docs, withExpiration, start, rounds, n + 1, out)
  {
    forall k | Owed(docs, withExpiration, start, rounds, n, k)
      ensures k in Flatten(out)
    {
      forall t | 0 <= t < |asOf|
        ensures LiveAt(withExpiration, docs[k], asOf[t])
      {
        assert ReadIn(rounds, n + 1, asOf[t]);
      }
      ExhaustedPublished(docs, withExpiration, start, out, asOf, Value(rounds[n].wait.checkpoint),
        rounds[n].fetch(j).now, k);
    }
  }

  lemma StillPaid(docs: Docs, withExpiration: bool, start: int, rounds: seq<Round>, n: nat,
                  out: seq<seq<int>>, more: seq<seq<int>>)
    requires n <= |rounds| && PaidUpTo(docs, withExpiration, start, rounds, n, out) && out <= more
    ensures PaidUpTo(docs, withExpiration, start, rounds, n, more)
  {
    FlattenGrows(out, more);
  }

  lemma StillRead(rounds: seq<Round>, n: nat, asOf: seq<int>, more: seq<int>)
    requires n < |rounds| && AllReadIn(rounds, n, asOf) && asOf <= more
    requires forall t :: |asOf| <= t < |more| ==> exists b: nat :: rounds[n].fetch(b).now == more[t]
    ensures AllReadIn(rounds, n + 1, more)
  {
    forall t | 0 <= t < |more|
      ensures ReadIn(rounds, n + 1, more[t])
    {
      if t < |asOf| {
        assert ReadIn(rounds, n, asOf[t]);
      } else {
        var b: nat :| rounds[n].fetch(b).now == more[t];
      }
    }
  }

  class SimpleMonitor {
    const fetchSize: nat
    const withExpiration: bool
    var checkpoint: SeqNo
    var out: seq<seq<int>>  // every batch put on the output channel, oldest first
    ghost var asOf: seq<int>  // the clock reading each batch was fetched with

    constructor (fetchSize: nat, withExpiration: bool)
      requires fetchSize > 0
      ensures this.fetchSize == fetchSize && this.withExpiration == withExpiration
      ensures checkpoint == [UNDEFINED_SEQ_NO] && out == [] && asOf == []
    {
      this.fetchSize := fetchSize;
      this.withExpiration := withExpiration;
      checkpoint := [UNDEFINED_SEQ_NO];
      out, asOf := [], [];
    }

    /** What the monitor has published since it started tiles the index up to its checkpoint. */
    ghost predicate Follows(docs: Docs, start: int)
      reads this
    {
      && fetchSize > 0
      && Tiles(docs, withExpiration, start, out, asOf)
      && Value(checkpoint) == From(start, out, |out|)
    }

    function FetchWindow(maxCheckpoint: SeqNo, now: int): Window
      reads this
    {
      Window(Value(checkpoint), Value(maxCheckpoint), if withExpiration then Some(now) else None, None)
    }

    method FetchHits(f: Fetch, maxCheckpoint: SeqNo) returns (hits: Option<seq<int>>)
      ensures hits.None? <==> f.fails
      ensures hits.Some? ==> IsSearch(hits.value, f.view, FetchWindow(maxCheckpoint, f.now), fetchSize)
    {
      if f.fails {
        return None;
      }
      hits := Some(Search(f.view, FetchWindow(maxCheckpoint, f.now), fetchSize));
    }

    method Notify(hits: seq<int>, cancelled: bool, ghost now: int) returns (count: nat)
      modifies this
      ensures hits == [] || cancelled ==>
                count == 0 && out == old(out) && checkpoint == old(checkpoint) && asOf == old(asOf)
      ensures hits != [] && !cancelled ==>
                && count == |hits| && out == old(out) + [hits]
                && checkpoint == [Last(hits)] && asOf == old(asOf) + [now]
    {
      var sz := |hits|;
      if sz > 0 {
        if !cancelled {
          out, asOf := out + [hits], asOf + [now];
          var maxVal := hits[sz - 1];
          checkpoint := [maxVal];
          return sz;
        }
      }
      return 0;
    }

    /** One pass of the inner loop: fetch a page and hand it on. */
    method FetchPage(newCheckpoint: SeqNo, f: Fetch, ghost docs: Docs, ghost start: int)
      returns (r: Outcome, count: nat)
      requires Follows(docs, start) && SameUpTo(f.view, docs, Value(newCheckpoint))
      modifies this
      ensures Follows(docs, start) && old(out) <= out
      ensures !f.fails && !f.cancelled ==> r == Drained
      ensures asOf == old(asOf) || asOf == old(asOf) + [f.now]
      ensures out == old(out) ==> checkpoint == old(checkpoint)
      ensures out != old(out) ==>
                && Value(old(checkpoint)) < Value(checkpoint) <= Value(newCheckpoint)
                && exists k :: k in docs && k <= Value(newCheckpoint)
      ensures r == Drained && count == fetchSize ==> Value(old(checkpoint)) < Value(checkpoint) <= Value(newCheckpoint)
      ensures r == Drained && count != fetchSize ==> Exhausted(FetchWindow(newCheckpoint, f.now), docs)
    {
      count := 0;
      var hits := FetchHits(f, newCheckpoint);
      if hits.None? {
        return SearchError, 0;
      }
      ghost var w := FetchWindow(newCheckpoint, f.now);
      PageSettled(f.view, docs, w, fetchSize, hits.value);
      if hits.value != [] {
        PageIsTile(docs, withExpiration, w, fetchSize, hits.value, f.now);
        TilesExtend(docs, withExpiration, start, out, asOf, hits.value, f.now);
      }
      if |hits.value| < fetchSize {
        ShortPageExhausts(docs, w, fetchSize, hits.value);
      }
      count := Notify(hits.value, f.cancelled, f.now);
      r := if f.cancelled && hits.value != [] then Cancelled else Drained;
    }

    /** The inner loop of Run: fetch until a page comes back short. */
    method FetchUpTo(newCheckpoint: SeqNo, fetch: nat -> Fetch, ghost docs: Docs, ghost start: int)
      returns (r: Outcome, ghost fetches: nat)
      requires Follows(docs, start)
      requires forall i: nat :: SameUpTo(fetch(i).view, docs, Value(newCheckpoint))
      modifies this
      ensures Follows(docs, start)
      ensures old(out) <= out && old(asOf) <= asOf
      ensures forall t :: |old(asOf)| <= t < |asOf| ==> exists b: nat :: fetch(b).now == asOf[t]
      ensures (forall j: nat :: !fetch(j).fails && !fetch(j).cancelled) ==> r == Drained
      ensures Value(old(checkpoint)) <= Value(checkpoint)
      ensures Value(checkpoint) > Value(old(checkpoint)) ==> Value(checkpoint) <= Value(newCheckpoint)
      ensures r == Drained ==>
                fetches > 0 && Exhausted(FetchWindow(newCheckpoint, fetch(fetches - 1).now), docs)
      ensures (forall k :: k in docs ==> k > Value(newCheckpoint)) ==>
                out == old(out) && checkpoint == old(checkpoint)
    {
      var count := fetchSize;
      var i: nat := 0;
      r := Drained;
      while count == fetchSize
        invariant r == Drained && Follows(docs, start) && old(out) <= out && old(asOf) <= asOf
        invariant forall t :: |old(asOf)| <= t < |asOf| ==> exists b: nat :: fetch(b).now == asOf[t]
        invariant Value(old(checkpoint)) <= Value(checkpoint)
        invariant Value(checkpoint) > Value(old(checkpoint)) ==> Value(checkpoint) <= Value(newCheckpoint)
        invariant count != fetchSize ==>
                    i > 0 && Exhausted(FetchWindow(newCheckpoint, fetch(i - 1).now), docs)
        invariant (forall k :: k in docs ==> k > Value(newCheckpoint)) ==>
                    out == old(out) && checkpoint == old(checkpoint)
        decreases count == fetchSize,
                  if Value(newCheckpoint) > Value(checkpoint) then Value(newCheckpoint) - Value(checkpoint) else 0
      {
        r, count := FetchPage(newCheckpoint, fetch(i), docs, start);
        i := i + 1;
        if r != Drained {
          break;
        }
      }
      fetches := i;
    }

    /** The monitor's life: read the global checkpoint once, then follow it round by round until
        the context ends.  `docs` is the index as it finally settles. */
    method Run(initial: Option<SeqNo>, rounds: seq<Round>, ghost docs: Docs) returns (ok: bool, ghost ran: nat)
      requires fetchSize > 0 && out == [] && asOf == []
      requires forall k :: k in docs ==> k >= 0
      requires forall i: nat, j: nat :: i < |rounds| ==>
                 SameUpTo(rounds[i].fetch(j).view, docs,
                          if rounds[i].wait.Advanced? then Value(rounds[i].wait.checkpoint) else UNDEFINED_SEQ_NO)
      requires initial.Some? ==> Value(initial.value) >= UNDEFINED_SEQ_NO
      modifies this
      ensures initial.None? ==> !ok && ran == 0 && out == [] && checkpoint == old(checkpoint)
      ensures initial.Some? ==> Follows(docs, Value(initial.value)) && Value(checkpoint) >= Value(initial.value)
      ensures initial.Some? ==>
                && ran <= |rounds| && (ok <==> ran == |rounds|) && (!ok ==> Stops(rounds[ran]))
                && (forall i :: 0 <= i < ran ==> !Stops(rounds[i]))
      ensures initial.Some? ==> PaidUpTo(docs, withExpiration, Value(initial.value), rounds, ran, out)
    {
      ran := 0;
      if initial.None? {
        return false, 0;
      }
      checkpoint := initial.value;
      ghost var start := Value(initial.value);
      for i := 0 to |rounds|
        invariant Follows(docs, start) && Value(checkpoint) >= start
        invariant AllReadIn(rounds, i, asOf) && PaidUpTo(docs, withExpiration, start, rounds, i, out)
        invariant forall j :: 0 <= j < i ==> !Stops(rounds[j])
      {
        ghost var out0, asOf0 := out, asOf;
        var wait := rounds[i].wait;
        var newCheckpoint: SeqNo := [];
        if wait.Advanced? {
          newCheckpoint := wait.checkpoint;
        } else if wait.TimedOut? {
          StillRead(rounds, i, asOf0, asOf);
          continue;
        } else if rounds[i].sleepCancelled {
          return false, i;
        }
        var r, n := FetchUpTo(newCheckpoint, rounds[i].fetch, docs, start);
        StillRead(rounds, i, asOf0, asOf);
        StillPaid(docs, withExpiration, start, rounds, i, out0, out);
        if Complete(rounds[i]) {
          RoundPays(docs, withExpiration, start, rounds, i, out, asOf, n - 1);
        }
      }
      ok, ran := true, |rounds|;
    }
  }
}
