/**
 The bulker's loop: requests are queued by kind, and the queues are flushed together when a
 threshold is reached or a timer fires.  Each flush hands a whole queue to a goroutine of its own.
 */
module Bulker {

  datatype Kind = Create | Delete | IndexDoc | Update | Read | Search

  /** A request: `ch` is the channel its answer goes to and `idx` its position there. */
  datatype Item = Item(idx: nat, kind: Kind, ch: nat, data: string, refresh: bool)

  /** What a queue is flushed with. */
  datatype Action = Reads | Searches | Writes

  datatype Queue = Queue(action: Action, items: seq<Item>, pending: nat)

  datatype Timer = Stopped | Armed | Fired

  /** A queue handed to a flush goroutine. */
  datatype Batch = Batch(action: Action, items: seq<Item>)

  const QUEUE_BULK := 0
  const QUEUE_READ := 1
  const QUEUE_SEARCH := 2
  const QUEUE_REFRESH := 3
  const NUM_QUEUES := 4

  function ActionOf(k: nat): Action {
    if k == QUEUE_READ then Reads else if k == QUEUE_SEARCH then Searches else Writes
  }

  function QueueOf(item: Item): (q: nat)
    ensures q < NUM_QUEUES
  {
    match item.kind
    case Read => QUEUE_READ
    case Search => QUEUE_SEARCH
    case _ => if item.refresh then QUEUE_REFRESH else QUEUE_BULK
  }

  // ---------------------------------------------------------------- what queues and batches hold

  function Bytes(items: seq<Item>): nat {
    if items == [] then 0 else Bytes(items[..|items| - 1]) + |items[|items| - 1].data|
  }

  /** Everything queued, queue by queue. */
  function Items(qs: seq<Queue>): seq<Item> {
    if qs == [] then [] else Items(qs[..|qs| - 1]) + qs[|qs| - 1].items
  }

  function Pending(qs: seq<Queue>): nat {
    if qs == [] then 0 else Pending(qs[..|qs| - 1]) + qs[|qs| - 1].pending
  }

  /** The batches a flush makes of the queues: one for each that has something pending. */
  function Batches(qs: seq<Queue>): seq<Batch> {
    if qs == [] then []
    else
      var q := qs[|qs| - 1];
      Batches(qs[..|qs| - 1]) + if q.pending > 0 then [Batch(q.action, q.items)] else []
  }

  function BatchItems(bs: seq<Batch>): seq<Item> {
    if bs == [] then [] else BatchItems(bs[..|bs| - 1]) + bs[|bs| - 1].items
  }

  function Emptied(q: Queue): Queue {
    Queue(q.action, [], 0)
  }

  /** The queues after the first `k` of them have been flushed. */
  function FlushedUpTo(qs: seq<Queue>, k: nat): seq<Queue> {
    seq(|qs|, j requires 0 <= j < |qs| => if j < k then Emptied(qs[j]) else qs[j])
  }

  function Enqueue(qs: seq<Queue>, item: Item): seq<Queue>
    requires |qs| == NUM_QUEUES
  {
    qs[QueueOf(item) := Grown(qs[QueueOf(item)], item)]
  }

  /** Queue `k` counts its bytes and holds only requests that belong there, none of them empty. */
  ghost predicate QueueInv(q: Queue, k: nat) {
    && q.action == ActionOf(k) && q.pending == Bytes(q.items)
    && (forall i :: 0 <= i < |q.items| ==> QueueOf(q.items[i]) == k && q.items[i].data != "")
  }

  ghost predicate QueuesInv(qs: seq<Queue>) {
    |qs| == NUM_QUEUES && forall k :: 0 <= k < NUM_QUEUES ==> QueueInv(qs[k], k)
  }

  /** What a queue is for, by its number: writes that do not ask for a refresh, reads, searches, and
      writes that do. */
  predicate Belongs(item: Item, k: nat) {
    match k
    case 0 => item.kind != Read && item.kind != Search && !item.refresh
    case 1 => item.kind == Read
    case 2 => item.kind == Search
    case 3 => item.kind != Read && item.kind != Search && item.refresh
    case _ => false
  }

  lemma QueueByKind(item: Item, k: nat)
    requires k < 4
    ensures QueueOf(item) == k <==> Belongs(item, k)
  {
  }

  /** The requests of one kind among others, in order. */
  function Only(items: seq<Item>, k: nat): seq<Item> {
    if items == [] then []
    else Only(items[..|items| - 1], k) + if Belongs(items[|items| - 1], k) then [items[|items| - 1]] else []
  }

  /** Every request in a batch belongs to one queue. */
  ghost predicate BatchInv(b: Batch, k: nat) {
    b.action == ActionOf(k) && b.items != [] && forall i :: 0 <= i < |b.items| ==> QueueOf(b.items[i]) == k
  }

  ghost predicate FromOneQueue(b: Batch) {
    exists k :: 0 <= k < NUM_QUEUES && BatchInv(b, k)
  }

  /** A batch is sent as what its requests are: reads as reads, searches as searches, and writes as
      writes, all with a refresh or all without. */
  lemma BatchOfItsKind(b: Batch)
    requires FromOneQueue(b)
    ensures b.items != []
    ensures forall i :: 0 <= i < |b.items| ==>
              && (b.items[i].kind == Read <==> b.action == Reads)
              && (b.items[i].kind == Search <==> b.action == Searches)
              && (b.action == Writes ==> b.items[i].refresh == b.items[0].refresh)
  {
    var k :| 0 <= k < NUM_QUEUES && BatchInv(b, k);
    forall i | 0 <= i < |b.items|
      ensures Belongs(b.items[i], k)
    {
      QueueByKind(b.items[i], k);
    }
    assert Belongs(b.items[0], k);
  }

  lemma {:induction false} OnlyAppend(a: seq<Item>, b: seq<Item>, k: nat)
    ensures Only(a + b, k) == Only(a, k) + Only(b, k)
  {
    if b == [] {
      assert a + b == a;
    } else {
      var n := |b| - 1;
      OnlyAppend(a, b[..n], k);
      assert (a + b)[..|a + b| - 1] == a + b[..n];
    }
  }

  /** A queue holds requests of its own kind. */
  lemma {:induction false} OnlyOwn(items: seq<Item>, j: nat, k: nat)
    requires j < NUM_QUEUES && k < NUM_QUEUES && forall i :: 0 <= i < |items| ==> QueueOf(items[i]) == j
    ensures Only(items, k) == if j == k then items else []
  {
    if items != [] {
      var n := |items| - 1;
      OnlyOwn(items[..n], j, k);
      QueueByKind(items[n], k);
      assert items == items[..n] + [items[n]];
    }
  }

  /** What flushing the first `upTo` queues puts in batches, by kind. */
  lemma {:induction false} OnlyFlushed(qs: seq<Queue>, upTo: nat, k: nat)
    requires QueuesInv(qs) && upTo <= |qs| && k < NUM_QUEUES
    ensures Only(BatchItems(Batches(qs[..upTo])), k) == if k < upTo then qs[k].items else []
    decreases upTo
  {
    if upTo > 0 {
      var j := upTo - 1;
      OnlyFlushed(qs, j, k);
      FlushOneMore(qs, j);
      PendingIffItems(qs);
      assert QueueInv(qs[j], j);
      OnlyOwn(qs[j].items, j, k);
      if qs[j].pending > 0 {
        BatchItemsAppend(Batches(qs[..j]), [Batch(qs[j].action, qs[j].items)]);
        OneBatch(qs[j]);
        OnlyAppend(BatchItems(Batches(qs[..j])), qs[j].items, k);
      }
    }
  }

  lemma OneBatch(q: Queue)
    ensures BatchItems([Batch(q.action, q.items)]) == q.items
  {
    assert [Batch(q.action, q.items)][..0] == [];
  }

  lemma {:induction false} BytesPositive(items: seq<Item>)
    requires forall i :: 0 <= i < |items| ==> items[i].data != ""
    ensures Bytes(items) > 0 <==> items != []
  {
    if items != [] {
      BytesPositive(items[..|items| - 1]);
    }
  }

  function Grown(q: Queue, item: Item): Queue {
    Queue(q.action, q.items + [item], q.pending + |item.data|)
  }

  lemma ItemsOf(qs: seq<Queue>, q: Queue)
    ensures Items(qs + [q]) == Items(qs) + q.items
  {
    assert (qs + [q])[..|qs|] == qs;
  }

  lemma JoinBags(a: seq<Item>, b: seq<Item>)
    ensures multiset(a + b) == multiset(a) + multiset(b)
  {
  }

  /** `after` holds what `before` holds and `item`. */
  ghost predicate OneMore(before: seq<Item>, after: seq<Item>, item: Item) {
    |after| == |before| + 1 && multiset(after) == multiset(before) + multiset{item}
  }

  lemma OneMoreLast(before: seq<Item>, item: Item)
    ensures OneMore(before, before + [item], item)
  {
  }

  lemma OneMoreEarlier(before: seq<Item>, after: seq<Item>, rest: seq<Item>, item: Item)
    requires OneMore(before, after, item)
    ensures OneMore(before + rest, after + rest, item)
  {
    JoinBags(before, rest);
    JoinBags(after, rest);
  }

  lemma {:induction false} AppendItems(qs: seq<Queue>, i: nat, item: Item)
    requires i < |qs|
    ensures OneMore(Items(qs), Items(qs[i := Grown(qs[i], item)]), item)
  {
    var n := |qs| - 1;
    var init, last := qs[..n], qs[n];
    ItemsOf(init, last);
    assert qs == init + [last];
    if i == n {
      ItemsOf(init, Grown(last, item));
      assert Items(init) + (last.items + [item]) == Items(init) + last.items + [item];
      OneMoreLast(Items(init) + last.items, item);
      assert qs[i := Grown(last, item)] == init + [Grown(last, item)];
    } else {
      var init' := init[i := Grown(init[i], item)];
      AppendItems(init, i, item);
      ItemsOf(init', last);
      OneMoreEarlier(Items(init), Items(init'), last.items, item);
      assert qs[i := Grown(qs[i], item)] == init' + [last];
    }
  }

  lemma {:induction false} AppendPending(qs: seq<Queue>, i: nat, item: Item)
    requires i < |qs|
    ensures Pending(qs[i := Grown(qs[i], item)]) == Pending(qs) + |item.data|
  {
    var n := |qs| - 1;
    var after := qs[i := Grown(qs[i], item)];
    if i == n {
      assert after[..n] == qs[..n];
    } else {
      AppendPending(qs[..n], i, item);
      assert after[..n] == qs[..n][i := Grown(qs[..n][i], item)];
    }
    assert Pending(after) == Pending(after[..n]) + after[n].pending;
  }

  lemma EnqueueCounts(qs: seq<Queue>, item: Item)
    requires |qs| == NUM_QUEUES
    ensures |Items(Enqueue(qs, item))| == |Items(qs)| + 1 && Pending(Enqueue(qs, item)) == Pending(qs) + |item.data|
  {
    AppendItems(qs, QueueOf(item), item);
    AppendPending(qs, QueueOf(item), item);
  }

  lemma NothingFlushed(qs: seq<Queue>)
    ensures FlushedUpTo(qs, 0) == qs && Batches(qs[..0]) == []
  {
  }

  lemma EnqueueInv(qs: seq<Queue>, item: Item)
    requires QueuesInv(qs) && item.data != ""
    ensures QueuesInv(Enqueue(qs, item))
  {
    var q := qs[QueueOf(item)];
    assert QueueInv(q, QueueOf(item));
    assert (q.items + [item])[..|q.items|] == q.items;
    forall k | 0 <= k < NUM_QUEUES
      ensures QueueInv(Enqueue(qs, item)[k], k)
    {
      assert QueueInv(qs[k], k);
    }
  }

  lemma FlushedInv(qs: seq<Queue>, k: nat)
    requires QueuesInv(qs)
    ensures QueuesInv(FlushedUpTo(qs, k))
  {
    forall j | 0 <= j < NUM_QUEUES
      ensures QueueInv(FlushedUpTo(qs, k)[j], j)
    {
      assert QueueInv(qs[j], j);
    }
  }

  lemma {:induction false} FlushedCounts(qs: seq<Queue>, k: nat)
    requires k >= |qs|
    ensures Items(FlushedUpTo(qs, k)) == [] && Pending(FlushedUpTo(qs, k)) == 0
    decreases |qs|
  {
    if qs != [] {
      var n := |qs| - 1;
      FlushedCounts(qs[..n], k);
      assert FlushedUpTo(qs, k)[..n] == FlushedUpTo(qs[..n], k);
    }
  }

  lemma {:induction false} BatchesHold(qs: seq<Queue>)
    requires forall j :: 0 <= j < |qs| ==> (qs[j].pending > 0 <==> qs[j].items != [])
    ensures BatchItems(Batches(qs)) == Items(qs)
  {
    if qs != [] {
      var n := |qs| - 1;
      BatchesHold(qs[..n]);
      var before := Batches(qs[..n]);
      if qs[n].pending > 0 {
        var all := before + [Batch(qs[n].action, qs[n].items)];
        assert all[..|all| - 1] == before;
        assert BatchItems(all) == BatchItems(before) + qs[n].items;
      } else {
        assert Batches(qs) == before;
      }
    }
  }

  lemma {:induction false} FlushedItems(qs: seq<Queue>, k: nat)
    requires k <= |qs|
    ensures Items(qs) == Items(qs[..k]) + Items(FlushedUpTo(qs, k))
    decreases |qs|
  {
    if k == |qs| {
      assert qs[..k] == qs;
      FlushedCounts(qs, k);
    } else {
      var n := |qs| - 1;
      FlushedItems(qs[..n], k);
      assert qs[..n][..k] == qs[..k];
      var after := FlushedUpTo(qs, k);
      assert after[..n] == FlushedUpTo(qs[..n], k);
      assert Items(after) == Items(after[..n]) + after[n].items;
    }
  }

  /** Flushing the first `k` queues moves their requests to batches, losing and repeating none. */
  lemma FlushConserves(qs: seq<Queue>, k: nat)
    requires QueuesInv(qs) && k <= |qs|
    ensures BatchItems(Batches(qs[..k])) + Items(FlushedUpTo(qs, k)) == Items(qs)
  {
    PendingIffItems(qs);
    BatchesHold(qs[..k]);
    FlushedItems(qs, k);
  }

  lemma PendingIffItems(qs: seq<Queue>)
    requires QueuesInv(qs)
    ensures forall j :: 0 <= j < |qs| ==> (qs[j].pending > 0 <==> qs[j].items != [])
  {
    forall j | 0 <= j < |qs|
      ensures qs[j].pending > 0 <==> qs[j].items != []
    {
      assert QueueInv(qs[j], j);
      BytesPositive(qs[j].items);
    }
  }

  lemma {:induction false} BatchItemsAppend(a: seq<Batch>, b: seq<Batch>)
    ensures BatchItems(a + b) == BatchItems(a) + BatchItems(b)
  {
    if b == [] {
      assert a + b == a;
    } else {
      var n := |b| - 1;
      BatchItemsAppend(a, b[..n]);
      assert (a + b)[..|a + b| - 1] == a + b[..n];
    }
  }

  /** Whatever a flush puts in a batch came from one queue. */
  lemma {:induction false} BatchesWellFormed(qs: seq<Queue>, k: nat, b: Batch)
    requires QueuesInv(qs) && k <= |qs| && b in Batches(qs[..k])
    ensures FromOneQueue(b)
    decreases k
  {
    if k > 0 {
      var n := k - 1;
      assert qs[..k][..n] == qs[..n];
      if b !in Batches(qs[..n]) {
        assert QueueInv(qs[n], n);
        PendingIffItems(qs);
        assert BatchInv(b, n);
      } else {
        BatchesWellFormed(qs, n, b);
      }
    }
  }

  lemma FlushOneMore(qs: seq<Queue>, k: nat)
    requires QueuesInv(qs) && k < |qs|
    ensures FlushedUpTo(qs, k)[k] == qs[k]
    ensures qs[k].pending > 0 ==>
              && FlushedUpTo(qs, k)[k := Emptied(qs[k])] == FlushedUpTo(qs, k + 1)
              && Batches(qs[..k + 1]) == Batches(qs[..k]) + [Batch(qs[k].action, qs[k].items)]
    ensures qs[k].pending == 0 ==>
            FlushedUpTo(qs, k) == FlushedUpTo(qs, k + 1) && Batches(qs[..k + 1]) == Batches(qs[..k])
  {
    assert qs[..k + 1][..k] == qs[..k];
    PendingIffItems(qs);
    assert qs[k].pending == 0 ==> qs[k] == Emptied(qs[k]);
  }

  lemma AllFlushed(qs: seq<Queue>)
    requires QueuesInv(qs)
    ensures var after := FlushedUpTo(qs, NUM_QUEUES); QueuesInv(after) && |Items(after)| == 0 && Pending(after) == 0
  {
    FlushedInv(qs, NUM_QUEUES);
    FlushedCounts(qs, NUM_QUEUES);
  }

  // ---------------------------------------------------------------- the loop

  /** Something the loop wakes up for; `acquired(n)` tells whether the n-th wait for a flush slot
      succeeds or the context ends first. */
  datatype Event =
    | Arrive(item: Item, acquired: nat -> bool)
    | TimerFires(acquired: nat -> bool)
    | Done

  /** The requests among the events, in order. */
  function Arrivals(events: seq<Event>): seq<Item> {
    if events == [] then []
    else
      var ev := events[|events| - 1];
      Arrivals(events[..|events| - 1]) + if ev.Arrive? then [ev.item] else []
  }

  /** The context ends, or a flush that the event brings about may find no slot. */
  ghost predicate MayStop(ev: Event) {
    ev.Done? || exists m: nat :: !ev.acquired(m)
  }

  /** Whatever had arrived when the timer fired is in a batch. */
  ghost predicate FlushedByTimer(events: seq<Event>, n: nat, flushed: seq<Batch>)
    requires n <= |events|
  {
    forall i :: 0 <= i < n ==> TimerServed(events, i, flushed)
  }

  predicate TimerServed(events: seq<Event>, i: nat, flushed: seq<Batch>)
    requires i < |events|
  {
    events[i].TimerFires? ==> multiset(Arrivals(events[..i])) <= multiset(BatchItems(flushed))
  }

  lemma FlushedMore(events: seq<Event>, n: nat, flushed: seq<Batch>, more: seq<Batch>)
    requires n <= |events| && FlushedByTimer(events, n, flushed) && flushed <= more
    ensures FlushedByTimer(events, n, more)
  {
    assert more == flushed + more[|flushed|..];
    BatchItemsAppend(flushed, more[|flushed|..]);
    JoinBags(BatchItems(flushed), BatchItems(more[|flushed|..]));
    forall i | 0 <= i < n
      ensures TimerServed(events, i, more)
    {
      assert TimerServed(events, i, flushed);
    }
  }

  lemma ArrivalsNext(events: seq<Event>, i: nat)
    requires i < |events|
    ensures Arrivals(events[..i + 1])
            == Arrivals(events[..i]) + if events[i].Arrive? then [events[i].item] else []
  {
    assert events[..i + 1][..i] == events[..i];
  }

  lemma TimerStep(events: seq<Event>, i: nat, flushed: seq<Batch>, queues: seq<Queue>)
    requires i < |events| && FlushedByTimer(events, i, flushed) && Accounts(Arrivals(events[..i + 1]), flushed, queues)
    requires events[i].TimerFires? ==> |Items(queues)| == 0
    ensures FlushedByTimer(events, i + 1, flushed)
  {
    ArrivalsNext(events, i);
    if events[i].TimerFires? {
      assert Items(queues) == [];
      assert Arrivals(events[..i + 1]) == Arrivals(events[..i]);
    }
    assert TimerServed(events, i, flushed);
  }

  class Loop {
    const thresholdCnt: int
    const thresholdSz: int
    var queues: seq<Queue>
    var itemCnt: nat
    var byteCnt: nat
    var timer: Timer
    var flushed: seq<Batch>  // every batch handed over, oldest first

    constructor (thresholdCnt: int, thresholdSz: int)
      ensures this.thresholdCnt == thresholdCnt && this.thresholdSz == thresholdSz
      ensures LoopInv() && flushed == [] && itemCnt == 0
    {
      this.thresholdCnt, this.thresholdSz := thresholdCnt, thresholdSz;
      queues := [Queue(Writes, [], 0), Queue(Reads, [], 0), Queue(Searches, [], 0), Queue(Writes, [], 0)];
      itemCnt, byteCnt, timer, flushed := 0, 0, Stopped, [];
      new;
      FlushedCounts(queues, NUM_QUEUES);
      assert FlushedUpTo(queues, NUM_QUEUES) == queues;
    }

    /** What holds whenever the loop waits: the counters count what is queued, both are below their
        thresholds, and the timer runs exactly while something is queued. */
    ghost predicate LoopInv()
      reads this
    {
      && QueuesInv(queues)
      && itemCnt == |Items(queues)| && byteCnt == Pending(queues)
      && (itemCnt > 0 ==> itemCnt < thresholdCnt && byteCnt < thresholdSz)
      && (itemCnt > 0 <==> timer != Stopped)
    }

    /** Flushes the queues in order, up to the first for which no slot is had. */
    method DoFlush(acquired: nat -> bool) returns (ok: bool, ghost upTo: nat)
      requires QueuesInv(queues)
      modifies this
      ensures upTo <= NUM_QUEUES && (ok <==> upTo == NUM_QUEUES)
      ensures queues == FlushedUpTo(old(queues), upTo) && flushed == old(flushed) + Batches(old(queues)[..upTo])
      ensures QueuesInv(queues) && (ok ==> LoopInv() && itemCnt == 0)
      ensures !ok ==> exists m: nat :: !acquired(m)
    {
      ghost var qs := queues;
      var slots := 0;
      NothingFlushed(qs);
      for k := 0 to NUM_QUEUES
        invariant queues == FlushedUpTo(qs, k) && flushed == old(flushed) + Batches(qs[..k])
      {
        var q := queues[k];
        FlushOneMore(qs, k);
        if q.pending > 0 {
          if !acquired(slots) {
            FlushedInv(qs, k);
            return false, k;
          }
          slots := slots + 1;
          flushed := flushed + [Batch(q.action, q.items)];
          queues := queues[k := Queue(q.action, [], 0)];
        }
      }
      AllFlushed(qs);
      itemCnt, byteCnt, timer := 0, 0, Stopped;
      ok, upTo := true, NUM_QUEUES;
    }

    /** One request arrives; the queues are flushed if it brings a counter to its threshold. */
    method Accept(item: Item, acquired: nat -> bool) returns (ok: bool, ghost upTo: nat)
      requires LoopInv() && item.data != ""
      modifies this
      ensures var qs := Enqueue(old(queues), item);
              && upTo <= NUM_QUEUES && QueuesInv(queues)
              && queues == FlushedUpTo(qs, upTo) && flushed == old(flushed) + Batches(qs[..upTo])
              && (if |Items(qs)| < thresholdCnt && Pending(qs) < thresholdSz then ok && upTo == 0
                  else ok <==> upTo == NUM_QUEUES)
      ensures ok ==> LoopInv()
      ensures !ok ==> exists m: nat :: !acquired(m)
    {
      Put(item);
      ok, upTo := true, 0;
      NothingFlushed(queues);
      if itemCnt >= thresholdCnt || byteCnt >= thresholdSz {
        ok, upTo := DoFlush(acquired);
      }
    }

    /** Queues a request, counts it, and starts the timer for the first one. */
    method Put(item: Item)
      requires LoopInv() && item.data != ""
      modifies this
      ensures queues == Enqueue(old(queues), item) && QueuesInv(queues) && flushed == old(flushed)
      ensures itemCnt == old(itemCnt) + 1 == |Items(queues)| && byteCnt == old(byteCnt) + |item.data| == Pending(queues)
      ensures timer == if old(timer) == Stopped then Armed else old(timer)
    {
      EnqueueCounts(queues, item);
      EnqueueInv(queues, item);
      var i := QueueOf(item);
      var q := queues[i];
      queues := queues[i := Queue(q.action, q.items + [item], q.pending + |item.data|)];
      itemCnt := itemCnt + 1;
      byteCnt := byteCnt + |item.data|;
      if itemCnt == 1 {
        timer := Armed;
      }
    }

    /** The timer's channel is read. */
    method OnTimer(acquired: nat -> bool) returns (ok: bool, ghost upTo: nat)
      requires LoopInv() && timer == Fired
      modifies this
      ensures upTo <= NUM_QUEUES && (ok <==> upTo == NUM_QUEUES) && QueuesInv(queues)
      ensures queues == FlushedUpTo(old(queues), upTo) && flushed == old(flushed) + Batches(old(queues)[..upTo])
      ensures ok ==> LoopInv() && itemCnt == 0
      ensures !ok ==> exists m: nat :: !acquired(m)
    {
      timer := Stopped;
      ok, upTo := DoFlush(acquired);
    }

    method WakeForItem(item: Item, acquired: nat -> bool, ghost accepted: seq<Item>) returns (ok: bool)
      requires LoopInv() && Accounts(accepted, flushed, queues) && item.data != ""
      modifies this
      ensures QueuesInv(queues) && (ok ==> LoopInv()) && old(flushed) <= flushed
      ensures Accounts(accepted + [item], flushed, queues)
      ensures !ok ==> exists m: nat :: !acquired(m)
    {
      AcceptAccounts(accepted, flushed, queues, item);
      ghost var upTo;
      ok, upTo := Accept(item, acquired);
    }

    method WakeForTimer(acquired: nat -> bool, ghost accepted: seq<Item>) returns (ok: bool)
      requires LoopInv() && Accounts(accepted, flushed, queues)
      modifies this
      ensures QueuesInv(queues) && (ok ==> LoopInv() && itemCnt == 0) && old(flushed) <= flushed
      ensures Accounts(accepted, flushed, queues)
      ensures !ok ==> exists m: nat :: !acquired(m)
    {
      // only a timer that runs can fire
      if timer == Stopped {
        return true;
      }
      timer := Fired;
      FlushAccounts(accepted, flushed, queues);
      ghost var upTo;
      ok, upTo := OnTimer(acquired);
    }

    method Wake(ev: Event, ghost accepted: seq<Item>) returns (ok: bool)
      requires LoopInv() && Accounts(accepted, flushed, queues) && (ev.Arrive? ==> ev.item.data != "")
      modifies this
      ensures QueuesInv(queues) && (ok ==> LoopInv()) && old(flushed) <= flushed
      ensures Accounts(accepted + (if ev.Arrive? then [ev.item] else []), flushed, queues)
      ensures ok && ev.TimerFires? ==> itemCnt == 0
      ensures !ok ==> MayStop(ev)
      ensures ev.Done? ==> !ok
    {
      assert accepted + [] == accepted;
      match ev
      case Arrive(item, acquired) => ok := WakeForItem(item, acquired, accepted);
      case TimerFires(acquired) => ok := WakeForTimer(acquired, accepted);
      case Done => ok := false;
    }

    method WakeNext(events: seq<Event>, i: nat) returns (ok: bool)
      requires i < |events| && LoopInv() && Progress(events, i, i, flushed, queues)
      requires events[i].Arrive? ==> events[i].item.data != ""
      modifies this
      ensures QueuesInv(queues)
      ensures if ok then LoopInv() && Progress(events, i + 1, i + 1, flushed, queues)
              else MayStop(events[i]) && Progress(events, i + 1, i, flushed, queues)
    {
      ghost var before := flushed;
      ok := Wake(events[i], Arrivals(events[..i]));
      FlushedMore(events, i, before, flushed);
      ArrivalsNext(events, i);
      if ok {
        TimerStep(events, i, flushed, queues);
      }
    }

    /** The loop, over the events it wakes up for, until the context ends or a flush gets no slot. */
    method Run(events: seq<Event>) returns (ok: bool, ghost n: nat)
      requires LoopInv() && flushed == [] && itemCnt == 0
      requires forall i :: 0 <= i < |events| && events[i].Arrive? ==> events[i].item.data != ""
      modifies this
      ensures QueuesInv(queues) && n <= |events|
      ensures if ok then n == |events| && LoopInv() && Progress(events, n, n, flushed, queues)
              else n > 0 && MayStop(events[n - 1]) && Progress(events, n, n - 1, flushed, queues)
    {
      ok := true;
      assert Items(queues) == [];
      NothingYet(queues);
      assert Progress(events, 0, 0, flushed, queues);
      for i := 0 to |events|
        invariant LoopInv() && Progress(events, i, i, flushed, queues)
      {
        ok := WakeNext(events, i);
        if !ok {
          return false, i + 1;
        }
      }
      ok, n := true, |events|;
    }
  }

  /** After `n` events the account holds; of these, the first `done` did not end the loop, and whenever
      the timer fired among them, everything that had arrived was handed over. */
  ghost predicate Progress(events: seq<Event>, n: nat, done: nat, flushed: seq<Batch>, queues: seq<Queue>) {
    && done <= n <= |events| && Accounts(Arrivals(events[..n]), flushed, queues)
    && FlushedByTimer(events, done, flushed) && (forall i :: 0 <= i < done ==> !events[i].Done?)
  }

  lemma {:induction false} NoItems(qs: seq<Queue>)
    requires Items(qs) == []
    ensures forall k :: 0 <= k < |qs| ==> qs[k].items == []
  {
    if qs != [] {
      NoItems(qs[..|qs| - 1]);
    }
  }

  lemma NothingYet(qs: seq<Queue>)
    requires |qs| == NUM_QUEUES && Items(qs) == []
    ensures Accounts([], [], qs)
  {
    NoItems(qs);
    assert forall k :: 0 <= k < NUM_QUEUES ==> InOrderAt([], [], qs, k);
  }

  /** A flush of the first queues keeps the account of what was taken in. */
  lemma StepConserves(flushed: seq<Batch>, qs: seq<Queue>, upTo: nat)
    requires QueuesInv(qs) && upTo <= |qs| && forall b :: b in flushed ==> FromOneQueue(b)
    ensures multiset(BatchItems(flushed + Batches(qs[..upTo]))) + multiset(Items(FlushedUpTo(qs, upTo)))
            == multiset(BatchItems(flushed)) + multiset(Items(qs))
    ensures forall b :: b in flushed + Batches(qs[..upTo]) ==> FromOneQueue(b)
  {
    BatchItemsAppend(flushed, Batches(qs[..upTo]));
    FlushConserves(qs, upTo);
    JoinBags(BatchItems(flushed), BatchItems(Batches(qs[..upTo])));
    JoinBags(BatchItems(Batches(qs[..upTo])), Items(FlushedUpTo(qs, upTo)));
    forall b | b in Batches(qs[..upTo])
      ensures FromOneQueue(b)
    {
      BatchesWellFormed(qs, upTo, b);
    }
  }

  /** Every request taken in is in a batch handed over or still queued, once; batches do not mix
      queues; and of each kind, requests are handed over in the order they came. */
  ghost predicate Accounts(accepted: seq<Item>, flushed: seq<Batch>, queues: seq<Queue>) {
    && multiset(accepted) == multiset(BatchItems(flushed)) + multiset(Items(queues))
    && (forall b :: b in flushed ==> FromOneQueue(b))
    && InOrder(accepted, flushed, queues)
  }

  ghost predicate InOrder(accepted: seq<Item>, flushed: seq<Batch>, queues: seq<Queue>) {
    |queues| == NUM_QUEUES && forall k :: 0 <= k < NUM_QUEUES ==> InOrderAt(accepted, flushed, queues, k)
  }

  predicate InOrderAt(accepted: seq<Item>, flushed: seq<Batch>, queues: seq<Queue>, k: nat)
    requires k < |queues|
  {
    Only(accepted, k) == Only(BatchItems(flushed), k) + queues[k].items
  }

  lemma FlushInOrderAt(accepted: seq<Item>, flushed: seq<Batch>, qs: seq<Queue>, upTo: nat, k: nat)
    requires QueuesInv(qs) && upTo <= NUM_QUEUES && k < NUM_QUEUES && InOrderAt(accepted, flushed, qs, k)
    ensures InOrderAt(accepted, flushed + Batches(qs[..upTo]), FlushedUpTo(qs, upTo), k)
  {
    var out, more := BatchItems(flushed), BatchItems(Batches(qs[..upTo]));
    BatchItemsAppend(flushed, Batches(qs[..upTo]));
    OnlyAppend(out, more, k);
    OnlyFlushed(qs, upTo, k);
    MovedOver(Only(out, k), qs[k].items);
  }

  lemma MovedOver(a: seq<Item>, b: seq<Item>)
    ensures a + b + [] == a + b && a + [] + b == a + b
  {
  }

  lemma FlushInOrder(accepted: seq<Item>, flushed: seq<Batch>, qs: seq<Queue>, upTo: nat)
    requires QueuesInv(qs) && InOrder(accepted, flushed, qs) && upTo <= NUM_QUEUES
    ensures InOrder(accepted, flushed + Batches(qs[..upTo]), FlushedUpTo(qs, upTo))
  {
    forall k | 0 <= k < NUM_QUEUES
      ensures InOrderAt(accepted, flushed + Batches(qs[..upTo]), FlushedUpTo(qs, upTo), k)
    {
      assert InOrderAt(accepted, flushed, qs, k);
      FlushInOrderAt(accepted, flushed, qs, upTo, k);
    }
  }

  lemma EnqueueInOrder(accepted: seq<Item>, flushed: seq<Batch>, queues: seq<Queue>, item: Item)
    requires QueuesInv(queues) && InOrder(accepted, flushed, queues)
    ensures InOrder(accepted + [item], flushed, Enqueue(queues, item))
  {
    forall k | 0 <= k < NUM_QUEUES
      ensures InOrderAt(accepted + [item], flushed, Enqueue(queues, item), k)
    {
      assert InOrderAt(accepted, flushed, queues, k);
      assert (accepted + [item])[..|accepted|] == accepted;
      QueueByKind(item, k);
    }
  }

  lemma FlushAccounts(accepted: seq<Item>, flushed: seq<Batch>, qs: seq<Queue>)
    requires QueuesInv(qs) && Accounts(accepted, flushed, qs)
    ensures forall k :: 0 <= k <= NUM_QUEUES ==> Accounts(accepted, flushed + Batches(qs[..k]), FlushedUpTo(qs, k))
  {
    forall k | 0 <= k <= NUM_QUEUES
      ensures Accounts(accepted, flushed + Batches(qs[..k]), FlushedUpTo(qs, k))
    {
      StepConserves(flushed, qs, k);
      FlushInOrder(accepted, flushed, qs, k);
    }
  }

  lemma AcceptAccounts(accepted: seq<Item>, flushed: seq<Batch>, queues: seq<Queue>, item: Item)
    requires QueuesInv(queues) && Accounts(accepted, flushed, queues) && item.data != ""
    ensures var qs := Enqueue(queues, item);
            forall k :: 0 <= k <= NUM_QUEUES ==>
              Accounts(accepted + [item], flushed + Batches(qs[..k]), FlushedUpTo(qs, k))
  {
    EnqueueInv(queues, item);
    AppendItems(queues, QueueOf(item), item);
    JoinBags(accepted, [item]);
    EnqueueInOrder(accepted, flushed, queues, item);
    FlushAccounts(accepted + [item], flushed, Enqueue(queues, item));
  }
}
