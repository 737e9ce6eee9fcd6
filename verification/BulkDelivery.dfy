/**
 Requests and answers under interleaving: callers open channels and hand in requests, the loop
 flushes queues into goroutines, each goroutine gets its reply and answers its items one by one, and
 callers receive.
 */
module BulkDelivery {
  import opened Index
  import opened Bulker
  import opened Sets
  import BulkFlush

  /** What a flush goroutine got back: nothing yet, a failure of the whole request, or one reply per
      item, where None is an empty element. */
  datatype Verdict = Waiting | Failing | Replying(replies: seq<Option<int>>)

  datatype State = State(
    queues: seq<seq<Item>>,
    flights: seq<seq<Item>>,  // for each flush, the items still to be answered
    verdicts: seq<Verdict>,
    answered: seq<Item>,  // in the order the answers were sent
    told: seq<BulkFlush.Result>,  // what each of them was told
    lost: seq<Item>,  // passed over because the reply element was empty
    accepted: seq<Item>,
    capacity: map<nat, nat>,  // of each channel: how many operations its owner hands in
    submitted: map<nat, nat>,  // how many of those were taken in so far
    received: map<nat, nat>,  // how many answers its owner has taken out
    panicked: bool)

  datatype Label =
    | Open(ch: nat, cap: nat)
    | Accept(item: Item)
    | Flush(k: nat)
    | Reply(b: nat, verdict: Verdict)
    | Send(b: nat)
    | Receive(ch: nat)

  /** What a reply says to the item in position `i`, if anything. */
  function ResultAt(v: Verdict, i: nat): Option<BulkFlush.Result> {
    match v
    case Waiting => None
    case Failing => Some(BulkFlush.Failed)
    case Replying(rs) => if i < |rs| && rs[i].Some? then Some(BulkFlush.Got(rs[i].value)) else None
  }

  function CountOn(items: seq<Item>, ch: nat): nat {
    if items == [] then 0
    else CountOn(items[..|items| - 1], ch) + if items[|items| - 1].ch == ch then 1 else 0
  }

  predicate Same(a: Item, b: Item) {
    a.ch == b.ch && a.idx == b.idx
  }

  ghost predicate Distinct(items: seq<Item>) {
    forall i, j :: 0 <= i < j < |items| ==> !Same(items[i], items[j])
  }

  ghost predicate Init(s: State) {
    && |s.queues| == NUM_QUEUES && (forall k :: 0 <= k < NUM_QUEUES ==> s.queues[k] == [])
    && s.flights == [] && s.verdicts == [] && s.answered == [] && s.told == [] && s.lost == [] && s.accepted == []
    && s.capacity == map[] && s.submitted == map[] && s.received == map[] && !s.panicked
  }

  /** A send that finds the channel full panics. */
  function Answered(s: State, b: nat, result: BulkFlush.Result): State
    requires b < |s.flights| && s.flights[b] != [] && s.flights[b][0].ch in s.capacity
             && s.flights[b][0].ch in s.received
  {
    var item := s.flights[b][0];
    if CountOn(s.answered, item.ch) - s.received[item.ch] < s.capacity[item.ch] then
      s.(flights := s.flights[b := s.flights[b][1..]], answered := s.answered + [item], told := s.told + [result])
    else s.(panicked := true)
  }

  /** A failed flush answers every item; otherwise an item is answered unless its element is empty. */
  ghost predicate SendNext(s: State, b: nat, s': State)
    requires b < |s.flights| && b < |s.verdicts| && s.flights[b] != []
    requires s.flights[b][0].ch in s.capacity && s.flights[b][0].ch in s.received
  {
    match s.verdicts[b]
    case Waiting => false
    case Failing => s' == Answered(s, b, BulkFlush.Failed)
    case Replying(rs) =>
      && rs != []
      && var next := s.(verdicts := s.verdicts[b := Replying(rs[1..])]);
         s' == if rs[0].Some? then Answered(next, b, BulkFlush.Got(rs[0].value))
               else next.(flights := s.flights[b := s.flights[b][1..]], lost := s.lost + [s.flights[b][0]])
  }

  ghost predicate Next(s: State, l: Label, s': State) {
    match l
    case Open(ch, cap) =>
      && ch !in s.capacity
      && s' == s.(capacity := s.capacity[ch := cap], submitted := s.submitted[ch := 0], received := s.received[ch := 0])
    // a caller hands in its operations one after the other, numbered from 0
    case Accept(item) =>
      && item.ch in s.capacity && item.ch in s.submitted
      && item.idx == s.submitted[item.ch] < s.capacity[item.ch]
      && QueueOf(item) < |s.queues|
      && s' == s.(
        queues := s.queues[QueueOf(item) := s.queues[QueueOf(item)] + [item]],
        submitted := s.submitted[item.ch := item.idx + 1],
        accepted := s.accepted + [item])
    case Flush(k) =>
      && k < |s.queues| && s.queues[k] != []
      && s' == s.(queues := s.queues[k := []], flights := s.flights + [s.queues[k]], verdicts := s.verdicts + [Waiting])
    // a failed flush fails before any answer is sent
    case Reply(b, verdict) =>
      && b < |s.flights| && b < |s.verdicts| && s.verdicts[b] == Waiting && verdict != Waiting
      && (verdict.Replying? ==> |verdict.replies| == |s.flights[b]|)
      && s' == s.(verdicts := s.verdicts[b := verdict])
    case Send(b) =>
      && b < |s.flights| && b < |s.verdicts| && s.flights[b] != [] && s.verdicts[b] != Waiting && !s.panicked
      && var item := s.flights[b][0];
         && item.ch in s.capacity && item.ch in s.received
         && SendNext(s, b, s')
    case Receive(ch) =>
      && ch in s.received && s.received[ch] < CountOn(s.answered, ch)
      && s' == s.(received := s.received[ch := s.received[ch] + 1])
  }

  // ---------------------------------------------------------------- counting

  /** How often `x` occurs in a list of items. */
  function Count(items: seq<Item>, x: Item): nat {
    if items == [] then 0
    else Count(items[..|items| - 1], x) + if items[|items| - 1] == x then 1 else 0
  }

  /** How often `x` occurs in several lists together. */
  function Total(groups: seq<seq<Item>>, x: Item): nat {
    if groups == [] then 0 else Total(groups[..|groups| - 1], x) + Count(groups[|groups| - 1], x)
  }

  lemma CountPush(items: seq<Item>, y: Item, x: Item)
    ensures Count(items + [y], x) == Count(items, x) + if y == x then 1 else 0
  {
    assert (items + [y])[..|items|] == items;
  }

  lemma {:induction false} CountPop(items: seq<Item>, x: Item)
    requires items != []
    ensures Count(items, x) == Count(items[1..], x) + if items[0] == x then 1 else 0
  {
    var n := |items| - 1;
    if n > 0 {
      CountPop(items[..n], x);
      assert items[1..][..n - 1] == items[..n][1..];
    }
  }

  lemma {:induction false} TotalUpdate(groups: seq<seq<Item>>, k: nat, items: seq<Item>, x: Item)
    requires k < |groups|
    ensures Total(groups[k := items], x) + Count(groups[k], x) == Total(groups, x) + Count(items, x)
  {
    var n := |groups| - 1;
    var after := groups[k := items];
    if k == n {
      assert after[..n] == groups[..n];
    } else {
      TotalUpdate(groups[..n], k, items, x);
      assert after[..n] == groups[..n][k := items];
    }
  }

  lemma TotalPush(groups: seq<seq<Item>>, items: seq<Item>, x: Item)
    ensures Total(groups + [items], x) == Total(groups, x) + Count(items, x)
  {
    assert (groups + [items])[..|groups|] == groups;
  }

  lemma {:induction false} EmptyTotal(groups: seq<seq<Item>>, x: Item)
    requires forall k :: 0 <= k < |groups| ==> groups[k] == []
    ensures Total(groups, x) == 0
  {
    if groups != [] {
      EmptyTotal(groups[..|groups| - 1], x);
    }
  }

  lemma {:induction false} CountIn(items: seq<Item>, x: Item)
    ensures Count(items, x) > 0 <==> x in items
  {
    if items != [] {
      var n := |items| - 1;
      CountIn(items[..n], x);
      assert items == items[..n] + [items[n]];
    }
  }

  lemma {:induction false} DistinctOnce(items: seq<Item>, x: Item)
    requires Distinct(items)
    ensures Count(items, x) <= 1
  {
    if items != [] {
      var n := |items| - 1;
      DistinctOnce(items[..n], x);
      CountIn(items[..n], x);
    }
  }

  lemma {:induction false} Twice(items: seq<Item>, i: nat, j: nat)
    requires i < j < |items| && items[i] == items[j]
    ensures Count(items, items[i]) >= 2
  {
    var n := |items| - 1;
    if j < n {
      Twice(items[..n], i, j);
    } else {
      CountIn(items[..n], items[i]);
      assert items[..n][i] == items[i];
    }
  }

  ghost predicate Part(part: seq<Item>, all: seq<Item>) {
    forall x :: Count(part, x) <= Count(all, x)
  }

  /** A part of a list of distinct requests is distinct. */
  lemma PartDistinct(part: seq<Item>, all: seq<Item>)
    requires Distinct(all) && Part(part, all)
    ensures Distinct(part)
    ensures forall i :: 0 <= i < |part| ==> part[i] in all
  {
    forall i | 0 <= i < |part|
      ensures part[i] in all
    {
      CountIn(part, part[i]);
      CountIn(all, part[i]);
    }
    forall i, j | 0 <= i < j < |part|
      ensures !Same(part[i], part[j])
    {
      if part[i] == part[j] {
        Twice(part, i, j);
        DistinctOnce(all, part[i]);
      }
      var a :| 0 <= a < |all| && all[a] == part[i];
      var b :| 0 <= b < |all| && all[b] == part[j];
    }
  }

  function Indices(items: seq<Item>, ch: nat): set<nat> {
    set i | 0 <= i < |items| && items[i].ch == ch :: items[i].idx
  }

  function Below(n: nat): (s: set<nat>)
    ensures |s| == n && forall i: nat :: i in s <==> i < n
  {
    if n == 0 then {} else Below(n - 1) + {n - 1}
  }

  lemma IndicesPush(items: seq<Item>, x: Item, ch: nat)
    ensures Indices(items + [x], ch) == Indices(items, ch) + if x.ch == ch then {x.idx} else {}
  {
    var more := items + [x];
    forall i | i in Indices(items, ch)
      ensures i in Indices(more, ch)
    {
      var k :| 0 <= k < |items| && items[k].ch == ch && items[k].idx == i;
      assert more[k] == items[k];
    }
    assert more[|items|] == x;
  }

  lemma NewIndex(items: seq<Item>, x: Item)
    requires Distinct(items + [x])
    ensures Distinct(items) && x.idx !in Indices(items, x.ch)
  {
    var more := items + [x];
    assert forall i :: 0 <= i < |items| ==> more[i] == items[i];
    assert more[|items|] == x;
  }

  lemma {:induction false} CountIndices(items: seq<Item>, ch: nat)
    requires Distinct(items)
    ensures |Indices(items, ch)| == CountOn(items, ch)
  {
    if items != [] {
      var n := |items| - 1;
      assert items == items[..n] + [items[n]];
      NewIndex(items[..n], items[n]);
      IndicesPush(items[..n], items[n], ch);
      CountIndices(items[..n], ch);
    }
  }

  /** Distinct requests numbered below `cap` fit a channel of that size. */
  lemma CountBounded(items: seq<Item>, ch: nat, cap: nat)
    requires Distinct(items) && forall i :: 0 <= i < |items| && items[i].ch == ch ==> items[i].idx < cap
    ensures CountOn(items, ch) <= cap
    ensures CountOn(items, ch) == cap ==> Indices(items, ch) == Below(cap)
  {
    CountIndices(items, ch);
    SubsetSize(Indices(items, ch), Below(cap));
  }

  // ---------------------------------------------------------------- the invariant

  ghost predicate Numbered(items: seq<Item>, bound: map<nat, nat>) {
    forall i :: 0 <= i < |items| ==> items[i].ch in bound && items[i].idx < bound[items[i].ch]
  }

  ghost predicate WithinCapacity(s: State) {
    && s.capacity.Keys == s.submitted.Keys == s.received.Keys
    && (forall ch :: ch in s.submitted ==> s.submitted[ch] <= s.capacity[ch])
    && Numbered(s.accepted, s.submitted)
  }

  ghost predicate Balanced(s: State, x: Item) {
    Count(s.accepted, x) == Total(s.queues, x) + Total(s.flights, x) + Count(s.answered, x) + Count(s.lost, x)
  }

  ghost predicate Conserves(s: State) {
    forall x :: Balanced(s, x)
  }

  ghost predicate VerdictsInv(s: State) {
    && |s.flights| == |s.verdicts|
    && (forall b :: 0 <= b < |s.flights| && s.verdicts[b].Replying? ==> |s.verdicts[b].replies| == |s.flights[b]|)
  }

  ghost predicate TakenWereSent(received: map<nat, nat>, answered: seq<Item>) {
    forall ch :: ch in received ==> received[ch] <= CountOn(answered, ch)
  }

  ghost predicate Inv(s: State) {
    && |s.queues| == NUM_QUEUES && VerdictsInv(s) && Conserves(s)
    && Distinct(s.accepted) && WithinCapacity(s) && TakenWereSent(s.received, s.answered) && !s.panicked
  }

  lemma {:induction false} InTotal(groups: seq<seq<Item>>, b: nat, x: Item)
    requires b < |groups| && x in groups[b]
    ensures Total(groups, x) > 0
  {
    var n := |groups| - 1;
    if b < n {
      InTotal(groups[..n], b, x);
    } else {
      CountIn(groups[n], x);
    }
  }

  lemma AcceptedFit(s: State, items: seq<Item>, ch: nat)
    requires Inv(s) && Part(items, s.accepted) && ch in s.capacity
    ensures Distinct(items)
    ensures CountOn(items, ch) <= s.capacity[ch]
    ensures CountOn(items, ch) == s.capacity[ch] ==> Indices(items, ch) == Below(s.capacity[ch])
  {
    PartDistinct(items, s.accepted);
    CountBounded(items, ch, s.capacity[ch]);
  }

  /** There is room for the answer of an item that is still to be answered. */
  lemma RoomForAnswer(s: State, b: nat)
    requires Inv(s) && b < |s.flights| && s.flights[b] != []
    ensures var item := s.flights[b][0];
            item.ch in s.capacity && item.ch in s.received && CountOn(s.answered, item.ch) < s.capacity[item.ch]
  {
    var item := s.flights[b][0];
    InTotal(s.flights, b, item);
    CountIn(s.accepted, item);
    assert Balanced(s, item);
    var more := s.answered + [item];
    forall x
      ensures Count(more, x) <= Count(s.accepted, x)
    {
      CountPush(s.answered, item, x);
      assert Balanced(s, x);
    }
    AcceptedFit(s, more, item.ch);
    assert more[..|s.answered|] == s.answered;
  }

  lemma SendConserves(s: State, b: nat)
    requires b < |s.flights| && s.flights[b] != [] && Conserves(s)
    ensures var flights := s.flights[b := s.flights[b][1..]];
            && Conserves(s.(flights := flights, answered := s.answered + [s.flights[b][0]]))
            && Conserves(s.(flights := flights, lost := s.lost + [s.flights[b][0]]))
  {
    var item := s.flights[b][0];
    var flights := s.flights[b := s.flights[b][1..]];
    forall x
      ensures Balanced(s.(flights := flights, answered := s.answered + [item]), x)
      ensures Balanced(s.(flights := flights, lost := s.lost + [item]), x)
    {
      assert Balanced(s, x);
      TotalUpdate(s.flights, b, s.flights[b][1..], x);
      CountPop(s.flights[b], x);
      CountPush(s.answered, item, x);
      CountPush(s.lost, item, x);
    }
  }

  lemma SameBalance(s: State, t: State)
    requires Conserves(s)
    requires s.accepted == t.accepted && s.queues == t.queues && s.flights == t.flights
    requires s.answered == t.answered && s.lost == t.lost
    ensures Conserves(t)
  {
    forall x
      ensures Balanced(t, x)
    {
      assert Balanced(s, x);
    }
  }

  lemma SentGrows(received: map<nat, nat>, answered: seq<Item>, item: Item)
    requires TakenWereSent(received, answered)
    ensures TakenWereSent(received, answered + [item])
  {
    assert (answered + [item])[..|answered|] == answered;
  }

  /** The first item of flush `b` is answered or lost, and nothing else happens. */
  ghost predicate Passed(s: State, b: nat, s': State)
    requires b < |s.flights| && b < |s.verdicts| && s.flights[b] != []
  {
    && s'.flights == s.flights[b := s.flights[b][1..]]
    && s'.queues == s.queues && s'.accepted == s.accepted && s'.capacity == s.capacity
    && s'.submitted == s.submitted && s'.received == s.received && s'.panicked == s.panicked
    && (if s.verdicts[b].Replying?
        then s.verdicts[b].replies != [] && s'.verdicts == s.verdicts[b := Replying(s.verdicts[b].replies[1..])]
        else s.verdicts[b].Failing? && s'.verdicts == s.verdicts)
    && match ResultAt(s.verdicts[b], 0)
       case Some(result) =>
         s'.answered == s.answered + [s.flights[b][0]] && s'.told == s.told + [result] && s'.lost == s.lost
       case None => s'.answered == s.answered && s'.told == s.told && s'.lost == s.lost + [s.flights[b][0]]
  }

  lemma SendPasses(s: State, b: nat, s': State)
    requires Inv(s) && Next(s, Send(b), s')
    ensures b < |s.flights| && b < |s.verdicts| && s.flights[b] != [] && Passed(s, b, s')
  {
    RoomForAnswer(s, b);
  }

  lemma PassedKeeps(s: State, b: nat, s': State)
    requires Inv(s) && b < |s.flights| && s.flights[b] != [] && Passed(s, b, s')
    ensures Inv(s')
  {
    SendConserves(s, b);
    SentGrows(s.received, s.answered, s.flights[b][0]);
    var flights := s.flights[b := s.flights[b][1..]];
    if s'.lost == s.lost {
      SameBalance(s.(flights := flights, answered := s.answered + [s.flights[b][0]]), s');
    } else {
      SameBalance(s.(flights := flights, lost := s.lost + [s.flights[b][0]]), s');
    }
  }

  lemma SendKeeps(s: State, b: nat, s': State)
    requires Inv(s) && Next(s, Send(b), s')
    ensures Inv(s')
  {
    SendPasses(s, b, s');
    PassedKeeps(s, b, s');
  }

  lemma AcceptKeeps(s: State, item: Item, s': State)
    requires Inv(s) && Next(s, Accept(item), s')
    ensures Inv(s')
  {
    var k := QueueOf(item);
    forall x
      ensures Balanced(s', x)
    {
      assert Balanced(s, x);
      TotalUpdate(s.queues, k, s.queues[k] + [item], x);
      CountPush(s.queues[k], item, x);
      CountPush(s.accepted, item, x);
    }
  }

  lemma FlushKeeps(s: State, k: nat, s': State)
    requires Inv(s) && Next(s, Flush(k), s')
    ensures Inv(s')
  {
    forall x
      ensures Balanced(s', x)
    {
      assert Balanced(s, x);
      TotalUpdate(s.queues, k, [], x);
      TotalPush(s.flights, s.queues[k], x);
    }
  }

  lemma InvStep(s: State, l: Label, s': State)
    requires Inv(s) && Next(s, l, s')
    ensures Inv(s')
  {
    match l
    case Open(_, _) => SameBalance(s, s');
    case Accept(item) => AcceptKeeps(s, item, s');
    case Flush(k) => FlushKeeps(s, k, s');
    case Reply(_, _) => SameBalance(s, s');
    case Send(b) => SendKeeps(s, b, s');
    case Receive(_) => SameBalance(s, s');
  }

  // ---------------------------------------------------------------- whole runs

  datatype Run = Start(s: State) | Then(prev: Run, l: Label, s: State)

  ghost predicate IsRun(run: Run) {
    match run
    case Start(s) => Init(s)
    case Then(prev, l, s) => IsRun(prev) && Next(prev.s, l, s)
  }

  /** Every element of every bulk reply names an item's result. */
  ghost predicate NoEmptyElements(run: Run) {
    run.Then? ==>
      && NoEmptyElements(run.prev)
      && (run.l.Reply? && run.l.verdict.Replying? ==> None !in run.l.verdict.replies)
  }

  lemma {:induction false} RunInv(run: Run)
    requires IsRun(run)
    ensures Inv(run.s)
  {
    match run
    case Start(s) =>
      forall x
        ensures Balanced(s, x)
      {
        EmptyTotal(s.queues, x);
      }
    case Then(prev, l, s) =>
      RunInv(prev);
      InvStep(prev.s, l, s);
  }

  /** Every request taken in is, at every moment, in exactly one of four places and there once: a
      queue, a flush under way, the answers sent, or lost to an empty reply element; and the send
      that would panic is never reached. */
  lemma ExactlyOnePlace(run: Run, x: Item)
    requires IsRun(run) && x in run.s.accepted
    ensures Total(run.s.queues, x) + Total(run.s.flights, x) + Count(run.s.answered, x) + Count(run.s.lost, x) == 1
    ensures !run.s.panicked
  {
    RunInv(run);
    DistinctOnce(run.s.accepted, x);
    CountIn(run.s.accepted, x);
    assert Balanced(run.s, x);
  }

  ghost predicate FullReplies(s: State) {
    && s.lost == []
    && (forall b :: 0 <= b < |s.verdicts| && s.verdicts[b].Replying? ==> None !in s.verdicts[b].replies)
  }

  lemma {:induction false} NothingLost(run: Run)
    requires IsRun(run) && NoEmptyElements(run)
    ensures FullReplies(run.s)
  {
    if run.Then? {
      NothingLost(run.prev);
      var s := run.prev.s;
      if run.l.Send? && s.verdicts[run.l.b].Replying? {
        assert s.verdicts[run.l.b].replies[0] in s.verdicts[run.l.b].replies;
      }
    }
  }

  /** If no reply element is empty, a request is answered exactly once or is still on its way. */
  lemma AnsweredExactlyOnce(run: Run, x: Item)
    requires IsRun(run) && NoEmptyElements(run) && x in run.s.accepted
    ensures Count(run.s.answered, x) == 1 <==> Total(run.s.queues, x) == 0 && Total(run.s.flights, x) == 0
    ensures Count(run.s.answered, x) <= 1
  {
    ExactlyOnePlace(run, x);
    NothingLost(run);
  }

  lemma AnsweredPart(s: State)
    requires Inv(s)
    ensures Part(s.answered, s.accepted)
  {
    forall x
      ensures Count(s.answered, x) <= Count(s.accepted, x)
    {
      assert Balanced(s, x);
    }
  }

  /** Answers never outnumber a channel's capacity, so no sender ever waits. */
  lemma ChannelNeverOverfull(run: Run, ch: nat)
    requires IsRun(run) && ch in run.s.capacity
    ensures CountOn(run.s.answered, ch) <= run.s.capacity[ch]
    ensures CountOn(run.s.answered, ch) == run.s.capacity[ch] ==>
            Indices(run.s.answered, ch) == Below(run.s.capacity[ch])
  {
    RunInv(run);
    AnsweredPart(run.s);
    AcceptedFit(run.s, run.s.answered, ch);
  }

  // ---------------------------------------------------------------- what callers are told

  /** The queues flushed so far, as they were when they were. */
  function Flushes(run: Run): seq<seq<Item>> {
    if run.Start? then []
    else if run.l.Flush? && run.l.k < |run.prev.s.queues| then Flushes(run.prev) + [run.prev.s.queues[run.l.k]]
    else Flushes(run.prev)
  }

  /** What flush `b` got back. */
  function ReplyTo(run: Run, b: nat): Option<Verdict> {
    if run.Start? then None
    else if run.l.Reply? && run.l.b == b then Some(run.l.verdict)
    else ReplyTo(run.prev, b)
  }

  /** The flush that took the item got a reply that says `result` in the item's position. */
  ghost predicate OwnReply(run: Run, item: Item, result: BulkFlush.Result) {
    exists b: nat, i: nat :: OwnReplyAt(run, b, i, item, result)
  }

  predicate OwnReplyAt(run: Run, b: nat, i: nat, item: Item, result: BulkFlush.Result) {
    && b < |Flushes(run)| && i < |Flushes(run)[b]| && Flushes(run)[b][i] == item
    && ReplyTo(run, b).Some? && ResultAt(ReplyTo(run, b).value, i) == Some(result)
  }

  /** What is left of a flush and of its reply are what follows the items passed. */
  ghost predicate Remains(all: seq<Item>, reply: Option<Verdict>, left: seq<Item>, verdict: Verdict) {
    && |left| <= |all| && left == all[|all| - |left|..]
    && match reply
       case None => verdict == Waiting && left == all
       case Some(Waiting) => false
       case Some(Failing) => verdict == Failing
       case Some(Replying(rs)) => |rs| == |all| && verdict == Replying(rs[|all| - |left|..])
  }

  ghost predicate FlightsInv(run: Run) {
    && |Flushes(run)| == |run.s.flights| == |run.s.verdicts|
    && forall b: nat :: b < |run.s.flights| ==>
         Remains(Flushes(run)[b], ReplyTo(run, b), run.s.flights[b], run.s.verdicts[b])
  }

  ghost predicate ToldInv(run: Run) {
    && |run.s.told| == |run.s.answered|
    && forall a :: 0 <= a < |run.s.answered| ==> OwnReply(run, run.s.answered[a], run.s.told[a])
  }

  /** A flush has no reply before its number is given out. */
  lemma {:induction false} NoReplyYet(run: Run, b: nat)
    requires IsRun(run) && b >= |run.s.flights|
    ensures ReplyTo(run, b) == None
  {
    if run.Then? {
      NoReplyYet(run.prev, b);
    }
  }

  lemma OnePassed(all: seq<Item>, reply: Option<Verdict>, left: seq<Item>, verdict: Verdict)
    requires Remains(all, reply, left, verdict) && left != [] && verdict != Waiting
    ensures Remains(all, reply, left[1..], if verdict.Replying? then Replying(verdict.replies[1..]) else verdict)
    ensures verdict.Replying? ==> verdict.replies != []
    ensures var i := |all| - |left|;
            && reply.Some? && i < |all| && all[i] == left[0]
            && ResultAt(reply.value, i)
               == if verdict.Failing? then Some(BulkFlush.Failed)
                  else if verdict.replies[0].Some? then Some(BulkFlush.Got(verdict.replies[0].value)) else None
  {
  }

  lemma FlightsPassed(run: Run)
    requires IsRun(run) && run.Then? && run.l.Send? && FlightsInv(run.prev)
    requires run.l.b < |run.prev.s.flights| && run.prev.s.flights[run.l.b] != []
    requires Passed(run.prev.s, run.l.b, run.s)
    ensures FlightsInv(run)
  {
    var s := run.prev.s;
    forall b: nat | b < |run.s.flights|
      ensures Remains(Flushes(run)[b], ReplyTo(run, b), run.s.flights[b], run.s.verdicts[b])
    {
      assert Remains(Flushes(run.prev)[b], ReplyTo(run.prev, b), s.flights[b], s.verdicts[b]);
      if run.l.b == b {
        OnePassed(Flushes(run.prev)[b], ReplyTo(run.prev, b), s.flights[b], s.verdicts[b]);
      }
    }
  }

  lemma FlightsOther(run: Run)
    requires IsRun(run) && run.Then? && !run.l.Send? && FlightsInv(run.prev)
    ensures FlightsInv(run)
  {
    var s := run.prev.s;
    forall b: nat | b < |run.s.flights|
      ensures Remains(Flushes(run)[b], ReplyTo(run, b), run.s.flights[b], run.s.verdicts[b])
    {
      if b < |s.flights| {
        assert Remains(Flushes(run.prev)[b], ReplyTo(run.prev, b), s.flights[b], s.verdicts[b]);
      } else {
        NoReplyYet(run.prev, b);
      }
    }
  }

  lemma FlushesStay(run: Run, b: nat)
    requires run.Then? && b < |Flushes(run.prev)|
    ensures b < |Flushes(run)| && Flushes(run)[b] == Flushes(run.prev)[b]
  {
  }

  lemma ReplyStays(run: Run, b: nat)
    requires run.Then? && Next(run.prev.s, run.l, run.s) && b < |run.prev.s.flights| == |run.prev.s.verdicts|
    requires b < |Flushes(run.prev)| && ReplyTo(run.prev, b).Some?
    requires Remains(Flushes(run.prev)[b], ReplyTo(run.prev, b), run.prev.s.flights[b], run.prev.s.verdicts[b])
    ensures ReplyTo(run, b) == ReplyTo(run.prev, b)
  {
  }

  /** A reply once given stands. */
  lemma OwnReplyStays(run: Run, item: Item, result: BulkFlush.Result)
    requires IsRun(run) && run.Then? && FlightsInv(run.prev) && OwnReply(run.prev, item, result)
    ensures OwnReply(run, item, result)
  {
    var b: nat, i: nat :| OwnReplyAt(run.prev, b, i, item, result);
    assert b < |run.prev.s.flights|;
    FlushesStay(run, b);
    ReplyStays(run, b);
    assert OwnReplyAt(run, b, i, item, result);
  }

  /** The answer that a send makes. */
  lemma SendTells(run: Run)
    requires IsRun(run) && run.Then? && run.l.Send? && FlightsInv(run.prev)
    requires run.l.b < |run.prev.s.flights| && run.prev.s.flights[run.l.b] != []
    requires Passed(run.prev.s, run.l.b, run.s)
    ensures var result := ResultAt(run.prev.s.verdicts[run.l.b], 0);
            result.Some? ==> OwnReply(run, run.prev.s.flights[run.l.b][0], result.value)
  {
    var s, b := run.prev.s, run.l.b;
    OnePassed(Flushes(run.prev)[b], ReplyTo(run.prev, b), s.flights[b], s.verdicts[b]);
    var i: nat := |Flushes(run.prev)[b]| - |s.flights[b]|;
    var result := ResultAt(s.verdicts[b], 0);
    assert result.Some? ==> OwnReplyAt(run, b, i, s.flights[b][0], result.value);
  }

  lemma ToldKept(run: Run)
    requires IsRun(run) && run.Then? && FlightsInv(run.prev) && ToldInv(run.prev)
    ensures forall a :: 0 <= a < |run.prev.s.answered| ==>
              OwnReply(run, run.prev.s.answered[a], run.prev.s.told[a])
  {
    forall a | 0 <= a < |run.prev.s.answered|
      ensures OwnReply(run, run.prev.s.answered[a], run.prev.s.told[a])
    {
      OwnReplyStays(run, run.prev.s.answered[a], run.prev.s.told[a]);
    }
  }

  lemma {:induction false} RunTold(run: Run)
    requires IsRun(run)
    ensures FlightsInv(run) && ToldInv(run)
  {
    if run.Then? {
      RunTold(run.prev);
      RunInv(run.prev);
      ToldKept(run);
      if run.l.Send? {
        SendPasses(run.prev.s, run.l.b, run.s);
        FlightsPassed(run);
        SendTells(run);
      } else {
        FlightsOther(run);
      }
    }
  }

  /** Whatever is answered, in every interleaving: the answer is what the flush that took the request
      got back in the request's own position, or the failure of that flush. */
  lemma ToldOwnReply(run: Run, a: nat)
    requires IsRun(run) && a < |run.s.answered|
    ensures |run.s.told| == |run.s.answered| && run.s.answered[a] in run.s.accepted
    ensures OwnReply(run, run.s.answered[a], run.s.told[a])
  {
    RunTold(run);
    RunInv(run);
    AnsweredPart(run.s);
    PartDistinct(run.s.answered, run.s.accepted);
  }

  // ---------------------------------------------------------------- several requests on one channel

  /** The positions answered on channel `ch`, in the order they arrive there. */
  function Arrived(answered: seq<Item>, ch: nat): seq<nat> {
    if answered == [] then []
    else
      var x := answered[|answered| - 1];
      Arrived(answered[..|answered| - 1], ch) + if x.ch == ch then [x.idx] else []
  }

  function Range(n: nat): seq<nat> {
    seq(n, i => i)
  }

  lemma {:induction false} ArrivedOnce(answered: seq<Item>, ch: nat, i: nat)
    requires Distinct(answered)
    ensures |Arrived(answered, ch)| == CountOn(answered, ch)
    ensures multiset(Arrived(answered, ch))[i] == if i in Indices(answered, ch) then 1 else 0
  {
    if answered != [] {
      var n := |answered| - 1;
      assert answered == answered[..n] + [answered[n]];
      NewIndex(answered[..n], answered[n]);
      IndicesPush(answered[..n], answered[n], ch);
      ArrivedOnce(answered[..n], ch, i);
    }
  }

  lemma {:induction false} RangeOnce(n: nat, i: nat)
    ensures multiset(Range(n))[i] == if i < n then 1 else 0
  {
    if n > 0 {
      RangeOnce(n - 1, i);
      assert Range(n) == Range(n - 1) + [n - 1];
    }
  }

  /** Once as many answers have arrived as there were operations, they are the answers of operations
      0 to n-1, each once, however the operations were spread over flushes and whatever order the
      answers came in. */
  lemma AnswersPermute(run: Run, ch: nat)
    requires IsRun(run) && ch in run.s.capacity && CountOn(run.s.answered, ch) == run.s.capacity[ch]
    ensures multiset(Arrived(run.s.answered, ch)) == multiset(Range(run.s.capacity[ch]))
    ensures |Arrived(run.s.answered, ch)| == run.s.capacity[ch]
  {
    RunInv(run);
    ChannelNeverOverfull(run, ch);
    var s := run.s;
    AnsweredPart(s);
    PartDistinct(s.answered, s.accepted);
    var arrived: seq<nat>, range: seq<nat> := Arrived(s.answered, ch), Range(s.capacity[ch]);
    forall i: nat
      ensures multiset(arrived)[i] == multiset(range)[i]
    {
      ArrivedOnce(s.answered, ch, i);
      RangeOnce(s.capacity[ch], i);
    }
    ArrivedOnce(s.answered, ch, 0);
    assert forall i: nat :: i in multiset(arrived) <==> i in multiset(range);
  }

  /** A caller that has taken out as many answers as it handed in operations has them all. */
  lemma MultiDispatchPermutation(run: Run, ch: nat)
    requires IsRun(run) && ch in run.s.capacity && ch in run.s.received
    requires run.s.received[ch] == run.s.capacity[ch]
    ensures multiset(Arrived(run.s.answered, ch)) == multiset(Range(run.s.capacity[ch]))
    ensures |Arrived(run.s.answered, ch)| == run.s.received[ch]
  {
    RunInv(run);
    ChannelNeverOverfull(run, ch);
    AnswersPermute(run, ch);
  }

  lemma ArrivedWhole(run: Run, ch: nat)
    requires IsRun(run) && ch in run.s.capacity
    ensures |Arrived(run.s.answered, ch)| <= run.s.capacity[ch]
    ensures |Arrived(run.s.answered, ch)| == run.s.capacity[ch] ==>
              multiset(Arrived(run.s.answered, ch)) == multiset(Range(run.s.capacity[ch]))
  {
    RunInv(run);
    ChannelNeverOverfull(run, ch);
    AnsweredPart(run.s);
    PartDistinct(run.s.answered, run.s.accepted);
    ArrivedOnce(run.s.answered, ch, 0);
    if CountOn(run.s.answered, ch) == run.s.capacity[ch] {
      AnswersPermute(run, ch);
    }
  }

  datatype Response = Response(idx: nat, result: BulkFlush.Result)

  /** What arrives on channel `ch`, in order. */
  function Responses(answered: seq<Item>, told: seq<BulkFlush.Result>, ch: nat): seq<Response>
    requires |answered| == |told|
  {
    if answered == [] then []
    else
      var n := |answered| - 1;
      Responses(answered[..n], told[..n], ch)
      + if answered[n].ch == ch then [Response(answered[n].idx, told[n])] else []
  }

  ghost predicate AnswersOn(answered: seq<Item>, told: seq<BulkFlush.Result>, ch: nat, r: Response)
    requires |answered| == |told|
  {
    exists a :: 0 <= a < |answered| && answered[a].ch == ch && answered[a].idx == r.idx && told[a] == r.result
  }

  lemma AnswersOnMore(answered: seq<Item>, told: seq<BulkFlush.Result>, ch: nat, r: Response)
    requires |answered| == |told| > 0 && AnswersOn(answered[..|answered| - 1], told[..|told| - 1], ch, r)
    ensures AnswersOn(answered, told, ch, r)
  {
    var n := |answered| - 1;
    var a :| 0 <= a < n && answered[..n][a].ch == ch && answered[..n][a].idx == r.idx && told[..n][a] == r.result;
    assert answered[a] == answered[..n][a] && told[a] == told[..n][a];
  }

  /** The n-th response is the answer to some item on the channel, and carries its number. */
  lemma {:induction false} ResponsesFrom(answered: seq<Item>, told: seq<BulkFlush.Result>, ch: nat)
    requires |answered| == |told|
    ensures |Responses(answered, told, ch)| == |Arrived(answered, ch)|
    ensures forall k :: 0 <= k < |Responses(answered, told, ch)| ==>
              && Responses(answered, told, ch)[k].idx == Arrived(answered, ch)[k]
              && AnswersOn(answered, told, ch, Responses(answered, told, ch)[k])
  {
    if answered != [] {
      var n := |answered| - 1;
      ResponsesFrom(answered[..n], told[..n], ch);
      var before := Responses(answered[..n], told[..n], ch);
      forall k | 0 <= k < |before|
        ensures AnswersOn(answered, told, ch, before[k])
      {
        AnswersOnMore(answered, told, ch, before[k]);
      }
      assert answered[n].ch == ch ==> AnswersOn(answered, told, ch, Response(answered[n].idx, told[n]));
    }
  }

  /** The operation numbered `r.idx` on channel `ch` was told what its own flush got back for it. */
  ghost predicate OwnResponse(run: Run, ch: nat, r: Response) {
    exists x :: x in run.s.accepted && x.ch == ch && x.idx == r.idx && OwnReply(run, x, r.result)
  }

  lemma ResponsesOwn(run: Run, ch: nat)
    requires IsRun(run)
    ensures |run.s.answered| == |run.s.told|
    ensures forall k :: 0 <= k < |Responses(run.s.answered, run.s.told, ch)| ==>
              OwnResponse(run, ch, Responses(run.s.answered, run.s.told, ch)[k])
  {
    RunTold(run);
    ResponsesFrom(run.s.answered, run.s.told, ch);
    var rs := Responses(run.s.answered, run.s.told, ch);
    forall k | 0 <= k < |rs|
      ensures OwnResponse(run, ch, rs[k])
    {
      assert AnswersOn(run.s.answered, run.s.told, ch, rs[k]);
      var a :| 0 <= a < |run.s.answered| && run.s.answered[a].ch == ch && run.s.answered[a].idx == rs[k].idx
               && run.s.told[a] == rs[k].result;
      ToldOwnReply(run, a);
    }
  }

  function Numbers(rs: seq<Response>): seq<nat> {
    seq(|rs|, k requires 0 <= k < |rs| => rs[k].idx)
  }

  /** The receive loop of a caller with `n` operations, on the answers that arrive on its channel in a
      run: it takes them as they come until there is one per operation, or gives up with nothing when
      the context ends, which it has to if answers stay out.  Each operation then has one response,
      and it is what the operation's own flush got back for it. */
  method MultiWait(ghost run: Run, ghost ch: nat, arriving: seq<Response>, n: nat, cancelledAt: Option<nat>)
    returns (responses: Option<seq<Response>>)
    requires IsRun(run) && ch in run.s.capacity && run.s.capacity[ch] == n && |run.s.answered| == |run.s.told|
    requires arriving == Responses(run.s.answered, run.s.told, ch)
    requires |arriving| < n ==> cancelledAt.Some? && cancelledAt.value <= |arriving|
    ensures responses.None? <==> cancelledAt.Some? && cancelledAt.value < n
    ensures responses.Some? ==>
              && responses.value == arriving && multiset(Numbers(responses.value)) == multiset(Range(n))
              && forall k :: 0 <= k < |responses.value| ==> OwnResponse(run, ch, responses.value[k])
  {
    ArrivedWhole(run, ch);
    ResponsesOwn(run, ch);
    ResponsesFrom(run.s.answered, run.s.told, ch);
    assert Numbers(arriving) == Arrived(run.s.answered, ch);
    responses := TakeUntil(arriving, n, cancelledAt);
  }

  method TakeUntil(arriving: seq<Response>, n: nat, cancelledAt: Option<nat>) returns (responses: Option<seq<Response>>)
    requires |arriving| <= n
    requires |arriving| < n ==> cancelledAt.Some? && cancelledAt.value <= |arriving|
    ensures responses.None? <==> cancelledAt.Some? && cancelledAt.value < n
    ensures responses.Some? ==> responses.value == arriving && |arriving| == n
  {
    var got: seq<Response> := [];
    while |got| < n
      invariant |got| <= |arriving| && got == arriving[..|got|]
      invariant cancelledAt.Some? && cancelledAt.value < n ==> |got| <= cancelledAt.value
      decreases n - |got|
    {
      if cancelledAt == Some(|got|) {
        return None;
      }
      got := got + [arriving[|got|]];
    }
    responses := Some(got);
  }

  // ---------------------------------------------------------------- nothing handed in goes missing

  /** How many operations the owner of channel `ch` has handed in. */
  function HandedIn(run: Run, ch: nat): nat {
    if run.Start? then 0 else HandedIn(run.prev, ch) + if run.l.Accept? && run.l.item.ch == ch then 1 else 0
  }

  lemma BelowNext(n: nat)
    ensures Below(n + 1) == Below(n) + {n}
  {
  }

  lemma AcceptStep(s: State, l: Label, s': State, ch: nat)
    requires Next(s, l, s') && ch in s.submitted && s.capacity.Keys == s.submitted.Keys
    ensures ch in s'.submitted
    ensures if l.Accept? && l.item.ch == ch
            then s'.submitted[ch] == s.submitted[ch] + 1 && s'.accepted == s.accepted + [l.item]
                 && l.item.idx == s.submitted[ch]
            else s'.submitted[ch] == s.submitted[ch] && Indices(s'.accepted, ch) == Indices(s.accepted, ch)
  {
    if l.Accept? {
      IndicesPush(s.accepted, l.item, ch);
    } else if l.Send? {
      assert s'.accepted == s.accepted && s'.submitted == s.submitted;
    }
  }

  lemma OpenStep(s: State, l: Label, s': State, ch: nat)
    requires Next(s, l, s') && ch !in s.submitted && ch in s'.submitted
    ensures s'.submitted[ch] == 0 && s'.accepted == s.accepted && l.Open?
  {
  }

  lemma {:induction false} AllTakenIn(run: Run, ch: nat)
    requires IsRun(run)
    ensures ch in run.s.submitted ==>
              run.s.submitted[ch] == HandedIn(run, ch) && Indices(run.s.accepted, ch) == Below(HandedIn(run, ch))
    ensures ch !in run.s.submitted ==> HandedIn(run, ch) == 0 && Indices(run.s.accepted, ch) == {}
  {
    if run.Then? {
      var s := run.prev.s;
      AllTakenIn(run.prev, ch);
      RunInv(run.prev);
      if ch in s.submitted {
        AcceptStep(s, run.l, run.s, ch);
        if run.l.Accept? && run.l.item.ch == ch {
          IndicesPush(s.accepted, run.l.item, ch);
          BelowNext(s.submitted[ch]);
        }
      } else if ch in run.s.submitted {
        OpenStep(s, run.l, run.s, ch);
      } else {
        NotOpen(s, run.l, run.s, ch);
      }
    }
  }

  lemma NotOpen(s: State, l: Label, s': State, ch: nat)
    requires Next(s, l, s') && ch !in s.submitted && ch !in s'.submitted
    ensures Indices(s'.accepted, ch) == Indices(s.accepted, ch) && !(l.Accept? && l.item.ch == ch)
  {
    if l.Accept? {
      IndicesPush(s.accepted, l.item, ch);
    } else if l.Send? {
      assert s'.accepted == s.accepted;
    }
  }

  lemma SameIndices(a: seq<Item>, b: seq<Item>, ch: nat)
    requires forall x :: x in a <==> x in b
    ensures Indices(a, ch) == Indices(b, ch)
  {
    forall i | i in Indices(a, ch)
      ensures i in Indices(b, ch)
    {
      var k :| 0 <= k < |a| && a[k].ch == ch && a[k].idx == i;
      assert a[k] in b;
    }
    forall i | i in Indices(b, ch)
      ensures i in Indices(a, ch)
    {
      var k :| 0 <= k < |b| && b[k].ch == ch && b[k].idx == i;
      assert b[k] in a;
    }
  }

  /** Once nothing is queued or in flight any more, and no reply element was empty, every operation
      handed in on a channel has been answered there. */
  lemma AllHandedInAnswered(run: Run, ch: nat)
    requires IsRun(run) && NoEmptyElements(run)
    requires forall x :: x in run.s.accepted ==> Total(run.s.queues, x) == 0 && Total(run.s.flights, x) == 0
    ensures Indices(run.s.answered, ch) == Below(HandedIn(run, ch))
    ensures CountOn(run.s.answered, ch) == HandedIn(run, ch)
  {
    RunInv(run);
    AnsweredPart(run.s);
    PartDistinct(run.s.answered, run.s.accepted);
    forall x
      ensures x in run.s.answered <==> x in run.s.accepted
    {
      if x in run.s.accepted {
        AnsweredExactlyOnce(run, x);
        CountIn(run.s.answered, x);
      }
    }
    SameIndices(run.s.answered, run.s.accepted, ch);
    AllTakenIn(run, ch);
    CountIndices(run.s.answered, ch);
    assert Below(0) == {};
  }
}
