/**
 The policy monitor under interleaving: one goroutine updates policies and sends to the
 subscriptions it took out, one send at a time and without the mutex, while check-ins subscribe,
 receive and unsubscribe in between.
 */
module PolicyRollout {
  import opened Index
  import opened PolicyMonitor

  /** A rollout under way: the policy and the subscriptions still to be sent to. */
  datatype Rollout = Idling | Sending(policy: Policy, rest: seq<Sub>)

  /** The subscriptions handed out and what has become of them. */
  datatype Book = Book(
    made: map<nat, Sub>,
    channels: map<nat, Option<Policy>>,
    sent: map<nat, seq<Policy>>,  // every policy ever put on a subscription's channel
    gone: set<nat>)  // unsubscribed while waiting, or dropped when the rollout was cancelled

  datatype State = State(policies: Policies, counter: nat, rollout: Rollout, running: bool, book: Book)

  datatype Label =
    | Subscribe(policyId: string, revIdx: int, coordIdx: int)
    | Unsubscribe(i: nat)
    | Update(policy: Policy, subs: seq<Sub>)
    | Send
    | Cancel
    | Receive(i: nat)

  ghost predicate Init(s: State) {
    s == State(map[], 0, Idling, true, Book(map[], map[], map[], {}))
  }

  predicate Waits(policies: Policies, sub: Sub) {
    sub.policyId in policies && sub.idx in policies[sub.policyId].subs
  }

  predicate InFlight(r: Rollout, i: nat) {
    r.Sending? && exists j :: 0 <= j < |r.rest| && r.rest[j].idx == i
  }

  /** The book after subscription `sub` is handed out, `answer` already in its channel if any. */
  function Enter(b: Book, sub: Sub, answer: Option<Policy>): Book {
    Book(b.made[sub.idx := sub], b.channels[sub.idx := answer],
         b.sent[sub.idx := if answer.Some? then [answer.value] else []], b.gone)
  }

  /** A send that does not wait: it goes through if the channel is empty. */
  function Deliver(b: Book, i: nat, p: Policy): Book
    requires i in b.channels && i in b.sent
  {
    if b.channels[i].None? then b.(channels := b.channels[i := Some(p)], sent := b.sent[i := b.sent[i] + [p]]) else b
  }

  function Advance(r: Rollout): Rollout
    requires r.Sending? && r.rest != []
  {
    if |r.rest| == 1 then Idling else Sending(r.policy, r.rest[1..])
  }

  /** Each step is the monitor's own operation, with the bookkeeping of what was sent to whom. */
  ghost predicate Next(s: State, l: Label, s': State) {
    match l
    case Subscribe(policyId, revIdx, coordIdx) =>
      && revIdx >= 0 && coordIdx >= 0
      && var sub := Sub(s.counter + 1, policyId, revIdx, coordIdx);
         var p := EntryAt(s.policies, policyId).policy;
         var answer := if FiresAtOnce(p, revIdx, coordIdx) then Some(p) else None;
         s' == s.(counter := sub.idx, policies := Subscribed(s.policies, sub), book := Enter(s.book, sub, answer))
    case Unsubscribe(i) =>
      && i in s.book.made
      && var gone := if Waits(s.policies, s.book.made[i]) then s.book.gone + {i} else s.book.gone;
         s' == s.(policies := Unsubscribed(s.policies, s.book.made[i]), book := s.book.(gone := gone))
    case Update(p, subs) =>
      && s.running && s.rollout == Idling && Enumerates(subs, Woken(s.policies, p))
      && s' == s.(policies := Updated(s.policies, p), rollout := if subs == [] then Idling else Sending(p, subs))
    case Send =>
      && s.rollout.Sending? && s.rollout.rest != []
      && var i := s.rollout.rest[0].idx;
         && i in s.book.channels && i in s.book.sent
         && s' == s.(book := Deliver(s.book, i, s.rollout.policy), rollout := Advance(s.rollout))
    case Cancel =>
      var dropped := set i | i in s.book.made && InFlight(s.rollout, i);
      s' == s.(running := false, rollout := Idling, book := s.book.(gone := s.book.gone + dropped))
    case Receive(i) =>
      && i in s.book.channels && s.book.channels[i].Some?
      && s' == s.(book := s.book.(channels := s.book.channels[i := None]))
  }

  // ---------------------------------------------------------------- the invariant

  /** Subscription `sub` has been sent nothing and is still wanted. */
  ghost predicate Fresh(b: Book, sub: Sub) {
    && sub.idx in b.made && b.made[sub.idx] == sub && sub.idx !in b.gone
    && sub.idx in b.sent && b.sent[sub.idx] == []
    && sub.idx in b.channels && b.channels[sub.idx] == None
  }

  ghost predicate WaitingInv(b: Book, r: Rollout, id: string, p: Policy, i: nat, sub: Sub) {
    && sub.idx == i && sub.policyId == id && Fresh(b, sub)
    && !Fires(p, sub) && !InFlight(r, i)
  }

  ghost predicate EntryInv(b: Book, r: Rollout, id: string, e: Entry) {
    && (e.policy.id == id || e.policy.coordinatorIdx <= 0)
    && (forall i :: i in e.subs ==> WaitingInv(b, r, id, e.policy, i, e.subs[i]))
  }

  ghost predicate RolloutInv(b: Book, r: Rollout) {
    r.Sending? ==>
      && r.rest != []
      && (forall i, j :: 0 <= i < j < |r.rest| ==> r.rest[i].idx != r.rest[j].idx)
      && (forall i :: 0 <= i < |r.rest| ==>
            Fresh(b, r.rest[i]) && Fires(r.policy, r.rest[i]) && r.rest[i].policyId == r.policy.id)
  }

  ghost predicate SentInv(sent: seq<Policy>, sub: Sub) {
    && |sent| <= 1
    && (sent != [] ==> Fires(sent[0], sub) && sent[0].id == sub.policyId)
  }

  /** Subscription `i` is accounted for. */
  ghost predicate MadeInv(s: State, i: nat, sub: Sub) {
    && sub.idx == i && 0 < i <= s.counter
    && i in s.book.sent && SentInv(s.book.sent[i], sub)
    && (Waits(s.policies, sub) || InFlight(s.rollout, i) || s.book.sent[i] != [] || i in s.book.gone)
  }

  ghost predicate GoneInv(b: Book) {
    forall i :: i in b.gone ==> i in b.made && i in b.sent && b.sent[i] == []
  }

  ghost predicate Inv(s: State) {
    && (forall id :: id in s.policies ==> EntryInv(s.book, s.rollout, id, s.policies[id]))
    && RolloutInv(s.book, s.rollout)
    && (forall i :: i in s.book.made ==> MadeInv(s, i, s.book.made[i]))
    && GoneInv(s.book)
  }

  /** Entering a new subscription or changing one subscription's channel leaves the others fresh. */
  lemma EntryKept(b: Book, b': Book, r: Rollout, r': Rollout, id: string, e: Entry)
    requires EntryInv(b, r, id, e)
    requires forall i :: i in e.subs && Fresh(b, e.subs[i]) ==> Fresh(b', e.subs[i])
    requires forall i :: i in e.subs && InFlight(r', i) ==> InFlight(r, i)
    ensures EntryInv(b', r', id, e)
  {
    assert forall i :: i in e.subs ==> WaitingInv(b, r, id, e.policy, i, e.subs[i]);
  }

  lemma NewIndex(s: State)
    requires Inv(s)
    ensures s.counter + 1 !in s.book.made && s.counter + 1 !in s.book.gone && !InFlight(s.rollout, s.counter + 1)
  {
    assert forall i :: i in s.book.made ==> MadeInv(s, i, s.book.made[i]);
    assert forall i :: s.rollout.Sending? && 0 <= i < |s.rollout.rest| ==> Fresh(s.book, s.rollout.rest[i]);
  }

  lemma SubscribeKeeps(s: State, l: Label, s': State)
    requires Inv(s) && Next(s, l, s') && l.Subscribe?
    ensures Inv(s')
  {
    var sub := Sub(s.counter + 1, l.policyId, l.revIdx, l.coordIdx);
    TestsAgree(sub);
    NewIndex(s);
    forall id | id in s.policies
      ensures EntryInv(s'.book, s'.rollout, id, s.policies[id])
    {
      EntryKept(s.book, s'.book, s.rollout, s'.rollout, id, s.policies[id]);
    }
    forall i | i in s'.book.made
      ensures MadeInv(s', i, s'.book.made[i])
    {
      if i != sub.idx { assert MadeInv(s, i, s.book.made[i]); }
    }
  }

  lemma UnsubscribeKeeps(s: State, i: nat, s': State)
    requires Inv(s) && Next(s, Unsubscribe(i), s')
    ensures Inv(s')
  {
    var sub := s.book.made[i];
    assert MadeInv(s, i, sub);
    forall id | id in s'.policies
      ensures EntryInv(s'.book, s'.rollout, id, s'.policies[id])
    {
      var e, e' := s.policies[id], s'.policies[id];
      assert EntryInv(s.book, s.rollout, id, e);
      assert forall j :: j in e'.subs ==> WaitingInv(s.book, s.rollout, id, e.policy, j, e.subs[j]);
      assert forall j :: j in e'.subs ==> WaitingInv(s'.book, s'.rollout, id, e'.policy, j, e'.subs[j]);
    }
    if Waits(s.policies, sub) {
      assert WaitingInv(s.book, s.rollout, sub.policyId, s.policies[sub.policyId].policy, i,
             s.policies[sub.policyId].subs[i]);
    }
    forall j | j in s'.book.made
      ensures MadeInv(s', j, s'.book.made[j])
    {
      assert MadeInv(s, j, s.book.made[j]);
    }
  }

  lemma UpdateRollout(s: State, p: Policy, subs: seq<Sub>)
    requires Inv(s) && s.rollout == Idling && Enumerates(subs, Woken(s.policies, p)) && subs != []
    ensures RolloutInv(s.book, Sending(p, subs))
    ensures forall i :: i in Woken(s.policies, p) <==> InFlight(Sending(p, subs), i)
  {
    var woken := Woken(s.policies, p);
    var e := EntryAt(s.policies, p.id);
    assert forall i :: i in woken ==> WaitingInv(s.book, s.rollout, p.id, e.policy, i, e.subs[i]);
    assert forall j :: 0 <= j < |subs| ==> subs[j].idx in woken && subs[j] == e.subs[subs[j].idx];
    forall i | i in woken
      ensures InFlight(Sending(p, subs), i)
    {
      var j :| 0 <= j < |subs| && subs[j] == woken[i];
      assert subs[j].idx == i;
    }
  }

  lemma UpdateKeeps(s: State, p: Policy, subs: seq<Sub>, s': State)
    requires Inv(s) && Next(s, Update(p, subs), s')
    ensures Inv(s')
  {
    var woken := Woken(s.policies, p);
    if subs != [] {
      UpdateRollout(s, p, subs);
    }
    assert subs == [] ==> woken == map[];
    forall id | id in s'.policies
      ensures EntryInv(s'.book, s'.rollout, id, s'.policies[id])
    {
      if id == p.id {
        var e := EntryAt(s.policies, id);
        assert forall i :: i in e.subs ==> WaitingInv(s.book, s.rollout, id, e.policy, i, e.subs[i]);
        assert forall i :: i in s'.policies[id].subs ==> i in e.subs && i !in woken;
      } else {
        assert EntryInv(s.book, s.rollout, id, s.policies[id]);
        OthersNotWoken(s, p, id);
        EntryKept(s.book, s'.book, s.rollout, s'.rollout, id, s.policies[id]);
      }
    }
    forall i | i in s'.book.made
      ensures MadeInv(s', i, s'.book.made[i])
    {
      assert MadeInv(s, i, s.book.made[i]);
    }
  }

  lemma OthersNotWoken(s: State, p: Policy, id: string)
    requires Inv(s) && id in s.policies && id != p.id
    ensures forall i :: i in s.policies[id].subs ==> i !in Woken(s.policies, p)
  {
    var e, f := s.policies[id], EntryAt(s.policies, p.id);
    assert forall i :: i in e.subs ==> WaitingInv(s.book, s.rollout, id, e.policy, i, e.subs[i]);
    assert forall i :: i in f.subs ==> WaitingInv(s.book, s.rollout, p.id, f.policy, i, f.subs[i]);
  }

  lemma AdvanceInFlight(b: Book, r: Rollout, i: nat)
    requires RolloutInv(b, r) && r.Sending?
    ensures InFlight(Advance(r), i) <==> InFlight(r, i) && i != r.rest[0].idx
  {
    if InFlight(r, i) && i != r.rest[0].idx {
      var j :| 0 <= j < |r.rest| && r.rest[j].idx == i;
      assert r.rest[1..][j - 1].idx == i;
    }
  }

  lemma SendKeepsEntries(s: State, s': State)
    requires Inv(s) && Next(s, Send, s')
    ensures forall id :: id in s'.policies ==> EntryInv(s'.book, s'.rollout, id, s'.policies[id])
  {
    var r := s.rollout;
    var sub := r.rest[0];
    assert Fresh(s.book, sub) && InFlight(r, sub.idx);
    forall i: nat
      ensures InFlight(Advance(r), i) <==> InFlight(r, i) && i != sub.idx
    {
      AdvanceInFlight(s.book, r, i);
    }
    forall id | id in s'.policies
      ensures EntryInv(s'.book, s'.rollout, id, s'.policies[id])
    {
      var e := s.policies[id];
      assert forall i :: i in e.subs ==> WaitingInv(s.book, r, id, e.policy, i, e.subs[i]);
      EntryKept(s.book, s'.book, r, s'.rollout, id, e);
    }
  }

  lemma SendKeepsRollout(b: Book, r: Rollout)
    requires RolloutInv(b, r) && r.Sending?
    ensures Fresh(b, r.rest[0]) && RolloutInv(Deliver(b, r.rest[0].idx, r.policy), Advance(r))
  {
    assert forall j :: 0 <= j < |r.rest| ==> Fresh(b, r.rest[j]);
    assert forall j :: 1 <= j < |r.rest| ==> r.rest[1..][j - 1] == r.rest[j];
  }

  lemma SendKeepsMade(s: State, s': State)
    requires Inv(s) && Next(s, Send, s')
    ensures forall i :: i in s'.book.made ==> MadeInv(s', i, s'.book.made[i])
  {
    assert Fresh(s.book, s.rollout.rest[0]);
    forall i | i in s'.book.made
      ensures MadeInv(s', i, s'.book.made[i])
    {
      assert MadeInv(s, i, s.book.made[i]);
      AdvanceInFlight(s.book, s.rollout, i);
    }
  }

  lemma SendKeeps(s: State, s': State)
    requires Inv(s) && Next(s, Send, s')
    ensures Inv(s')
  {
    SendKeepsEntries(s, s');
    SendKeepsRollout(s.book, s.rollout);
    SendKeepsMade(s, s');
  }

  lemma CancelKeeps(s: State, s': State)
    requires Inv(s) && Next(s, Cancel, s')
    ensures Inv(s')
  {
    forall id | id in s'.policies
      ensures EntryInv(s'.book, s'.rollout, id, s'.policies[id])
    {
      var e := s.policies[id];
      assert forall i :: i in e.subs ==> WaitingInv(s.book, s.rollout, id, e.policy, i, e.subs[i]);
      EntryKept(s.book, s'.book, s.rollout, s'.rollout, id, e);
    }
    forall i | i in s'.book.made
      ensures MadeInv(s', i, s'.book.made[i])
    {
      assert MadeInv(s, i, s.book.made[i]);
    }
    forall i | i in s.book.made && InFlight(s.rollout, i)
      ensures i in s.book.sent && s.book.sent[i] == []
    {
      var j :| 0 <= j < |s.rollout.rest| && s.rollout.rest[j].idx == i;
      assert Fresh(s.book, s.rollout.rest[j]);
    }
  }

  lemma ReceiveKeeps(s: State, i: nat, s': State)
    requires Inv(s) && Next(s, Receive(i), s')
    ensures Inv(s')
  {
    forall id | id in s'.policies
      ensures EntryInv(s'.book, s'.rollout, id, s'.policies[id])
    {
      EntryKept(s.book, s'.book, s.rollout, s'.rollout, id, s.policies[id]);
    }
    forall j | j in s'.book.made
      ensures MadeInv(s', j, s'.book.made[j])
    {
      assert MadeInv(s, j, s.book.made[j]);
    }
  }

  lemma InvStep(s: State, l: Label, s': State)
    requires Inv(s) && Next(s, l, s')
    ensures Inv(s')
  {
    match l
    case Subscribe(_, _, _) => SubscribeKeeps(s, l, s');
    case Unsubscribe(i) => UnsubscribeKeeps(s, i, s');
    case Update(p, subs) => UpdateKeeps(s, p, subs, s');
    case Send => SendKeeps(s, s');
    case Cancel => CancelKeeps(s, s');
    case Receive(i) => ReceiveKeeps(s, i, s');
  }

  // ---------------------------------------------------------------- whole runs

  datatype Run = Start(s: State) | Then(prev: Run, l: Label, s: State)

  ghost predicate IsRun(run: Run) {
    match run
    case Start(s) => Init(s)
    case Then(prev, l, s) => IsRun(prev) && Next(prev.s, l, s)
  }

  lemma {:induction false} RunInv(run: Run)
    requires IsRun(run)
    ensures Inv(run.s)
  {
    match run
    case Start(s) =>
    case Then(prev, l, s) =>
      RunInv(prev);
      InvStep(prev.s, l, s);
  }

  function Count(b: bool): nat {
    if b then 1 else 0
  }

  /** In every interleaving a subscription is in exactly one place: waiting in its policy's map, in
      the list of a rollout under way, sent to, or gone. */
  lemma ExactlyOnePlace(run: Run, i: nat)
    requires IsRun(run) && i in run.s.book.made
    ensures i in run.s.book.sent
    ensures var s := run.s;
            Count(Waits(s.policies, s.book.made[i])) + Count(InFlight(s.rollout, i))
            + Count(s.book.sent[i] != []) + Count(i in s.book.gone) == 1
  {
    RunInv(run);
    var s := run.s;
    var sub := s.book.made[i];
    assert MadeInv(s, i, sub);
    if Waits(s.policies, sub) {
      var e := s.policies[sub.policyId];
      assert WaitingInv(s.book, s.rollout, sub.policyId, e.policy, i, e.subs[i]);
    }
    if InFlight(s.rollout, i) {
      var j :| 0 <= j < |s.rollout.rest| && s.rollout.rest[j].idx == i;
      assert Fresh(s.book, s.rollout.rest[j]);
    }
  }

  // ---------------------------------------------------------------- what was updated and what is sent

  /** The policy of the last update of `id`. */
  function LastUpdate(run: Run, id: string): Option<Policy> {
    if run.Start? then None
    else if run.l.Update? && run.l.policy.id == id then Some(run.l.policy)
    else LastUpdate(run.prev, id)
  }

  function Updates(run: Run): set<Policy> {
    if run.Start? then {} else if run.l.Update? then Updates(run.prev) + {run.l.policy} else Updates(run.prev)
  }

  /** What is stored for an id is the last update of it. */
  lemma {:induction false} StoredIsLast(run: Run, id: string)
    requires IsRun(run)
    ensures EntryAt(run.s.policies, id).policy
            == if LastUpdate(run, id).Some? then LastUpdate(run, id).value else PLACEHOLDER
  {
    if run.Then? {
      StoredIsLast(run.prev, id);
      StoredStep(run.prev.s, run.l, run.s, id);
    }
  }

  lemma StoredStep(s: State, l: Label, s': State, id: string)
    requires Next(s, l, s')
    ensures EntryAt(s'.policies, id).policy
            == if l.Update? && l.policy.id == id then l.policy else EntryAt(s.policies, id).policy
  {
    match l
    case Update(p, _) => UpdateStores(s.policies, p, id);
    case _ =>
  }

  lemma {:induction false} LastAmongUpdates(run: Run, id: string)
    ensures LastUpdate(run, id).Some? ==> LastUpdate(run, id).value in Updates(run)
  {
    if run.Then? {
      LastAmongUpdates(run.prev, id);
    }
  }

  /** Everything on its way or sent is the policy of some update, and what lies in a channel is what
      was sent there. */
  ghost predicate FromUpdates(s: State, updates: set<Policy>) {
    && (s.rollout.Sending? ==> s.rollout.policy in updates)
    && (forall i, p :: i in s.book.sent && p in s.book.sent[i] ==> p in updates)
    && (forall i :: i in s.book.channels && s.book.channels[i].Some? ==>
          i in s.book.sent && s.book.channels[i].value in s.book.sent[i])
  }

  lemma {:induction false} SentFromUpdates(run: Run)
    requires IsRun(run)
    ensures FromUpdates(run.s, Updates(run))
  {
    if run.Then? {
      SentFromUpdates(run.prev);
      var s := run.prev.s;
      match run.l
      case Subscribe(id, revIdx, coordIdx) =>
        StoredIsLast(run.prev, id);
        LastAmongUpdates(run.prev, id);
        TestsAgree(Sub(s.counter + 1, id, revIdx, coordIdx));
      case Send =>
        SendFromUpdates(s.book, s.rollout, Updates(run.prev));
      case _ =>
    }
  }

  lemma SendFromUpdates(b: Book, r: Rollout, updates: set<Policy>)
    requires r.Sending? && r.rest != [] && r.rest[0].idx in b.channels && r.rest[0].idx in b.sent
    requires r.policy in updates
    requires forall i, p :: i in b.sent && p in b.sent[i] ==> p in updates
    requires forall i :: i in b.channels && b.channels[i].Some? ==> i in b.sent && b.channels[i].value in b.sent[i]
    ensures var b' := Deliver(b, r.rest[0].idx, r.policy);
            && (forall i, p :: i in b'.sent && p in b'.sent[i] ==> p in updates)
            && (forall i :: i in b'.channels && b'.channels[i].Some? ==>
                  i in b'.sent && b'.channels[i].value in b'.sent[i])
  {
  }

  /** At most one policy is ever sent to a subscription, and it is the policy of an update, and one the
      subscriber asked for: of the subscribed id, past the coordinator, and newer than the pair
      subscribed with.  What a subscriber finds in its channel is what was sent. */
  lemma OneShotDelivery(run: Run, i: nat)
    requires IsRun(run) && i in run.s.book.made
    ensures i in run.s.book.sent && |run.s.book.sent[i]| <= 1
    ensures forall p :: p in run.s.book.sent[i] ==>
              var sub := run.s.book.made[i];
              && p in Updates(run) && p.id == sub.policyId && p.coordinatorIdx > 0
              && (p.revisionIdx > sub.revIdx || (p.revisionIdx == sub.revIdx && p.coordinatorIdx > sub.coordIdx))
    ensures i in run.s.book.channels && run.s.book.channels[i].Some? ==>
              run.s.book.sent[i] == [run.s.book.channels[i].value]
  {
    RunInv(run);
    SentFromUpdates(run);
    assert MadeInv(run.s, i, run.s.book.made[i]);
    SentOne(run.s, Updates(run), i);
  }

  lemma SentOne(s: State, updates: set<Policy>, i: nat)
    requires FromUpdates(s, updates) && i in s.book.sent && |s.book.sent[i]| <= 1
    ensures forall p :: p in s.book.sent[i] ==> p in updates && s.book.sent[i] == [p]
    ensures i in s.book.channels && s.book.channels[i].Some? ==> s.book.sent[i] == [s.book.channels[i].value]
  {
  }

  /** The branch for a full channel is never taken, whatever happens between two sends. */
  lemma SendNeverBlocks(run: Run)
    requires IsRun(run) && run.s.rollout.Sending?
    ensures run.s.rollout.rest != []
    ensures var i := run.s.rollout.rest[0].idx; i in run.s.book.channels && run.s.book.channels[i] == None
  {
    RunInv(run);
    assert Fresh(run.s.book, run.s.rollout.rest[0]);
  }

  /** No wakeup is lost: if the last update of an id has passed the coordinator and is newer than what
      a subscriber to that id has, and the subscription is still wanted, it has been sent to or is
      about to be, whether it was made before the update or after. */
  lemma NoLostWakeup(run: Run, i: nat, p: Policy)
    requires IsRun(run) && i in run.s.book.made && i !in run.s.book.gone
    requires LastUpdate(run, run.s.book.made[i].policyId) == Some(p) && p.coordinatorIdx > 0
    requires var sub := run.s.book.made[i];
             p.revisionIdx > sub.revIdx || (p.revisionIdx == sub.revIdx && p.coordinatorIdx > sub.coordIdx)
    ensures i in run.s.book.sent && (run.s.book.sent[i] != [] || InFlight(run.s.rollout, i))
  {
    RunInv(run);
    var s := run.s;
    var sub := s.book.made[i];
    StoredIsLast(run, sub.policyId);
    assert MadeInv(s, i, sub);
    var e := EntryAt(s.policies, sub.policyId);
    assert forall j :: j in e.subs ==> WaitingInv(s.book, s.rollout, sub.policyId, e.policy, j, e.subs[j]);
  }

  // ---------------------------------------------------------------- unsubscribing

  ghost predicate Reaches(earlier: Run, run: Run) {
    run == earlier || (run.Then? && Reaches(earlier, run.prev))
  }

  lemma GoneStep(s: State, l: Label, s': State, i: nat)
    requires Next(s, l, s') && i in s.book.gone
    ensures i in s'.book.gone
  {
  }

  lemma {:induction false} StaysGone(earlier: Run, run: Run, i: nat)
    requires IsRun(run) && Reaches(earlier, run) && i in earlier.s.book.gone
    ensures i in run.s.book.gone
  {
    if run != earlier {
      StaysGone(earlier, run.prev, i);
      GoneStep(run.prev.s, run.l, run.s, i);
    }
  }

  lemma UnsubscribeStep(s: State, i: nat, s': State)
    requires Next(s, Unsubscribe(i), s') && i in s.book.made && Waits(s.policies, s.book.made[i])
    ensures i in s'.book.gone && !Waits(s'.policies, s.book.made[i])
  {
  }

  /** A subscription that is taken back while it waits is sent nothing, whatever is updated later. */
  lemma NothingAfterUnsubscribe(earlier: Run, run: Run, i: nat)
    requires IsRun(run) && Reaches(earlier, run) && IsRun(earlier) && earlier.Then? && earlier.l == Unsubscribe(i)
    requires i in earlier.prev.s.book.made && Waits(earlier.prev.s.policies, earlier.prev.s.book.made[i])
    ensures i in run.s.book.sent && run.s.book.sent[i] == []
    ensures i in run.s.book.made && !Waits(run.s.policies, run.s.book.made[i]) && !InFlight(run.s.rollout, i)
  {
    UnsubscribeStep(earlier.prev.s, i, earlier.s);
    StaysGone(earlier, run, i);
    RunInv(run);
    ExactlyOnePlace(run, i);
  }
}
