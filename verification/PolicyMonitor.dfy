/**
 The policy monitor: keeps the latest policy of each id and wakes the check-ins subscribed to it.

 A subscription is one shot.  It is either answered at once, from the stored policy, or put in the
 policy's map; an update takes every older subscription out of the map under the mutex and sends to
 them afterwards, without the mutex.
 */
module PolicyMonitor {
  import opened Index

  datatype Policy = Policy(id: string, revisionIdx: int, coordinatorIdx: int, data: string)

  /** The zero value that stands for a policy not seen yet. */
  const PLACEHOLDER := Policy("", 0, 0, "")

  /** `idx` also names the subscription's channel, which has room for one policy. */
  datatype Sub = Sub(idx: nat, policyId: string, revIdx: int, coordIdx: int)

  datatype Entry = Entry(policy: Policy, subs: map<nat, Sub>)

  type Policies = map<string, Entry>

  predicate Newer(rev: int, coord: int, thanRev: int, thanCoord: int) {
    rev > thanRev || (rev == thanRev && coord > thanCoord)
  }

  predicate NewerPolicy(p: Policy, than: Policy) {
    Newer(p.revisionIdx, p.coordinatorIdx, than.revisionIdx, than.coordinatorIdx)
  }

  /** The policy has passed the coordinator and is newer than what the subscriber has. */
  predicate Fires(p: Policy, s: Sub) {
    p.coordinatorIdx > 0 && Newer(p.revisionIdx, p.coordinatorIdx, s.revIdx, s.coordIdx)
  }

  /** The test Subscribe makes, as it is written there. */
  predicate FiresAtOnce(p: Policy, revIdx: int, coordIdx: int) {
    (p.revisionIdx > revIdx && p.coordinatorIdx > 0) || (p.revisionIdx == revIdx && p.coordinatorIdx > coordIdx)
  }

  /** The two tests agree on every policy if and only if the coordinator index is not negative,
      which is what Subscribe insists on. */
  lemma TestsAgree(s: Sub)
    ensures (forall p :: FiresAtOnce(p, s.revIdx, s.coordIdx) <==> Fires(p, s)) <==> s.coordIdx >= 0
  {
    if s.coordIdx < 0 {
      var p := Policy("", s.revIdx, 0, "");
      assert FiresAtOnce(p, s.revIdx, s.coordIdx) && !Fires(p, s);
    }
  }

  // ---------------------------------------------------------------- what each operation does

  function EntryAt(policies: Policies, id: string): Entry {
    if id in policies then policies[id] else Entry(PLACEHOLDER, map[])
  }

  /** The subscriptions an update takes out of the map. */
  function Woken(policies: Policies, p: Policy): map<nat, Sub> {
    var subs := EntryAt(policies, p.id).subs;
    FiringAmong(subs, subs.Keys, p)
  }

  function FiringAmong(subs: map<nat, Sub>, among: set<nat>, p: Policy): map<nat, Sub> {
    map i | i in subs && i in among && Fires(p, subs[i]) :: subs[i]
  }

  lemma FiringOneMore(subs: map<nat, Sub>, among: set<nat>, i: nat, p: Policy)
    requires i in subs && i !in among
    ensures FiringAmong(subs, among + {i}, p) ==
            if Fires(p, subs[i]) then FiringAmong(subs, among, p)[i := subs[i]] else FiringAmong(subs, among, p)
  {
  }

  function Updated(policies: Policies, p: Policy): Policies {
    policies[p.id := Entry(p, EntryAt(policies, p.id).subs - Woken(policies, p).Keys)]
  }

  /** An update stores its policy, whatever it is, and changes nothing of any other id. */
  lemma UpdateStores(policies: Policies, p: Policy, id: string)
    ensures p.id in Updated(policies, p) && Updated(policies, p)[p.id].policy == p
    ensures id != p.id ==> EntryAt(Updated(policies, p), id) == EntryAt(policies, id)
    ensures forall i :: i in EntryAt(policies, p.id).subs ==>
              (i in Updated(policies, p)[p.id].subs <==> !Fires(p, EntryAt(policies, p.id).subs[i]))
  {
  }

  function Subscribed(policies: Policies, s: Sub): Policies {
    var e := EntryAt(policies, s.policyId);
    if FiresAtOnce(e.policy, s.revIdx, s.coordIdx) then policies
    else policies[s.policyId := e.(subs := e.subs[s.idx := s])]
  }

  function Unsubscribed(policies: Policies, s: Sub): Policies {
    if s.policyId in policies then
      var e := policies[s.policyId];
      policies[s.policyId := e.(subs := e.subs - {s.idx})]
    else policies
  }

  /** `list` holds each of `subs` once, in some order. */
  ghost predicate Enumerates(list: seq<Sub>, subs: map<nat, Sub>) {
    && (forall i, j :: 0 <= i < j < |list| ==> list[i].idx != list[j].idx)
    && (forall i :: 0 <= i < |list| ==> list[i].idx in subs && subs[list[i].idx] == list[i])
    && (forall k :: k in subs ==> subs[k] in list)
  }

  /** `p` is the first of the newest policies with its id. */
  ghost predicate IsLatest(policies: seq<Policy>, p: Policy) {
    exists i :: 0 <= i < |policies| && policies[i] == p
      && (forall j :: 0 <= j < |policies| && policies[j].id == p.id ==> !NewerPolicy(policies[j], p))
      && (forall j :: 0 <= j < i && policies[j].id == p.id ==> NewerPolicy(p, policies[j]))
  }

  datatype SubscribeResult = Rejected | Accepted(sub: Sub)

  /** The subscriptions in a map are kept under their index and have received nothing. */
  ghost predicate Idle(subs: map<nat, Sub>, channels: map<nat, Option<Policy>>) {
    forall i :: i in subs ==> subs[i].idx == i && i in channels && channels[i] == None
  }

  class Monitor {
    var policies: Policies
    var counter: nat
    var kicked: bool
    var channels: map<nat, Option<Policy>>

    ghost predicate Valid()
      reads this
    {
      && (forall id :: id in policies ==> Idle(policies[id].subs, channels))
      && (forall i :: i in channels ==> 0 < i <= counter)
    }

    constructor ()
      ensures Valid() && policies == map[] && counter == 0 && !kicked && channels == map[]
    {
      policies, counter, kicked, channels := map[], 0, false, map[];
    }

    method GroupByLatest(policies: seq<Policy>) returns (latest: map<string, Policy>)
      ensures forall id :: id in latest ==> latest[id].id == id && IsLatest(policies, latest[id])
      ensures forall i :: 0 <= i < |policies| ==> policies[i].id in latest
    {
      latest := map[];
      ghost var from: map<string, nat> := map[];
      for n := 0 to |policies|
        invariant latest.Keys == from.Keys
        invariant forall id :: id in latest ==> from[id] < n && policies[from[id]] == latest[id] && latest[id].id == id
        invariant forall j :: 0 <= j < n ==>
                  policies[j].id in latest && !NewerPolicy(policies[j], latest[policies[j].id])
        invariant forall j :: 0 <= j < n && j < from[policies[j].id] ==>
                  NewerPolicy(latest[policies[j].id], policies[j])
      {
        var policy := policies[n];
        if policy.id !in latest {
          latest, from := latest[policy.id := policy], from[policy.id := n];
          continue;
        }
        var curr := latest[policy.id];
        if policy.revisionIdx > curr.revisionIdx {
          latest, from := latest[policy.id := policy], from[policy.id := n];
          continue;
        } else if policy.revisionIdx == curr.revisionIdx && policy.coordinatorIdx > curr.coordinatorIdx {
          latest, from := latest[policy.id := policy], from[policy.id := n];
        }
      }
      forall id | id in latest
        ensures IsLatest(policies, latest[id])
      {
        var i := from[id];
        assert policies[i] == latest[id];
      }
    }

    method UpdatePolicy(p: Policy) returns (subs: seq<Sub>)
      requires Valid()
      modifies this`policies
      ensures Valid()
      ensures policies == Updated(old(policies), p)
      ensures p.id in policies && policies[p.id].policy == p
      ensures Enumerates(subs, Woken(old(policies), p))
    {
      if p.id !in policies {
        policies := policies[p.id := Entry(p, map[])];
        assert Woken(old(policies), p) == map[];
        return [];
      }
      var e := policies[p.id];
      if p.coordinatorIdx <= 0 {
        policies := policies[p.id := e.(policy := p)];
        assert Woken(old(policies), p) == map[];
        assert e.subs - Woken(old(policies), p).Keys == e.subs;
        return [];
      }
      var kept;
      assert Idle(policies[p.id].subs, channels);
      subs, kept := TakeOlder(e.subs, p);
      policies := policies[p.id := Entry(p, kept)];
    }

    method TakeOlder(all: map<nat, Sub>, p: Policy) returns (subs: seq<Sub>, kept: map<nat, Sub>)
      requires p.coordinatorIdx > 0 && forall i :: i in all ==> all[i].idx == i
      ensures Enumerates(subs, FiringAmong(all, all.Keys, p))
      ensures kept == all - FiringAmong(all, all.Keys, p).Keys
    {
      subs, kept := [], all;
      var rest := all.Keys;
      ghost var done: set<nat> := {};
      NoneTaken(all, p);
      while rest != {}
        invariant done !! rest && done + rest == all.Keys && TakenAmong(all, done, p, subs, kept)
        decreases |rest|
      {
        var i :| i in rest;
        var s := all[i];
        TakeNext(all, done, i, p, subs, kept);
        if p.revisionIdx > s.revIdx || (p.revisionIdx == s.revIdx && p.coordinatorIdx > s.coordIdx) {
          kept, subs := kept - {i}, subs + [s];
        }
        rest, done := rest - {i}, done + {i};
      }
    }

    method Subscribe(policyId: string, revIdx: int, coordIdx: int) returns (r: SubscribeResult)
      requires Valid()
      modifies this
      ensures Valid()
      ensures revIdx < 0 || coordIdx < 0 ==>
                r == Rejected && policies == old(policies) && counter == old(counter) && channels == old(channels)
      ensures revIdx >= 0 && coordIdx >= 0 ==>
                var s := Sub(old(counter) + 1, policyId, revIdx, coordIdx);
                var p := EntryAt(old(policies), policyId).policy;
                && counter == s.idx && policies == Subscribed(old(policies), s)
                && channels == old(channels)[s.idx := if Fires(p, s) then Some(p) else None]
                // an answered subscription gives up its index, so that Unsubscribe ignores it
                && r == Accepted(if Fires(p, s) then s.(idx := 0) else s)
                && kicked == (old(kicked) || policyId !in old(policies))
    {
      if revIdx < 0 || coordIdx < 0 {
        return Rejected;
      }
      counter := counter + 1;
      var s := Sub(counter, policyId, revIdx, coordIdx);
      var p := EntryAt(policies, policyId);
      TestsAgree(s);
      if FiresAtOnce(p.policy, revIdx, coordIdx) {
        channels := channels[s.idx := Some(p.policy)];
        r := Accepted(s.(idx := 0));
      } else {
        if policyId !in policies {
          kicked := true;
        }
        channels := channels[s.idx := None];
        policies := policies[policyId := p.(subs := p.subs[s.idx := s])];
        r := Accepted(s);
      }
    }

    method Unsubscribe(s: Sub)
      requires Valid()
      modifies this`policies
      ensures Valid()
      ensures policies == if s.idx == 0 then old(policies) else Unsubscribed(old(policies), s)
    {
      if s.idx == 0 {
        return;
      }
      if s.policyId in policies {
        var e := policies[s.policyId];
        policies := policies[s.policyId := e.(subs := e.subs - {s.idx})];
      }
    }

    /** The send of a rollout: it does not wait, and drops the policy when the channel is full. */
    method Send(s: Sub, p: Policy) returns (blocked: bool)
      requires s.idx in channels
      modifies this`channels
      ensures blocked == old(channels)[s.idx].Some?
      ensures channels == if blocked then old(channels) else old(channels)[s.idx := Some(p)]
    {
      if channels[s.idx].None? {
        channels := channels[s.idx := Some(p)];
        return false;
      }
      return true;
    }

    /** Sends to each of `subs`, until the context ends before send number `stop`. */
    method SendAll(subs: seq<Sub>, p: Policy, stop: nat) returns (ok: bool)
      requires forall i, j :: 0 <= i < j < |subs| ==> subs[i].idx != subs[j].idx
      requires forall i :: 0 <= i < |subs| ==> subs[i].idx in channels && channels[subs[i].idx] == None
      modifies this`channels
      ensures ok <==> stop >= |subs|
      ensures channels.Keys == old(channels).Keys
      ensures forall i :: 0 <= i < |subs| ==> channels[subs[i].idx] == if i < stop then Some(p) else None
      ensures forall c :: c in old(channels) && (forall i :: 0 <= i < |subs| ==> subs[i].idx != c) ==>
                channels[c] == old(channels)[c]
    {
      for n := 0 to |subs|
        invariant n <= stop && channels.Keys == old(channels).Keys
        invariant forall j :: 0 <= j < |subs| ==> channels[subs[j].idx] == if j < n then Some(p) else None
        invariant forall c :: c in old(channels) && (forall i :: 0 <= i < |subs| ==> subs[i].idx != c) ==>
                    channels[c] == old(channels)[c]
      {
        if n == stop {
          return false;
        }
        var blocked := Send(subs[n], p);
        assert !blocked;
      }
      ok := true;
    }

    /** A rollout on its own, cancelled before send number `stop` if that comes first. */
    method Rollout(p: Policy, stop: nat) returns (ok: bool)
      requires Valid()
      modifies this`policies, this`channels
      ensures policies == Updated(old(policies), p) && channels.Keys == old(channels).Keys
      ensures ok <==> stop >= |Woken(old(policies), p)|
      ensures ok ==> forall i :: i in Woken(old(policies), p) ==> i in channels && channels[i] == Some(p)
      ensures forall i :: i in old(channels) && i !in Woken(old(policies), p) ==>
              i in channels && channels[i] == old(channels)[i]
    {
      ghost var woken := Woken(policies, p);
      assert p.id in policies ==> Idle(policies[p.id].subs, channels);
      assert forall i :: i in woken ==> i in channels && channels[i] == None;
      var subs := UpdatePolicy(p);
      ListedOnce(subs, woken);
      ok := SendAll(subs, p, stop);
      forall i | i in woken
        ensures exists j :: 0 <= j < |subs| && subs[j].idx == i
      {
        var j :| 0 <= j < |subs| && subs[j] == woken[i];
      }
    }
  }

  /** A list that has each subscription once is as long as the map. */
  lemma {:induction false} ListedOnce(list: seq<Sub>, subs: map<nat, Sub>)
    requires Enumerates(list, subs) && forall i :: i in subs ==> subs[i].idx == i
    ensures |list| == |subs|
  {
    if list == [] {
      assert forall k :: k !in subs;
      assert subs == map[];
    } else {
      var n := |list| - 1;
      var less := subs - {list[n].idx};
      assert list == list[..n] + [list[n]];
      assert Enumerates(list[..n], less);
      ListedOnce(list[..n], less);
      assert subs.Keys == less.Keys + {list[n].idx};
      assert |subs.Keys| == |subs| && |less.Keys| == |less|;
    }
  }

  /** Of the subscriptions `among`, those that fire are in the list and the others are kept. */
  ghost predicate TakenAmong(all: map<nat, Sub>, among: set<nat>, p: Policy, subs: seq<Sub>, kept: map<nat, Sub>) {
    Enumerates(subs, FiringAmong(all, among, p)) && kept == all - FiringAmong(all, among, p).Keys
  }

  lemma NoneTaken(all: map<nat, Sub>, p: Policy)
    ensures TakenAmong(all, {}, p, [], all)
  {
    assert FiringAmong(all, {}, p) == map[];
  }

  lemma TakeNext(all: map<nat, Sub>, among: set<nat>, i: nat, p: Policy, subs: seq<Sub>, kept: map<nat, Sub>)
    requires TakenAmong(all, among, p, subs, kept) && i in all && i !in among && all[i].idx == i
    ensures if Fires(p, all[i]) then TakenAmong(all, among + {i}, p, subs + [all[i]], kept - {i})
            else TakenAmong(all, among + {i}, p, subs, kept)
  {
    FiringOneMore(all, among, i, p);
    if Fires(p, all[i]) {
      EnumeratesMore(subs, FiringAmong(all, among, p), all[i]);
    }
  }

  lemma EnumeratesMore(list: seq<Sub>, subs: map<nat, Sub>, s: Sub)
    requires Enumerates(list, subs) && s.idx !in subs
    ensures Enumerates(list + [s], subs[s.idx := s])
  {
    assert forall k :: k in subs ==> subs[k] in list + [s];
    assert s in list + [s];
  }
}
