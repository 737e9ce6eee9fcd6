/**
 The action dispatcher: regroups each published batch by agent and hands every agent its part
 through a channel of one slot, dropping the part when the agent is absent or its slot is full.
 */
module Dispatcher {
  import opened Index

  /** A published action document: its sequence number, the agents it is meant for, and whether it
      can be unmarshalled. */
  datatype Hit = Hit(seqNo: int, agents: seq<string>, readable: bool)

  /** The hits in front of the first that cannot be unmarshalled; the rest of the batch is dropped. */
  function Readable(hits: seq<Hit>): seq<Hit> {
    if hits == [] || !hits[0].readable then [] else [hits[0]] + Readable(hits[1..])
  }

  /** Where the first hit that cannot be unmarshalled stands, or the length. */
  function FirstUnreadable(hits: seq<Hit>): (n: nat)
    ensures n <= |hits| && (n < |hits| ==> !hits[n].readable)
    ensures forall i :: 0 <= i < n ==> hits[i].readable
  {
    if hits == [] || !hits[0].readable then 0 else 1 + FirstUnreadable(hits[1..])
  }

  lemma {:induction false} ReadablePrefix(hits: seq<Hit>, n: nat)
    requires n <= |hits| && forall i :: 0 <= i < n ==> hits[i].readable
    requires n < |hits| ==> !hits[n].readable
    ensures Readable(hits) == hits[..n]
  {
    if n > 0 {
      ReadablePrefix(hits[1..], n - 1);
      assert hits[..n] == [hits[0]] + hits[1..][..n - 1];
    }
  }

  function Copies(k: int, n: nat): (ks: seq<int>)
    ensures |ks| == n && forall i :: 0 <= i < n ==> ks[i] == k
  {
    if n == 0 then [] else Copies(k, n - 1) + [k]
  }

  /** The actions of `hits` meant for `agent`, in order; one copy per mention of the agent. */
  function ActionsFor(hits: seq<Hit>, agent: string): seq<int> {
    if hits == [] then []
    else
      var last := hits[|hits| - 1];
      ActionsFor(hits[..|hits| - 1], agent) + Copies(last.seqNo, multiset(last.agents)[agent])
  }

  function At(groups: map<string, seq<int>>, agent: string): seq<int> {
    if agent in groups then groups[agent] else []
  }

  /** `groups` is the regrouping of `hits`: an entry for each agent mentioned, and no other. */
  ghost predicate IsGrouping(groups: map<string, seq<int>>, hits: seq<Hit>) {
    && (forall a :: a in groups ==> groups[a] != [])
    && (forall a :: At(groups, a) == ActionsFor(hits, a))
  }

  ghost predicate Mentioned(hits: seq<Hit>, agent: string, k: int) {
    exists i :: 0 <= i < |hits| && hits[i].seqNo == k && agent in hits[i].agents
  }

  /** Regrouping loses nothing and invents nothing. */
  lemma {:induction false} ActionsForMembers(hits: seq<Hit>, agent: string, k: int)
    ensures k in ActionsFor(hits, agent) <==> Mentioned(hits, agent, k)
  {
    if hits != [] {
      var n := |hits| - 1;
      var init, last := hits[..n], hits[n];
      ActionsForMembers(init, agent, k);
      var copies := Copies(last.seqNo, multiset(last.agents)[agent]);
      assert agent in last.agents ==> copies != [] && copies[0] == last.seqNo;
      if Mentioned(hits, agent, k) && !(last.seqNo == k && agent in last.agents) {
        var i :| 0 <= i < |hits| && hits[i].seqNo == k && agent in hits[i].agents;
        assert init[i] == hits[i];
      }
      if Mentioned(init, agent, k) {
        var i :| 0 <= i < n && init[i].seqNo == k && agent in init[i].agents;
        assert hits[i] == init[i];
      }
    }
  }

  lemma CopiesCount(k: int, n: nat, x: int)
    ensures multiset(Copies(k, n))[x] == if x == k then n else 0
  {
    if n > 0 {
      CopiesCount(k, n - 1, x);
    }
  }

  /** An agent gets an action as often as the action mentions it. */
  lemma {:induction false} ActionsForCount(hits: seq<Hit>, agent: string, i: nat)
    requires i < |hits| && forall a, b :: 0 <= a < b < |hits| ==> hits[a].seqNo != hits[b].seqNo
    ensures multiset(ActionsFor(hits, agent))[hits[i].seqNo] == multiset(hits[i].agents)[agent]
  {
    var n := |hits| - 1;
    var init, last := hits[..n], hits[n];
    CopiesCount(last.seqNo, multiset(last.agents)[agent], hits[i].seqNo);
    if i < n {
      ActionsForCount(init, agent, i);
    } else {
      ActionsForMembers(init, agent, last.seqNo);
      assert !Mentioned(init, agent, last.seqNo);
    }
  }

  /** Each agent's part keeps the order of the batch. */
  lemma {:induction false} ActionsForOrdered(hits: seq<Hit>, agent: string)
    requires forall i, j :: 0 <= i < j < |hits| ==> hits[i].seqNo < hits[j].seqNo
    ensures forall i, j :: 0 <= i < j < |ActionsFor(hits, agent)| ==>
            ActionsFor(hits, agent)[i] <= ActionsFor(hits, agent)[j]
    ensures forall i :: 0 <= i < |ActionsFor(hits, agent)| ==> ActionsFor(hits, agent)[i] <= hits[|hits| - 1].seqNo
  {
    if hits != [] {
      var n := |hits| - 1;
      ActionsForOrdered(hits[..n], agent);
      var before := ActionsFor(hits[..n], agent);
      assert forall i :: 0 <= i < |before| ==> before[i] < hits[n].seqNo;
    }
  }

  /** A channel with a buffer of one. */
  type Channel = Option<seq<int>>

  class Dispatcher {
    var subs: map<string, nat>  // agent id to the channel of its latest subscription
    var channels: map<nat, Channel>  // every channel ever made

    ghost predicate Valid()
      reads this
    {
      && (forall a :: a in subs ==> subs[a] in channels)
      && (forall a, b :: a in subs && b in subs && subs[a] == subs[b] ==> a == b)
    }

    constructor ()
      ensures Valid() && subs == map[] && channels == map[]
    {
      subs, channels := map[], map[];
    }

    method Subscribe(agent: string, ch: nat)
      requires Valid() && ch !in channels
      modifies this
      ensures Valid()
      ensures channels == old(channels)[ch := None] && subs == old(subs)[agent := ch]
    {
      channels := channels[ch := None];
      subs := subs[agent := ch];
    }

    /** Removes by agent id, whichever subscription the agent has now. */
    method Unsubscribe(agent: string)
      requires Valid()
      modifies this
      ensures Valid() && channels == old(channels) && subs == old(subs) - {agent}
    {
      subs := subs - {agent};
    }

    method Dispatch(agent: string, actions: seq<int>)
      requires Valid()
      modifies this`channels
      ensures Valid()
      ensures channels == Deliver(old(subs), old(channels), agent, actions)
    {
      if agent in subs {
        var ch := subs[agent];
        if channels[ch].None? {
          channels := channels[ch := Some(actions)];
        }
      }
    }

    method Process(hits: seq<Hit>)
      requires Valid()
      modifies this`channels
      ensures Valid()
      ensures AllServed(subs, old(channels), channels, a => ActionsFor(Readable(hits), a))
    {
      var groups := Group(hits);
      ghost var before := channels;
      var rest := groups.Keys;
      ghost var part := a => [];
      while rest != {}
        invariant Valid() && rest <= groups.Keys && AllServed(subs, before, channels, part)
        invariant forall a :: part(a) == if a in rest then [] else At(groups, a)
        decreases |rest|
      {
        var agent :| agent in rest;
        ServeOne(subs, before, channels, agent, groups[agent], part);
        Dispatch(agent, groups[agent]);
        part := a => if a == agent then groups[agent] else part(a);
        rest := rest - {agent};
      }
      SameParts(subs, before, channels, part, a => ActionsFor(Readable(hits), a));
    }

    method Group(hits: seq<Hit>) returns (groups: map<string, seq<int>>)
      ensures IsGrouping(groups, Readable(hits))
    {
      groups := map[];
      for i := 0 to |hits|
        invariant IsGrouping(groups, hits[..i])
        invariant forall j :: 0 <= j < i ==> hits[j].readable
      {
        if !hits[i].readable {
          ReadablePrefix(hits, i);
          return;
        }
        ghost var before := groups;
        groups := AddHit(groups, hits[i]);
        assert hits[..i + 1][..i] == hits[..i];
        forall a
          ensures At(groups, a) == ActionsFor(hits[..i + 1], a)
        {
          assert Grown(before, groups, hits[i].agents, hits[i].seqNo, a);
        }
      }
      ReadablePrefix(hits, |hits|);
    }

    method AddHit(before: map<string, seq<int>>, hit: Hit) returns (groups: map<string, seq<int>>)
      requires forall a :: a in before ==> before[a] != []
      ensures forall a :: a in groups ==> groups[a] != []
      ensures forall a :: Grown(before, groups, hit.agents, hit.seqNo, a)
    {
      groups := before;
      for j := 0 to |hit.agents|
        invariant forall a :: a in groups ==> groups[a] != []
        invariant forall a :: Grown(before, groups, hit.agents[..j], hit.seqNo, a)
      {
        var agent := hit.agents[j];
        var arr := At(groups, agent);
        ghost var was := groups;
        groups := groups[agent := arr + [hit.seqNo]];
        ghost var seen := hit.agents[..j + 1];
        assert seen == hit.agents[..j] + [agent];
        forall a
          ensures Grown(before, groups, seen, hit.seqNo, a)
        {
          GrownOnce(before, was, hit.agents[..j], hit.seqNo, agent, a);
        }
      }
      assert hit.agents[..|hit.agents|] == hit.agents;
    }
  }

  /** The agent's group has gained one copy of `k` for each mention in `agents`. */
  ghost predicate Grown(before: map<string, seq<int>>, after: map<string, seq<int>>, agents: seq<string>, k: int,
                        a: string)
  {
    At(after, a) == At(before, a) + Copies(k, multiset(agents)[a])
  }

  lemma GrownOnce(before: map<string, seq<int>>, was: map<string, seq<int>>, agents: seq<string>, k: int,
                  agent: string, a: string)
    requires Grown(before, was, agents, k, a)
    ensures Grown(before, was[agent := At(was, agent) + [k]], agents + [agent], k, a)
  {
    assert multiset(agents + [agent])[a] == multiset(agents)[a] + if a == agent then 1 else 0;
  }

  /** A send that does not wait: into the slot if it is empty, and nowhere otherwise. */
  function Offer(channels: map<nat, Channel>, ch: nat, actions: seq<int>): map<nat, Channel>
    requires ch in channels
  {
    if channels[ch].None? then channels[ch := Some(actions)] else channels
  }

  /** What the agent's subscription gets. */
  function Deliver(subs: map<string, nat>, channels: map<nat, Channel>, agent: string,
                   actions: seq<int>): map<nat, Channel>
    requires forall a :: a in subs ==> subs[a] in channels
  {
    if agent in subs then Offer(channels, subs[agent], actions) else channels
  }

  /** What a channel holds after a batch with `part` for its agent: the part, if there is one and the
      channel was empty, and what it held otherwise. */
  function Served(ch: Channel, part: seq<int>): Channel {
    if part != [] && ch.None? then Some(part) else ch
  }

  predicate Heard(subs: map<string, nat>, ch: nat) {
    exists a :: a in subs && subs[a] == ch
  }

  /** Every subscribed agent has been served its part, and no other channel has changed. */
  ghost predicate AllServed(subs: map<string, nat>, before: map<nat, Channel>, after: map<nat, Channel>,
                            part: string -> seq<int>) {
    && after.Keys == before.Keys
    && (forall a :: a in subs && subs[a] in before ==> after[subs[a]] == Served(before[subs[a]], part(a)))
    && (forall ch :: ch in before && !Heard(subs, ch) ==> after[ch] == before[ch])
  }

  lemma SameParts(subs: map<string, nat>, before: map<nat, Channel>, after: map<nat, Channel>,
                  part: string -> seq<int>, same: string -> seq<int>)
    requires AllServed(subs, before, after, part) && forall a :: part(a) == same(a)
    ensures AllServed(subs, before, after, same)
  {
  }

  lemma ServeOne(subs: map<string, nat>, before: map<nat, Channel>, after: map<nat, Channel>,
                 agent: string, actions: seq<int>, part: string -> seq<int>)
    requires forall a :: a in subs ==> subs[a] in after
    requires forall a, b :: a in subs && b in subs && subs[a] == subs[b] ==> a == b
    requires AllServed(subs, before, after, part) && part(agent) == [] && actions != []
    ensures AllServed(subs, before, Deliver(subs, after, agent, actions), a => if a == agent then actions else part(a))
  {
    var after' := Deliver(subs, after, agent, actions);
    assert after'.Keys == after.Keys;
    forall a | a in subs && subs[a] in before
      ensures after'[subs[a]] == Served(before[subs[a]], if a == agent then actions else part(a))
    {
      assert after[subs[a]] == Served(before[subs[a]], part(a));
    }
    forall ch | ch in before && !Heard(subs, ch)
      ensures after'[ch] == before[ch]
    {
      assert agent in subs ==> subs[agent] != ch;
    }
  }
}
