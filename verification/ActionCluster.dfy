/**
 Several servers over one index.  They share the documents, the agent records and the agents, who may
 turn to another server with every check-in; everything else each server has for itself.
 */
module ActionCluster {
  import opened Index
  import opened Dispatcher
  import opened ActionDelivery
  import opened ActionInvariant

  /** What one server holds in memory. */
  datatype Server = Server(
    feed: Feed, fetchSize: nat, subs: map<string, nat>, channels: map<nat, Channel>,
    sessions: map<nat, Session>, noted: map<string, int>)

  datatype Cluster = Cluster(
    world: World, records: map<string, int>, responses: seq<Response>, servers: map<nat, Server>)

  /** The cluster as one of its servers meets it. */
  function View(c: Cluster, i: nat): State
    requires i in c.servers
  {
    var own := c.servers[i];
    State(c.world, own.feed, own.fetchSize, own.subs, own.channels, own.sessions, own.noted, c.records, c.responses)
  }

  /** A server that joins later does nothing before its first restart. */
  ghost predicate ClusterInit(c: Cluster) {
    c.servers != map[] && forall i :: i in c.servers ==> Init(View(c, i))
  }

  ghost predicate HasNews(c: Cluster, c': Cluster) {
    |c.responses| < |c'.responses| || c.records != c'.records
  }

  ghost function Beside(own: Server, news: bool): Server {
    if news then own.(feed := own.feed.(alone := false)) else own
  }

  ghost predicate OthersStay(c: Cluster, i: nat, c': Cluster) {
    && c'.servers.Keys == c.servers.Keys
    && forall j :: j in c.servers && j != i ==> c'.servers[j] == Beside(c.servers[j], HasNews(c, c'))
  }

  /** Server `i` takes a step of its own, and the others go on where they were. */
  ghost predicate ClusterNext(c: Cluster, i: nat, l: Label, c': Cluster) {
    && i in c.servers && OthersStay(c, i, c')
    && !l.Foreign? && !l.ForeignRecord? && Next(View(c, i), l, View(c', i))
  }

  ghost predicate ClusterInv(c: Cluster) {
    c.servers != map[] && forall i :: i in c.servers ==> Inv(View(c, i))
  }

  /** An answer accounts for everything up to its token, so the others may rely on it. */
  lemma SessionSeen(s: State, l: Label, s': State) returns (seen: Option<Response>)
    requires Inv(s) && SessionNext(s, l, s')
    ensures s'.world == s.world && s'.records == s.records
    ensures seen.None? ==> s'.responses == s.responses
    ensures seen.Some? ==>
              && s'.responses == s.responses + [seen.value]
              && Settled(s.world, s.responses, seen.value.agent, seen.value.token, seen.value.actions)
  {
    seen := None;
    if l.Pending? && l.hits != [] && AllReadable(s.world.docs, l.hits) {
      PendingSound(s, l.c, l.hits);
      seen := Some(Response(s.sessions[l.c].agent, l.hits, Last(l.hits), false));
    } else if l.Receive? {
      ChannelSound(s, l.c);
      var part := s.channels[l.c].value;
      seen := Some(Response(s.sessions[l.c].agent, part, Last(part), false));
    }
  }

  /** So does a record that is written. */
  lemma DeskSeen(s: State, l: Label, s': State)
    requires Inv(s) && DeskNext(s, l, s')
    ensures s'.world == s.world && |s'.responses| == |s.responses|
    ensures s'.responses != s.responses ==>
              && l.Arrive? && l.r < |s.responses| && s'.records == s.records
              && s'.responses == s.responses[l.r := s.responses[l.r].(received := true)]
    ensures s'.records != s.records ==>
              && l.Record? && s'.responses == s.responses && l.agent in s.noted
              && s'.records == s.records[l.agent := s.noted[l.agent]]
              && Settled(s.world, s.responses, l.agent, s.noted[l.agent], [])
  {
  }

  lemma AnswerSeen(c: Cluster, i: nat, l: Label, c': Cluster, j: nat) returns (seen: Option<Label>)
    requires OthersStay(c, i, c') && i in c.servers && j in c.servers && j != i && Inv(View(c, i))
    requires SessionNext(View(c, i), l, View(c', i))
    ensures SeenAs(c, c', j, seen)
  {
    var r := SessionSeen(View(c, i), l, View(c', i));
    seen := if r.Some? then Some(Foreign(r.value)) else None;
    assert r.Some? ==> ForeignNext(View(c, j), seen.value, View(c', j));
  }

  lemma RecordSeen(c: Cluster, i: nat, l: Label, c': Cluster, j: nat) returns (seen: Option<Label>)
    requires OthersStay(c, i, c') && i in c.servers && j in c.servers && j != i && Inv(View(c, i))
    requires DeskNext(View(c, i), l, View(c', i))
    ensures SeenAs(c, c', j, seen)
  {
    DeskSeen(View(c, i), l, View(c', i));
    if c'.records != c.records {
      seen := Some(ForeignRecord(l.agent, c.servers[i].noted[l.agent]));
      assert ForeignNext(View(c, j), seen.value, View(c', j));
    } else if c'.responses != c.responses {
      seen := Some(l);
      assert DeskNext(View(c, j), l, View(c', j));
    } else {
      seen := None;
    }
  }

  ghost predicate SeenAs(c: Cluster, c': Cluster, j: nat, seen: Option<Label>)
    requires j in c.servers && j in c'.servers
  {
    if seen.None? then View(c', j) == View(c, j)
    else Next(View(c, j), seen.value, View(c', j)) && Careful(View(c, j), seen.value)
  }

  lemma WorldSeen(c: Cluster, i: nat, l: Label, c': Cluster, j: nat)
    requires OthersStay(c, i, c') && i in c.servers && j in c.servers && j != i
    requires WorldNext(c.world, l, c'.world) && View(c', i) == View(c, i).(world := c'.world)
    ensures SeenAs(c, c', j, Some(l))
  {
    assert View(c', j) == View(c, j).(world := c'.world);
  }

  lemma FeedSeen(c: Cluster, i: nat, l: Label, c': Cluster, j: nat)
    requires OthersStay(c, i, c') && i in c.servers && j in c.servers && j != i
    requires FeedNext(View(c, i), l, View(c', i))
    ensures SeenAs(c, c', j, None)
  {
  }

  /** What server `i` does is, to every other, nothing or a step that its own model has. */
  lemma Seen(c: Cluster, i: nat, l: Label, c': Cluster, j: nat) returns (seen: Option<Label>)
    requires ClusterNext(c, i, l, c') && j in c.servers && j != i && Inv(View(c, i))
    ensures SeenAs(c, c', j, seen)
  {
    if SessionNext(View(c, i), l, View(c', i)) {
      seen := AnswerSeen(c, i, l, c', j);
    } else if DeskNext(View(c, i), l, View(c', i)) {
      seen := RecordSeen(c, i, l, c', j);
    } else if FeedNext(View(c, i), l, View(c', i)) {
      FeedSeen(c, i, l, c', j);
      seen := None;
    } else {
      WorldSeen(c, i, l, c', j);
      seen := Some(l);
    }
  }

  lemma ClusterKeeps(c: Cluster, i: nat, l: Label, c': Cluster)
    requires ClusterInv(c) && ClusterNext(c, i, l, c') && Careful(View(c, i), l)
    ensures ClusterInv(c')
  {
    InvStep(View(c, i), l, View(c', i));
    forall j | j in c'.servers
      ensures Inv(View(c', j))
    {
      if j != i {
        var seen := Seen(c, i, l, c', j);
        if seen.Some? {
          InvStep(View(c, j), seen.value, View(c', j));
        }
      }
    }
  }

  datatype ClusterRun = Begun(c: Cluster) | On(prev: ClusterRun, i: nat, l: Label, c: Cluster)

  ghost predicate IsClusterRun(run: ClusterRun) {
    match run
    case Begun(c) => ClusterInit(c)
    case On(prev, i, l, c) => IsClusterRun(prev) && ClusterNext(prev.c, i, l, c)
  }

  ghost predicate EachCareful(run: ClusterRun) {
    run.On? ==>
      EachCareful(run.prev) && (run.i in run.prev.c.servers ==> Careful(View(run.prev.c, run.i), run.l))
  }

  lemma {:induction false} ClusterRunInv(run: ClusterRun)
    requires IsClusterRun(run) && EachCareful(run)
    ensures ClusterInv(run.c)
  {
    match run
    case Begun(c) =>
      forall i | i in c.servers
        ensures Inv(View(c, i))
      {
        InitInv(View(c, i));
      }
    case On(prev, i, l, c) =>
      ClusterRunInv(prev);
      ClusterKeeps(prev.c, i, l, c);
  }

  /** What a server of a careful cluster goes through is a careful run of its own model: the other
      servers do no more than foreign steps allow. */
  lemma {:induction false} ServerRuns(run: ClusterRun, j: nat) returns (own: Run)
    requires IsClusterRun(run) && EachCareful(run) && j in run.c.servers
    ensures IsRun(own) && AlwaysCareful(own) && own.s == View(run.c, j)
  {
    match run
    case Begun(c) => own := Start(View(c, j));
    case On(prev, i, l, c) =>
      own := ServerRuns(prev, j);
      if i == j {
        own := Then(own, l, View(c, j));
      } else {
        ClusterRunInv(prev);
        var seen := Seen(prev.c, i, l, c, j);
        if seen.Some? {
          own := Then(own, seen.value, View(c, j));
        }
      }
  }

  /** No action is skipped however many servers an agent turns to, if each of them is careful. */
  lemma NoSkippedActionAnywhere(run: ClusterRun, agent: string, k: int)
    requires IsClusterRun(run) && EachCareful(run)
    ensures !Missed(run.c.world, run.c.responses, agent, k)
  {
    ClusterRunInv(run);
    var j :| j in run.c.servers;
    var own := ServerRuns(run, j);
    NoSkippedAction(own, agent, k);
  }

  // ---------------------------------------------------------------- orderly servers

  ghost predicate EachOrderly(run: ClusterRun) {
    run.On? ==>
      EachOrderly(run.prev) && (run.i in run.prev.c.servers ==> Orderly(View(run.prev.c, run.i), run.l))
  }

  ghost predicate AllBehind(c: Cluster) {
    forall i :: i in c.servers ==> Behind(View(c, i))
  }

  lemma BehindBeside(s: State, s': State)
    requires Behind(s) && s'.sessions == s.sessions && s'.feed == s.feed.(alone := s'.feed.alone)
    ensures Behind(s')
  {
    assert forall d :: d in s.sessions ==> BehindAt(s.feed, s.sessions[d]);
  }

  lemma OthersBehind(c: Cluster, i: nat, c': Cluster)
    requires AllBehind(c) && OthersStay(c, i, c') && i in c.servers && Behind(View(c', i))
    ensures AllBehind(c')
  {
    forall j | j in c'.servers
      ensures Behind(View(c', j))
    {
      if j != i {
        BehindBeside(View(c, j), View(c', j));
      }
    }
  }

  lemma {:induction false} OrderlyClusterIsCareful(run: ClusterRun)
    requires IsClusterRun(run) && EachOrderly(run)
    ensures AllBehind(run.c) && EachCareful(run)
  {
    if run.On? {
      OrderlyClusterIsCareful(run.prev);
      BehindStep(View(run.prev.c, run.i), run.l, View(run.c, run.i));
      OthersBehind(run.prev.c, run.i, run.c);
    }
  }

  /** It is enough that each server stores before it dispatches, starts before it answers, and cuts no
      batch. */
  lemma NoSkippedActionInOrderlyCluster(run: ClusterRun, agent: string, k: int)
    requires IsClusterRun(run) && EachOrderly(run)
    ensures !Missed(run.c.world, run.c.responses, agent, k)
  {
    OrderlyClusterIsCareful(run);
    NoSkippedActionAnywhere(run, agent, k);
  }
}
