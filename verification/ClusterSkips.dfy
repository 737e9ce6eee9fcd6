/** A cluster of two servers that skips an action although each does what is enough for one alone. */
module ClusterSkips {
  import opened Index
  import opened Dispatcher
  import opened ActionDelivery
  import opened ActionInvariant
  import opened ActionSkips
  import opened ActionCluster

  ghost predicate EachObeys(run: ClusterRun, rule: Rule) {
    run.On? ==>
      EachObeys(run.prev, rule) && (run.i in run.prev.c.servers ==> Obeys(View(run.prev.c, run.i), run.l, rule))
  }

  function Own(s: State): Server {
    Server(s.feed, s.fetchSize, s.subs, s.channels, s.sessions, s.noted)
  }

  /** A cluster of two, as server `i` meets it, and the other server. */
  function Two(i: nat, s: State, other: Server): Cluster {
    Cluster(s.world, s.records, s.responses, map[i := Own(s), (if i == 0 then 1 else 0) := other])
  }

  /** The same cluster as the other server meets it. */
  function Facing(s: State, other: Server): State {
    State(s.world, other.feed, other.fetchSize, other.subs, other.channels, other.sessions, other.noted,
          s.records, s.responses)
  }

  lemma Turn(i: nat, s: State, other: Server)
    requires i < 2
    ensures Two(i, s, other) == Two(if i == 0 then 1 else 0, Facing(s, other), Own(s))
  {
  }

  ghost predicate News(s: State, s': State) {
    |s.responses| < |s'.responses| || s.records != s'.records
  }

  lemma TwoViews(i: nat, s: State, other: Server, s': State)
    requires i < 2
    ensures i in Two(i, s, other).servers && View(Two(i, s, other), i) == s
    ensures OthersStay(Two(i, s, other), i, Two(i, s', Beside(other, News(s, s'))))
  {
  }

  ghost predicate IsRunOf(run: ClusterRun, rule: Rule) {
    IsClusterRun(run) && EachObeys(run, rule)
  }

  lemma LiftStep(run: ClusterRun, i: nat, s: State, other: Server, l: Label, s': State, rule: Rule)
    returns (run': ClusterRun)
    requires i < 2 && IsRunOf(run, rule) && run.c == Two(i, s, other)
    requires Next(s, l, s') && Obeys(s, l, rule) && !l.Foreign? && !l.ForeignRecord?
    ensures IsRunOf(run', rule) && run'.c == Two(i, s', Beside(other, News(s, s')))
  {
    var c' := Two(i, s', Beside(other, News(s, s')));
    TwoViews(i, s, other, s');
    TwoViews(i, s', Beside(other, News(s, s')), s');
    assert ClusterNext(run.c, i, l, c');
    run' := On(run, i, l, c');
  }

  /** What a server can do by itself, it can do beside another. */
  lemma {:induction false} Lift(run: ClusterRun, i: nat, other: Server, path: Run, rule: Rule)
    returns (run': ClusterRun, other': Server)
    requires i < 2 && !rule.others && IsPath(path, rule)
    requires IsRunOf(run, rule) && run.c == Two(i, Origin(path), other)
    ensures IsRunOf(run', rule) && run'.c == Two(i, path.s, other')
    ensures other' == other.(feed := other.feed.(alone := other'.feed.alone))
    ensures other'.feed.alone ==> |path.s.responses| <= |Origin(path).responses|
    decreases path
  {
    run', other' := run, other;
    if path.Then? {
      run', other' := Lift(run, i, other, path.prev, rule);
      run' := LiftStep(run', i, path.prev.s, other', path.l, path.s, rule);
      other' := Beside(other', News(path.prev.s, path.s));
    }
  }

  /** A rule without gaps and cuts keeps clusters of any size from skipping. */
  lemma RuleKeepsClusters(run: ClusterRun, rule: Rule, agent: string, k: int)
    requires IsRunOf(run, rule) && rule.others && NoGaps(rule) && NoCuts(rule)
    ensures !Missed(run.c.world, run.c.responses, agent, k)
  {
    ObeyingClusterIsCareful(run, rule);
    NoSkippedActionAnywhere(run, agent, k);
  }

  lemma {:induction false} ObeyingClusterIsCareful(run: ClusterRun, rule: Rule)
    requires IsRunOf(run, rule) && rule.others && NoGaps(rule) && NoCuts(rule)
    ensures EachCareful(run)
  {
    if run.On? {
      ObeyingClusterIsCareful(run.prev, rule);
      ClusterRunInv(run.prev);
      ObeyingStep(View(run.prev.c, run.i), run.l, rule);
    }
  }

  // ---------------------------------------------------------------- two servers

  /** An action that has expired when the clock shows 0. */
  const BRIEF := Action([AGENT], 0, Listed)

  function Idling(w: World, feed: Feed, responses: seq<Response>): State {
    State(w, feed, 1, map[], map[], map[], map[], map[AGENT := -1], responses)
  }

  /** The agent asks the second server, which answers with document `n`; then it expires. */
  lemma SecondAnswers(u: int, n: int, rule: Rule) returns (path: Run)
    requires -1 <= u < n && rule.ok(true, -1, n, n)
    ensures IsPath(path, rule) && Origin(path) == Idling(World(map[], u, -1), Booting(u), [])
    ensures path.s.world == World(map[n := BRIEF], n, 0) && path.s.records == map[AGENT := -1]
    ensures path.s.responses == [Response(AGENT, [n], n, true)]
  {
    path := SecondReads(u, n, rule);
    var s := path.s;
    OnePending(s.world.docs, n);
    assert s.sessions[0] == Session(AGENT, -1, n, Checked(n, -1));
    path := Further(path, Pending(0, [n]), Respond(s, 0, [n]), rule);
    path := ArriveLast(path, rule);
    path := Further(path, Tick(0), path.s.(world := path.s.world.(now := 0)), rule);
  }

  lemma SecondReads(u: int, n: int, rule: Rule) returns (path: Run)
    requires -1 <= u < n && rule.ok(true, -1, n, n)
    ensures IsPath(path, rule) && Origin(path) == Idling(World(map[], u, -1), Booting(u), [])
    ensures path.s.world == World(map[n := BRIEF], n, -1)
    ensures path.s.records == map[AGENT := -1] && path.s.responses == []
    ensures path.s.sessions == map[0 := Session(AGENT, -1, n, Checked(n, -1))]
  {
    path := Start(Idling(World(map[], u, -1), Booting(u), []));
    path := SettleDoc(path, n, BRIEF, rule);
    path := StartUp(path, n, rule);
    path := Connect(path, -1, rule);
    path := ReadCheckpoint(path, Session(AGENT, -1, n, Listening), rule);
  }

  lemma OnePending(docs: Docs, n: int)
    requires docs == map[n := BRIEF] && n >= 0
    ensures IsSearch([n], docs, Window(-1, n, Some(-1), Some(AGENT)), MAX_AGENT_ACTIONS)
  {
    assert forall k :: Selects(Window(-1, n, Some(-1), Some(AGENT)), docs, k) <==> k == n;
  }

  /** The first server, still at `u`, dispatches `b` before it stores; the agent comes back to it with
      token `n`, reads `u`, and receives a later action. */
  lemma FirstPasses(u: int, n: int, b: int, rule: Rule) returns (path: Run)
    requires -1 <= u < n < b && rule.ok(false, n, b, u) && rule.whole([Listed])
    ensures IsPath(path, rule) && Skipped(path.s, AGENT, b)
    ensures Origin(path) == Idling(World(map[n := BRIEF], n, 0), Started(false, u, u),
                                   [Response(AGENT, [n], n, true)])
  {
    path := FirstOvertakes(u, n, b, rule);
    assert path.s.responses[0] == Response(AGENT, [n], n, true);
    path := Connect(path, n, rule);
    path := FindNothing(path, Session(AGENT, n, b, Listening), rule);
    path := StoreSent(path, rule);
    path := PassOver(path, b, b, rule);
  }

  lemma FirstOvertakes(u: int, n: int, b: int, rule: Rule) returns (path: Run)
    requires -1 <= u < n < b && rule.whole([Listed])
    ensures IsPath(path, rule)
    ensures var s := Idling(World(map[n := BRIEF], n, 0), Started(false, u, u), [Response(AGENT, [n], n, true)]);
            && Origin(path) == s
            && path.s == s.(world := World(map[n := BRIEF, b := ORDER], b, 0),
                            feed := Feed(false, u, true, u, b, None, map[], None, u, b))
  {
    path := Start(Idling(World(map[n := BRIEF], n, 0), Started(false, u, u), [Response(AGENT, [n], n, true)]));
    path := Settle(path, b, rule);
    path := Send(path, u, b, rule);
    path := Drop(path, b, rule);
  }

  lemma BothBoot(u: int)
    requires u >= -1
    ensures var s := Idling(World(map[], u, -1), Booting(u), []);
            IsClusterRun(Begun(Two(0, s, Own(s))))
  {
    var s := Idling(World(map[], u, -1), Booting(u), []);
    Turn(0, s, Own(s));
    TwoViews(0, s, Own(s), s);
    TwoViews(1, s, Own(s), s);
    assert Facing(s, Own(s)) == s;
  }

  lemma {:induction false} MoreAllowed(run: ClusterRun, rule: Rule)
    requires EachObeys(run, rule.(others := false))
    ensures EachObeys(run, rule)
  {
    if run.On? {
      MoreAllowed(run.prev, rule);
    }
  }

  /** The first server starts, and the second answers. */
  lemma BothServe(u: int, n: int, rule: Rule) returns (run: ClusterRun, second: Server)
    requires -1 <= u < n && rule.ok(true, -1, n, n) && !rule.others
    ensures IsRunOf(run, rule)
    ensures run.c == Two(0, Idling(World(map[n := BRIEF], n, 0), Started(false, u, u),
                                   [Response(AGENT, [n], n, true)]), second)
  {
    var s := Idling(World(map[], u, -1), Booting(u), []);
    var a := s.(feed := Started(true, u, u));
    BothBoot(u);
    assert Readied(s, u) == a;
    run := LiftStep(Begun(Two(0, s, Own(s))), 0, s, Own(s), Ready(u), a, rule);
    Turn(0, a, Own(s));
    assert Facing(a, Own(s)) == s;
    var path := SecondAnswers(u, n, rule);
    var first;
    run, first := Lift(run, 1, Own(a), path, rule);
    Turn(1, path.s, first);
    second := Own(path.s);
  }

  /** A rule that lets a check-in with a token above the checkpoint read it, because for a server alone
      that leaves no gap, lets a cluster of two servers pass over an action. */
  lemma TwoServersSkip(lower: int, b: int, u: int, rule: Rule) returns (run: ClusterRun)
    requires -1 <= u < lower < b && rule.whole([Listed])
    requires rule.ok(true, -1, lower, lower) && rule.ok(false, lower, b, u)
    ensures IsClusterRun(run) && EachObeys(run, rule) && Missed(run.c.world, run.c.responses, AGENT, b)
  {
    var native := rule.(others := false);
    var second;
    run, second := BothServe(u, lower, native);
    var path := FirstPasses(u, lower, b, native);
    run, second := Lift(run, 0, second, path, native);
    MoreAllowed(run, rule);
  }
}
