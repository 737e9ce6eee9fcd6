/** Runs that skip an action, and with them: the conditions under which none does are exact. */
module ActionSkips {
  import opened Index
  import opened Dispatcher
  import opened ActionDelivery
  import opened ActionInvariant

  /** What a deployment lets happen: whether there are other servers, `ok(alone, lower, base,
      checkpoint)` when a check-in reads the checkpoint, `early(lower, g)` of a check-in that has read
      when the monitor starts at `g`, and which forms the documents of a batch may have. */
  datatype Rule = Rule(
    others: bool, ok: (bool, int, int, int) -> bool, early: (int, int) -> bool, whole: seq<Form> -> bool)

  ghost predicate Obeys(s: State, l: Label, rule: Rule) {
    match l
    case Check(c, _) =>
      c in s.sessions && s.feed.ready ==>
        rule.ok(s.feed.alone, s.sessions[c].lower, s.sessions[c].base, s.feed.checkpoint)
    case Ready(g) =>
      forall c :: c in s.sessions && HasRead(s.sessions[c].phase) ==> rule.early(s.sessions[c].lower, g)
    case Take(_) => s.feed.queue.Some? ==> rule.whole(Pattern(s.world.docs, s.feed.queue.value))
    case Foreign(_) => rule.others
    case ForeignRecord(_, _) => rule.others
    case _ => true
  }

  ghost predicate AlwaysObeys(run: Run, rule: Rule) {
    run.Then? ==> AlwaysObeys(run.prev, rule) && Obeys(run.prev.s, run.l, rule)
  }

  ghost predicate NeverSkips(rule: Rule) {
    forall run: Run, agent: string, k: int :: IsRun(run) && AlwaysObeys(run, rule) ==> !Skipped(run.s, agent, k)
  }

  const AGENT := "agent"
  const OTHER := "other"
  const ORDER := Action([AGENT], 1, Listed)

  /** Steps under a rule, from whatever state. */
  ghost predicate IsPath(run: Run, rule: Rule) {
    run.Then? ==> IsPath(run.prev, rule) && Next(run.prev.s, run.l, run.s) && Obeys(run.prev.s, run.l, rule)
  }

  function Origin(run: Run): State {
    if run.Then? then Origin(run.prev) else run.s
  }

  ghost predicate Goes(run: Run, run': Run, rule: Rule) {
    IsPath(run', rule) && Origin(run') == Origin(run)
  }

  lemma {:induction false} PathIsRun(run: Run, rule: Rule)
    requires IsPath(run, rule) && Init(Origin(run))
    ensures IsRun(run) && AlwaysObeys(run, rule)
  {
    if run.Then? {
      PathIsRun(run.prev, rule);
    }
  }

  lemma Further(run: Run, l: Label, s: State, rule: Rule) returns (run': Run)
    requires IsPath(run, rule) && Next(run.s, l, s) && Obeys(run.s, l, rule)
    ensures Goes(run, run', rule) && run'.s == s
  {
    run' := Then(run, l, s);
  }

  // ---------------------------------------------------------------- one document after the other

  /** Nothing is under way, and everything up to `h` has been handed out. */
  predicate Idle(f: Feed, h: int) {
    && f.ready && f.checkpoint == f.sent == f.hi == h
    && f.queue == None && f.groups == map[] && f.parcel == None
  }

  lemma OneHit(docs: Docs, from: int, k: int, size: nat)
    requires k in docs && docs[k] == ORDER && from < k && size > 0
    requires forall x :: x in docs && x != k ==> x <= from || docs[x].expiration <= 0
    ensures IsSearch([k], docs, Window(from, k, Some(0), None), size)
    ensures Pattern(docs, [k]) == [Listed]
    ensures IsGrouping(map[AGENT := [k]], Readable(HitsOf(docs, [k])))
  {
    var w := Window(from, k, Some(0), None);
    assert forall x :: Selects(w, docs, x) <==> x == k;
    var hits := HitsOf(docs, [k]);
    assert hits == [Hit(k, [AGENT], true)];
    ReadablePrefix(hits, 1);
    assert hits[..1] == hits && hits[..0] == [];
    forall a
      ensures At(map[AGENT := [k]], a) == ActionsFor(hits, a)
    {
      assert multiset([AGENT])[a] == if a == AGENT then 1 else 0;
      assert Copies(k, 1) == Copies(k, 0) + [k];
    }
  }

  /** Document `k` is written and settled. */
  lemma SettleDoc(run: Run, k: int, doc: Action, rule: Rule) returns (run': Run)
    requires IsPath(run, rule) && 0 <= k && run.s.world.gcp < k && k !in run.s.world.docs
    ensures Goes(run, run', rule)
    ensures run'.s == run.s.(world := World(run.s.world.docs[k := doc], k, run.s.world.now))
  {
    var w := run.s.world;
    run' := Further(run, Write(k, doc), run.s.(world := w.(docs := w.docs[k := doc])), rule);
    run' := Further(run', Advance(k), run.s.(world := World(w.docs[k := doc], k, w.now)), rule);
  }

  lemma Settle(run: Run, k: int, rule: Rule) returns (run': Run)
    requires IsPath(run, rule) && 0 <= k && run.s.world.gcp < k && k !in run.s.world.docs
    ensures Goes(run, run', rule)
    ensures run'.s == run.s.(world := World(run.s.world.docs[k := ORDER], k, run.s.world.now))
  {
    run' := SettleDoc(run, k, ORDER, rule);
  }

  /** It is sent and taken by the dispatcher; the checkpoint stays. */
  lemma Send(run: Run, h: int, k: int, rule: Rule) returns (run': Run)
    requires IsPath(run, rule) && rule.whole([Listed]) && Idle(run.s.feed, h) && run.s.fetchSize > 0
    requires run.s.world.now == 0 && run.s.world.gcp == k > h && k in run.s.world.docs && run.s.world.docs[k] == ORDER
    requires forall x :: x in run.s.world.docs && x != k ==> x <= h || run.s.world.docs[x].expiration <= 0
    ensures Goes(run, run', rule)
    ensures run'.s == run.s.(feed := run.s.feed.(sent := k, groups := map[AGENT := [k]], lo := h, hi := k))
  {
    var s := run.s;
    OneHit(s.world.docs, h, k, s.fetchSize);
    var f := s.feed.(queue := Some([k]), sent := k);
    run' := Further(run, Publish([k], k, 0), s.(feed := f), rule);
    run' := Further(run', Take(map[AGENT := [k]]), s.(feed := TakeBatch(f, map[AGENT := [k]])), rule);
  }

  /** Nobody is there to receive it. */
  lemma Drop(run: Run, k: int, rule: Rule) returns (run': Run)
    requires IsPath(run, rule) && run.s.feed.groups == map[AGENT := [k]] && run.s.feed.parcel == None
    requires AGENT !in run.s.subs
    ensures Goes(run, run', rule) && run'.s == run.s.(feed := run.s.feed.(groups := map[]))
  {
    assert map[AGENT := [k]] - {AGENT} == map[];
    run' := Further(run, Look(AGENT), run.s.(feed := Looked(run.s.feed, run.s.subs, AGENT)), rule);
  }

  /** A listener receives it. */
  lemma Deliver1(run: Run, k: int, rule: Rule) returns (run': Run)
    requires IsPath(run, rule) && run.s.feed.groups == map[AGENT := [k]] && run.s.feed.parcel == None
    requires ListensOn(run.s.subs, AGENT, 0) && 0 in run.s.channels && run.s.channels[0] == None
    ensures Goes(run, run', rule)
    ensures run'.s == run.s.(feed := run.s.feed.(groups := map[]), channels := run.s.channels[0 := Some([k])])
  {
    assert map[AGENT := [k]] - {AGENT} == map[];
    run' := Further(run, Look(AGENT), run.s.(feed := Looked(run.s.feed, run.s.subs, AGENT)), rule);
    run' := Further(run', Hand, Handed(run'.s), rule);
  }

  lemma StoreSent(run: Run, rule: Rule) returns (run': Run)
    requires IsPath(run, rule)
    ensures Goes(run, run', rule)
    ensures run'.s == run.s.(feed := run.s.feed.(checkpoint := run.s.feed.sent))
  {
    run' := Further(run, Store, run.s.(feed := run.s.feed.(checkpoint := run.s.feed.sent)), rule);
  }

  // ---------------------------------------------------------------- one check-in

  lemma Open(run: Run, lower: int, rule: Rule) returns (run': Run)
    requires IsPath(run, rule) && MayStartFrom(run.s, AGENT, lower) && run.s.sessions == map[] && 0 !in run.s.channels
    ensures Goes(run, run', rule)
    ensures run'.s == run.s.(sessions := map[0 := Session(AGENT, lower, 0, Resolved)])
  {
    var sn := Session(AGENT, lower, 0, Resolved);
    run' := Further(run, Begin(0, AGENT, lower), run.s.(sessions := map[0 := sn]), rule);
  }

  /** A check-in starts and subscribes. */
  lemma Connect(run: Run, lower: int, rule: Rule) returns (run': Run)
    requires IsPath(run, rule) && MayStartFrom(run.s, AGENT, lower) && AGENT !in run.s.feed.groups
    requires run.s.sessions == map[] && 0 !in run.s.channels
    ensures Goes(run, run', rule)
    ensures run'.s == run.s.(
              subs := run.s.subs[AGENT := 0], channels := run.s.channels[0 := None],
              sessions := map[0 := Session(AGENT, lower, run.s.feed.hi, Listening)])
  {
    run' := Open(run, lower, rule);
    run' := Join(run', Session(AGENT, lower, 0, Resolved), rule);
  }

  lemma Join(run: Run, sn: Session, rule: Rule) returns (run': Run)
    requires IsPath(run, rule) && run.s.sessions == map[0 := sn] && sn.phase == Resolved
    requires sn.agent == AGENT && AGENT !in run.s.feed.groups
    ensures Goes(run, run', rule)
    ensures run'.s == run.s.(
              subs := run.s.subs[AGENT := 0], channels := run.s.channels[0 := None],
              sessions := map[0 := sn.(phase := Listening, base := run.s.feed.hi)])
  {
    var s := Subscribed(run.s, 0);
    assert s.sessions == map[0 := sn.(phase := Listening, base := run.s.feed.hi)];
    run' := Further(run, Subscribe(0), s, rule);
  }

  lemma ReadCheckpoint(run: Run, sn: Session, rule: Rule) returns (run': Run)
    requires IsPath(run, rule) && run.s.sessions == map[0 := sn] && sn.phase == Listening
    requires run.s.feed.ready ==> rule.ok(run.s.feed.alone, sn.lower, sn.base, run.s.feed.checkpoint)
    ensures Goes(run, run', rule)
    ensures run'.s == run.s.(sessions := map[0 := sn.(phase := Checked(run.s.feed.checkpoint, run.s.world.now))])
  {
    var p := Checked(run.s.feed.checkpoint, run.s.world.now);
    assert WithPhase(run.s, 0, p).sessions == map[0 := sn.(phase := p)];
    run' := Further(run, Check(0, run.s.world.now), WithPhase(run.s, 0, p), rule);
  }

  lemma QueryNothing(run: Run, sn: Session, u: int, rule: Rule) returns (run': Run)
    requires IsPath(run, rule) && run.s.sessions == map[0 := sn] && sn.phase == Checked(u, 0)
    requires forall k :: k in run.s.world.docs ==> k > u
    ensures Goes(run, run', rule)
    ensures run'.s == run.s.(sessions := map[0 := sn.(phase := Polling(u))])
  {
    var s' := Queried(run.s, 0, []);
    assert s'.sessions == map[0 := sn.(phase := Polling(u))];
    assert IsSearch([], run.s.world.docs, PendingWindow(sn), MAX_AGENT_ACTIONS);
    run' := Further(run, Pending(0, []), s', rule);
  }

  /** It finds nothing at or below the checkpoint it reads, and listens. */
  lemma FindNothing(run: Run, sn: Session, rule: Rule) returns (run': Run)
    requires IsPath(run, rule) && run.s.world.now == 0
    requires run.s.sessions == map[0 := sn] && sn.phase == Listening
    requires run.s.feed.ready ==> rule.ok(run.s.feed.alone, sn.lower, sn.base, run.s.feed.checkpoint)
    requires forall k :: k in run.s.world.docs ==> k > run.s.feed.checkpoint
    ensures Goes(run, run', rule)
    ensures run'.s == run.s.(sessions := map[0 := sn.(phase := Polling(run.s.feed.checkpoint))])
  {
    run' := ReadCheckpoint(run, sn, rule);
    run' := QueryNothing(run', run'.s.sessions[0], run.s.feed.checkpoint, rule);
  }

  /** It answers with what it received, and the answer arrives. */
  lemma Answer(run: Run, k: int, rule: Rule) returns (run': Run)
    requires IsPath(run, rule)
    requires 0 in run.s.sessions && run.s.sessions[0].phase.Polling? && run.s.sessions[0].agent == AGENT
    requires 0 in run.s.channels && run.s.channels[0] == Some([k])
    ensures Goes(run, run', rule)
    ensures run'.s.world == run.s.world && run'.s.responses == run.s.responses + [Response(AGENT, [k], k, true)]
  {
    var s := Respond(run.s, 0, [k]).(channels := run.s.channels[0 := None]);
    run' := Further(run, Receive(0), s, rule);
    run' := ArriveLast(run', rule);
  }

  lemma ArriveLast(run: Run, rule: Rule) returns (run': Run)
    requires IsPath(run, rule) && run.s.responses != []
    ensures Goes(run, run', rule)
    ensures var n := |run.s.responses| - 1;
            run'.s == run.s.(responses := run.s.responses[..n] + [run.s.responses[n].(received := true)])
  {
    var n := |run.s.responses| - 1;
    var rs := run.s.responses[n := run.s.responses[n].(received := true)];
    assert rs == run.s.responses[..n] + [run.s.responses[n].(received := true)];
    run' := Further(run, Arrive(n), run.s.(responses := rs), rule);
  }

  /** A later document reaches the listener. */
  lemma Reach(run: Run, h: int, rule: Rule) returns (run': Run)
    requires IsPath(run, rule) && rule.whole([Listed]) && Idle(run.s.feed, h) && run.s.fetchSize > 0
    requires run.s.world.now == 0 && run.s.world.gcp == h >= 0 && forall x :: x in run.s.world.docs ==> x <= h
    requires ListensOn(run.s.subs, AGENT, 0) && 0 in run.s.channels && run.s.channels[0] == None
    ensures Goes(run, run', rule)
    ensures run'.s.world == World(run.s.world.docs[h + 1 := ORDER], h + 1, 0)
    ensures run'.s.sessions == run.s.sessions && run'.s.responses == run.s.responses
    ensures 0 in run'.s.channels && run'.s.channels[0] == Some([h + 1])
  {
    run' := Settle(run, h + 1, rule);
    run' := Send(run', h, h + 1, rule);
    run' := Deliver1(run', h + 1, rule);
  }

  /** Its token passes over document `k`. */
  lemma PassOver(run: Run, h: int, k: int, rule: Rule) returns (run': Run)
    requires IsPath(run, rule) && rule.whole([Listed]) && Idle(run.s.feed, h) && run.s.fetchSize > 0
    requires run.s.world.now == 0 && run.s.world.gcp == h >= 0 && forall x :: x in run.s.world.docs ==> x <= h
    requires Meant(run.s.world.docs, AGENT, k) && run.s.world.docs[k].expiration == 1
    requires ListensOn(run.s.subs, AGENT, 0) && 0 in run.s.channels && run.s.channels[0] == None
    requires 0 in run.s.sessions && run.s.sessions[0].phase.Polling? && run.s.sessions[0].agent == AGENT
    requires k <= h && !Got(run.s.responses, AGENT, k)
    ensures Goes(run, run', rule) && Skipped(run'.s, AGENT, k)
  {
    run' := Reach(run, h, rule);
    run' := Answer(run', h + 1, rule);
    TokenPasses(run'.s, run.s.responses, k, h + 1);
  }

  lemma TokenPasses(s: State, before: seq<Response>, k: int, n: int)
    requires Meant(s.world.docs, AGENT, k) && s.world.docs[k].expiration > s.world.now && k < n
    requires s.responses == before + [Response(AGENT, [n], n, true)] && !Got(before, AGENT, k)
    ensures Skipped(s, AGENT, k)
  {
    assert s.responses[|before|] == Response(AGENT, [n], n, true);
    assert forall r :: 0 <= r < |before| ==> s.responses[r] == before[r];
  }

  /** A server that starts where an earlier one recorded `lower` for the agent. */
  function Fresh(docs: Docs, gcp: int, lower: int, size: nat): State {
    State(World(docs, gcp, 0), Booting(gcp), size, map[], map[], map[], map[], map[AGENT := lower], [])
  }

  lemma FreshInit(docs: Docs, gcp: int, lower: int, size: nat)
    requires forall k :: k in docs ==> k >= 0 && k > lower
    requires -1 <= lower <= gcp && size > 0
    ensures Init(Fresh(docs, gcp, lower, size))
  {
  }

  /** The monitor starts, with no check-in there. */
  lemma StartUp(run: Run, g: int, rule: Rule) returns (run': Run)
    requires IsPath(run, rule) && run.s.sessions == map[]
    requires !run.s.feed.ready && run.s.feed.boot <= g <= run.s.world.gcp
    ensures Goes(run, run', rule) && run'.s == run.s.(feed := Started(run.s.feed.alone, run.s.feed.boot, g))
  {
    assert Readied(run.s, g).sessions == map[];
    run' := Further(run, Ready(g), Readied(run.s, g), rule);
  }

  /** It starts with one. */
  lemma StartLate(run: Run, sn: Session, g: int, rule: Rule) returns (run': Run)
    requires IsPath(run, rule) && run.s.sessions == map[0 := sn] && rule.early(sn.lower, g)
    requires !run.s.feed.ready && run.s.feed.boot <= g <= run.s.world.gcp
    ensures Goes(run, run', rule)
    ensures run'.s == run.s.(feed := Started(run.s.feed.alone, run.s.feed.boot, g),
                             sessions := map[0 := sn.(base := g)])
  {
    assert Readied(run.s, g).sessions == map[0 := sn.(base := g)];
    run' := Further(run, Ready(g), Readied(run.s, g), rule);
  }

  // ---------------------------------------------------------------- the three ways to skip

  /** The dispatcher has passed `b`, and the checkpoint stored is still `u`. */
  lemma Overtake(from: int, b: int, u: int, rule: Rule) returns (run: Run)
    requires rule.whole([Listed]) && -1 <= from <= u < b
    ensures IsPath(run, rule) && Init(Origin(run))
    ensures run.s == Fresh(map[], u, from, 1).(world := World(map[b := ORDER], b, 0),
                                               feed := Feed(true, u, true, u, b, None, map[], None, u, b))
  {
    FreshInit(map[], u, from, 1);
    run := StartUp(Start(Fresh(map[], u, from, 1)), u, rule);
    run := Settle(run, b, rule);
    run := Send(run, u, b, rule);
    run := Drop(run, b, rule);
  }

  /** Another server records `n` for the agent, who has no document up to there. */
  lemma RecordElsewhere(run: Run, n: int, rule: Rule) returns (run': Run)
    requires IsPath(run, rule) && rule.others
    requires -1 <= n <= run.s.world.gcp && forall k :: k in run.s.world.docs ==> k > n
    ensures Goes(run, run', rule)
    ensures run'.s == run.s.(records := run.s.records[AGENT := n], feed := run.s.feed.(alone := false))
  {
    var s := run.s.(records := run.s.records[AGENT := n], feed := run.s.feed.(alone := false));
    run' := Further(run, ForeignRecord(AGENT, n), s, rule);
  }

  /** A check-in subscribes after that, starts from `lower`, which another server may have recorded
      meanwhile, and reads `u`. */
  lemma OvertakenSkips(alone: bool, lower: int, b: int, u: int, rule: Rule) returns (run: Run)
    requires rule.whole([Listed]) && rule.ok(alone, lower, b, u)
    requires LeavesGap(alone, lower, b, u) && lower >= -1 && u >= -1 && (alone || rule.others)
    ensures IsRun(run) && AlwaysObeys(run, rule) && Skipped(run.s, AGENT, b)
  {
    if alone {
      run := Overtake(lower, b, u, rule);
    } else {
      run := Overtake(-1, b, u, rule);
      run := RecordElsewhere(run, lower, rule);
    }
    run := Late(run, alone, lower, b, u, rule);
    PathIsRun(run, rule);
  }

  lemma Late(run: Run, alone: bool, lower: int, b: int, u: int, rule: Rule) returns (run': Run)
    requires rule.whole([Listed]) && rule.ok(alone, lower, b, u) && -1 <= u < b && IsPath(run, rule)
    requires run.s == Fresh(map[], u, lower, 1).(world := World(map[b := ORDER], b, 0),
                                                 feed := Feed(alone, u, true, u, b, None, map[], None, u, b))
    ensures Goes(run, run', rule) && Skipped(run'.s, AGENT, b)
  {
    run' := Connect(run, lower, rule);
    run' := FindNothing(run', Session(AGENT, lower, b, Listening), rule);
    run' := StoreSent(run', rule);
    run' := PassOver(run', b, b, rule);
  }

  /** A check-in reads before the monitor has started at `g`. */
  lemma EarlySkips(lower: int, g: int, rule: Rule) returns (run: Run)
    requires rule.whole([Listed]) && rule.early(lower, g) && TooEarly(lower, g) && lower >= -1
    ensures IsRun(run) && AlwaysObeys(run, rule) && Skipped(run.s, AGENT, g)
  {
    FreshInit(map[g := ORDER], g, lower, 1);
    run := Start(Fresh(map[g := ORDER], g, lower, 1));
    run := Connect(run, lower, rule);
    run := FindNothing(run, Session(AGENT, lower, -1, Listening), rule);
    run := StartLate(run, Session(AGENT, lower, -1, Polling(-1)), g, rule);
    run := PassOver(run, g, g, rule);
    PathIsRun(run, rule);
  }

  // ---------------------------------------------------------------- a batch that is cut

  /** Document `j` is the agent's, the others are somebody else's, and `p` says what form each has. */
  function Mixed(p: seq<Form>, j: nat): Docs {
    map k: int | 0 <= k < |p| :: Action(if k == j then [AGENT] else [OTHER], 1, p[k])
  }

  function UpTo(n: nat): seq<int> {
    seq(n, i => i)
  }

  lemma MixedSearch(p: seq<Form>, j: nat)
    requires p != []
    ensures IsSearch(UpTo(|p|), Mixed(p, j), Window(-1, |p| - 1, Some(0), None), |p|)
    ensures Pattern(Mixed(p, j), UpTo(|p|)) == p
  {
    var w := Window(-1, |p| - 1, Some(0), None);
    forall k | Selects(w, Mixed(p, j), k)
      ensures k in UpTo(|p|)
    {
      assert UpTo(|p|)[k] == k;
    }
  }

  /** The agent has no part in a batch that is cut at or in front of its document. */
  lemma CutAway(p: seq<Form>, i: nat, j: nat)
    requires i <= j < |p| && p[i] != Listed
    ensures ActionsFor(Readable(HitsOf(Mixed(p, j), UpTo(|p|))), AGENT) == []
  {
    var hits := HitsOf(Mixed(p, j), UpTo(|p|));
    var n := FirstUnreadable(hits);
    ReadablePrefix(hits, n);
    assert !hits[i].readable;
    assert forall x :: 0 <= x < n ==> hits[x].agents == [OTHER];
    var part := ActionsFor(hits[..n], AGENT);
    if part != [] {
      ActionsForMembers(hits[..n], AGENT, part[0]);
    }
  }

  function AgentsOf(hit: Hit): set<string> {
    set a | a in hit.agents
  }

  /** Every batch has a regrouping. */
  lemma {:induction false} SomeGrouping(hits: seq<Hit>) returns (groups: map<string, seq<int>>)
    ensures IsGrouping(groups, hits)
  {
    groups := map[];
    if hits != [] {
      var n := |hits| - 1;
      var before := SomeGrouping(hits[..n]);
      groups := map a | a in before.Keys + AgentsOf(hits[n]) :: ActionsFor(hits, a);
      forall a
        ensures a in groups <==> ActionsFor(hits, a) != []
      {
        GroupGrows(hits, before, a);
      }
    }
  }

  lemma GroupGrows(hits: seq<Hit>, before: map<string, seq<int>>, a: string)
    requires hits != [] && IsGrouping(before, hits[..|hits| - 1])
    ensures a in before.Keys + AgentsOf(hits[|hits| - 1]) <==> ActionsFor(hits, a) != []
  {
    var n := |hits| - 1;
    assert At(before, a) == ActionsFor(hits[..n], a);
    assert |Copies(hits[n].seqNo, multiset(hits[n].agents)[a])| == multiset(hits[n].agents)[a];
  }

  /** Parts of agents that do not listen are dropped one by one. */
  lemma {:induction false} DropAll(run: Run, rule: Rule) returns (run': Run)
    requires IsPath(run, rule) && run.s.feed.parcel == None
    requires forall a :: a in run.s.feed.groups ==> a !in run.s.subs
    ensures Goes(run, run', rule) && run'.s == run.s.(feed := run.s.feed.(groups := map[]))
    decreases |run.s.feed.groups|
  {
    run' := run;
    if run.s.feed.groups != map[] {
      var a :| a in run.s.feed.groups;
      run' := Further(run, Look(a), run.s.(feed := Looked(run.s.feed, run.s.subs, a)), rule);
      assert run'.s.feed.groups.Keys == run.s.feed.groups.Keys - {a};
      assert |run'.s.feed.groups| == |run'.s.feed.groups.Keys| && |run.s.feed.groups| == |run.s.feed.groups.Keys|;
      run' := DropAll(run', rule);
    }
  }

  /** A check-in listens, and all of `p` is settled. */
  lemma Poll(p: seq<Form>, j: nat, rule: Rule) returns (run: Run)
    requires p != [] && rule.ok(true, -1, -1, -1)
    ensures IsPath(run, rule) && Init(Origin(run))
    ensures run.s == Fresh(Mixed(p, j), -1, -1, |p|).(
              world := World(Mixed(p, j), |p| - 1, 0), feed := Started(true, -1, -1),
              subs := map[AGENT := 0], channels := map[0 := None],
              sessions := map[0 := Session(AGENT, -1, -1, Polling(-1))])
  {
    FreshInit(Mixed(p, j), -1, -1, |p|);
    run := StartUp(Start(Fresh(Mixed(p, j), -1, -1, |p|)), -1, rule);
    run := Connect(run, -1, rule);
    run := FindNothing(run, Session(AGENT, -1, -1, Listening), rule);
    run := Further(run, Advance(|p| - 1), run.s.(world := run.s.world.(gcp := |p| - 1)), rule);
  }

  /** A batch is sent, taken, dropped for want of listeners, and stored. */
  lemma SendAway(run: Run, batch: seq<int>, groups: map<string, seq<int>>, rule: Rule) returns (run': Run)
    requires IsPath(run, rule) && Idle(run.s.feed, -1) && batch != []
    requires CanPublish(run.s.world, run.s.feed, run.s.fetchSize, batch, run.s.world.gcp, 0)
    requires IsGrouping(groups, Readable(HitsOf(run.s.world.docs, batch)))
             && rule.whole(Pattern(run.s.world.docs, batch))
    requires forall a :: a in groups ==> a !in run.s.subs
    ensures Goes(run, run', rule)
    ensures run'.s == run.s.(feed := run'.s.feed) && Idle(run'.s.feed, Last(batch))
  {
    var s := run.s;
    var f := s.feed.(queue := Some(batch), sent := Last(batch));
    run' := Further(run, Publish(batch, s.world.gcp, 0), s.(feed := f), rule);
    run' := Further(run', Take(groups), s.(feed := TakeBatch(f, groups)), rule);
    run' := DropAll(run', rule);
    run' := StoreSent(run', rule);
  }

  lemma CutGroups(p: seq<Form>, i: nat, j: nat) returns (groups: map<string, seq<int>>)
    requires i <= j < |p| && p[i] != Listed
    ensures IsGrouping(groups, Readable(HitsOf(Mixed(p, j), UpTo(|p|)))) && AGENT !in groups
  {
    CutAway(p, i, j);
    groups := SomeGrouping(Readable(HitsOf(Mixed(p, j), UpTo(|p|))));
    assert At(groups, AGENT) == [];
  }

  lemma SendCut(run: Run, docs: Docs, p: seq<Form>, i: nat, j: nat, rule: Rule) returns (run': Run)
    requires IsPath(run, rule) && i <= j < |p| && p[i] != Listed && rule.whole(p) && run.s.fetchSize == |p|
    requires run.s.world == World(docs, |p| - 1, 0) && docs == Mixed(p, j) && run.s.feed == Started(true, -1, -1)
    requires forall a :: a in run.s.subs ==> a == AGENT
    ensures Goes(run, run', rule)
    ensures run'.s == run.s.(feed := run'.s.feed) && Idle(run'.s.feed, |p| - 1)
  {
    MixedSearch(p, j);
    var groups := CutGroups(p, i, j);
    run' := SendAway(run, UpTo(|p|), groups, rule);
  }

  /** A document that a pending query would deliver is passed over when it, or one in front of it, does
      not list its agents. */
  lemma CutSkips(p: seq<Form>, i: nat, j: nat, rule: Rule) returns (run: Run)
    requires rule.ok(true, -1, -1, -1) && rule.whole([Listed]) && rule.whole(p)
    requires i <= j < |p| && p[i] != Listed && p[j] != Broken
    ensures IsRun(run) && AlwaysObeys(run, rule) && Skipped(run.s, AGENT, j)
  {
    run := Poll(p, j, rule);
    run := SendCut(run, Mixed(p, j), p, i, j, rule);
    run := PassOver(run, |p| - 1, j, rule);
    PathIsRun(run, rule);
  }

  // ---------------------------------------------------------------- the conditions are exact

  ghost predicate NoGaps(rule: Rule) {
    && (forall alone: bool, lower: int, b: int, u: int ::
          lower >= -1 && u >= -1 && (alone || rule.others) && rule.ok(alone, lower, b, u) ==>
            !LeavesGap(alone, lower, b, u))
    && (forall lower: int, g: int :: lower >= -1 && rule.early(lower, g) ==> !TooEarly(lower, g))
  }

  ghost predicate NoCuts(rule: Rule) {
    forall p: seq<Form> :: rule.whole(p) ==> Whole(p)
  }

  lemma {:induction false} ObeyingIsCareful(run: Run, rule: Rule)
    requires IsRun(run) && AlwaysObeys(run, rule) && NoGaps(rule) && NoCuts(rule)
    ensures AlwaysCareful(run)
  {
    if run.Then? {
      ObeyingIsCareful(run.prev, rule);
      RunInv(run.prev);
      if !rule.others {
        StaysAlone(run.prev, rule);
      }
      ObeyingStep(run.prev.s, run.l, rule);
    }
  }

  lemma ObeyingStep(s: State, l: Label, rule: Rule)
    requires Inv(s) && Obeys(s, l, rule) && NoGaps(rule) && NoCuts(rule) && (rule.others || s.feed.alone)
    ensures Careful(s, l)
  {
    LowerBounded(s);
  }

  lemma {:induction false} StaysAlone(run: Run, rule: Rule)
    requires IsRun(run) && AlwaysObeys(run, rule) && !rule.others
    ensures run.s.feed.alone
  {
    if run.Then? {
      StaysAlone(run.prev, rule);
      AloneStep(run.prev.s, run.l, run.s);
    }
  }

  lemma AloneStep(s: State, l: Label, s': State)
    requires Next(s, l, s') && s.feed.alone && !l.Foreign? && !l.ForeignRecord?
    ensures s'.feed.alone
  {
    if FeedNext(s, l, s') {
      assert s'.feed.alone;
    } else if SessionNext(s, l, s') || DeskNext(s, l, s') {
      assert s'.feed == s.feed;
    }
  }

  lemma LowerBounded(s: State)
    requires Inv(s)
    ensures forall c :: c in s.sessions ==> s.sessions[c].lower >= -1
  {
    assert forall c :: c in s.sessions ==> SessionInv(s, c, s.sessions[c]);
  }

  lemma SoundRule(rule: Rule)
    requires NoGaps(rule) && NoCuts(rule)
    ensures NeverSkips(rule)
  {
    forall run: Run, agent: string, k: int | IsRun(run) && AlwaysObeys(run, rule)
      ensures !Skipped(run.s, agent, k)
    {
      ObeyingIsCareful(run, rule);
      NoSkippedAction(run, agent, k);
    }
  }

  lemma GapsSkip(rule: Rule)
    requires rule.whole([Listed]) && !NoGaps(rule)
    ensures !NeverSkips(rule)
  {
    if alone: bool, lower: int, b: int, u: int :|
      && lower >= -1 && u >= -1 && (alone || rule.others)
      && rule.ok(alone, lower, b, u) && LeavesGap(alone, lower, b, u) {
      var run := OvertakenSkips(alone, lower, b, u, rule);
    } else {
      var lower: int, g: int :| lower >= -1 && rule.early(lower, g) && TooEarly(lower, g);
      var run := EarlySkips(lower, g, rule);
    }
  }

  lemma CutsSkip(rule: Rule)
    requires rule.whole([Listed]) && rule.ok(true, -1, -1, -1) && !NoCuts(rule)
    ensures !NeverSkips(rule)
  {
    var p: seq<Form> :| rule.whole(p) && !Whole(p);
    var i, j :| 0 <= i <= j < |p| && p[j] != Broken && p[i] != Listed;
    var run := CutSkips(p, i, j, rule);
  }

  /** With whole batches, a rule on when check-ins read rules out skipped actions if and only if it
      never lets one leave a gap in front of the point the dispatcher serves it from, and never lets
      the monitor start above the lower bound of one that has read. */
  lemma ReadingRuleExact(rule: Rule)
    requires rule.whole([Listed]) && NoCuts(rule)
    ensures NeverSkips(rule) <==> NoGaps(rule)
  {
    if NoGaps(rule) {
      SoundRule(rule);
    } else {
      GapsSkip(rule);
    }
  }

  /** A rule that lets a single action through, and a check-in read before there is anything, rules
      out skipped actions if and only if it lets no check-in leave a gap and no batch be cut. */
  lemma RuleExact(rule: Rule)
    requires rule.whole([Listed]) && rule.ok(true, -1, -1, -1)
    ensures NeverSkips(rule) <==> NoGaps(rule) && NoCuts(rule)
  {
    if !NoGaps(rule) {
      GapsSkip(rule);
    } else if !NoCuts(rule) {
      CutsSkip(rule);
    } else {
      SoundRule(rule);
    }
  }
}
