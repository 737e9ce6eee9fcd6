/** Every step of delivery keeps the invariant, and so no careful run skips an action. */
module ActionInvariant {
  import opened Index
  import opened Dispatcher
  import opened ActionDelivery

  // ---------------------------------------------------------------- index and clock

  lemma WorldCarries(s: State, s': State)
    requires FeedInv(s.world, s.feed) && Grows(s.world, s'.world) && s' == s.(world := s'.world)
    ensures Carries(s, s')
  {
    forall agent, n, ks | Sound(s, agent, n, ks)
      ensures Sound(s', agent, n, ks)
    {
      SettledGrows(s.world, s'.world, s.responses, agent, n, ks);
      KnownGrows(s.world, s'.world, s.feed, agent, n);
    }
  }

  lemma WorldKeepsFeed(w: World, w': World, f: Feed)
    requires FeedInv(w, f) && Grows(w, w')
    ensures FeedInv(w', f)
  {
    forall a, part | GroupInv(w, f, a, part)
      ensures GroupInv(w', f, a, part)
    {
      CoversGrows(w, w', a, f.lo, Last(part), part);
      CoversGrows(w, w', a, Last(part), f.hi, []);
    }
  }

  lemma WorldKeepsPhase(w: World, w': World, f: Feed, sn: Session)
    requires FeedInv(w, f) && Grows(w, w') && PhaseInv(w, f, sn)
    ensures PhaseInv(w', f, sn)
  {
    if HasRead(sn.phase) {
      CoversGrows(w, w', sn.agent, Max(sn.lower, sn.phase.upper), sn.base, []);
      if sn.phase.Polling? {
        CoversGrows(w, w', sn.agent, sn.lower, sn.phase.upper, []);
      }
    }
  }

  lemma WorldKeepsChannel(w: World, w': World, f: Feed, listening: bool, awaits: bool, ch: Channel, sn: Session)
    requires FeedInv(w, f) && Grows(w, w') && ChannelInv(w, f, listening, awaits, ch, sn)
    ensures ChannelInv(w', f, listening, awaits, ch, sn)
  {
    if ch.Some? {
      CoversGrows(w, w', sn.agent, sn.base, Last(ch.value), ch.value);
      KnownGrows(w, w', f, sn.agent, Last(ch.value));
    } else if awaits {
      CoversGrows(w, w', sn.agent, sn.base, f.lo, []);
    } else if listening {
      CoversGrows(w, w', sn.agent, sn.base, Position(f, sn.agent), []);
    }
  }

  lemma WorldKeeps(s: State, l: Label, s': State)
    requires Inv(s) && WorldNext(s.world, l, s'.world) && s' == s.(world := s'.world)
    ensures Inv(s')
  {
    assert Grows(s.world, s'.world);
    WorldCarries(s, s');
    WorldKeepsFeed(s.world, s'.world, s.feed);
    forall c | c in s.sessions
      ensures SessionInv(s', c, s.sessions[c])
    {
      var sn := s.sessions[c];
      assert SessionInv(s, c, sn);
      WorldKeepsPhase(s.world, s'.world, s.feed, sn);
      if Attends(sn.phase) {
        WorldKeepsChannel(s.world, s'.world, s.feed, ListensOn(s.subs, sn.agent, c), Awaits(s.feed, c), s.channels[c],
          sn);
      }
    }
  }

  // ---------------------------------------------------------------- monitor and dispatcher

  /** The monitor's side moves on, the dispatcher's side stays. */
  ghost predicate MovesOn(f: Feed, f': Feed) {
    && f.alone == f'.alone && f.ready == f'.ready && f.boot == f'.boot
    && f.checkpoint <= f'.checkpoint && f.sent <= f'.sent
    && f'.groups == f.groups && f'.parcel == f.parcel && f'.lo == f.lo && f'.hi == f.hi
  }

  lemma SessionsMoveOn(s: State, f': Feed)
    requires Inv(s) && MovesOn(s.feed, f') && Carries(s, s.(feed := f'))
    requires forall agent, n :: Known(s.world, s.feed, agent, n) ==> Known(s.world, f', agent, n)
    ensures forall c :: c in s.sessions ==> SessionInv(s.(feed := f'), c, s.sessions[c])
  {
    forall c | c in s.sessions
      ensures SessionInv(s.(feed := f'), c, s.sessions[c])
    {
      assert SessionInv(s, c, s.sessions[c]);
    }
  }

  lemma GroupsStay(w: World, f: Feed, f': Feed)
    requires f'.groups == f.groups && f'.lo == f.lo && f'.hi == f.hi
    requires forall a :: a in f.groups ==> GroupInv(w, f, a, f.groups[a])
    ensures forall a :: a in f'.groups ==> GroupInv(w, f', a, f'.groups[a])
  {
    forall a | a in f'.groups
      ensures GroupInv(w, f', a, f'.groups[a])
    {
      assert GroupInv(w, f, a, f.groups[a]);
    }
  }

  lemma PublishKeeps(s: State, batch: seq<int>, upTo: int, asOf: int)
    requires Inv(s) && CanPublish(s.world, s.feed, s.fetchSize, batch, upTo, asOf)
    ensures Inv(s.(feed := s.feed.(queue := Some(batch), sent := Last(batch))))
  {
    var w, f := s.world, s.feed;
    var q := Window(f.checkpoint, upTo, Some(asOf), None);
    assert Last(batch) in batch && Selects(q, w.docs, Last(batch));
    assert forall k :: k in w.docs && f.hi < k <= Last(batch) && w.docs[k].expiration > w.now ==> Selects(q, w.docs, k);
    var f' := f.(queue := Some(batch), sent := Last(batch));
    GroupsStay(w, f, f');
    SessionsMoveOn(s, f');
  }

  lemma StoreKeeps(s: State)
    requires Inv(s)
    ensures Inv(s.(feed := s.feed.(checkpoint := s.feed.sent)))
  {
    var f' := s.feed.(checkpoint := s.feed.sent);
    GroupsStay(s.world, s.feed, f');
    SessionsMoveOn(s, f');
  }

  /** Nothing is known of sequence numbers but through the monitor's side of the feed. */
  lemma DispatcherCarries(s: State, s': State)
    requires s'.world == s.world && s'.responses == s.responses
    requires s'.feed.alone == s.feed.alone && s'.feed.ready == s.feed.ready && s'.feed.boot == s.feed.boot
    requires s'.feed.checkpoint == s.feed.checkpoint && s'.feed.sent == s.feed.sent
    ensures Carries(s, s')
    ensures forall agent, n :: Known(s.world, s.feed, agent, n) ==> Known(s.world, s'.feed, agent, n)
  {
  }

  lemma TakeKeepsFeed(w: World, f: Feed, groups: map<string, seq<int>>)
    requires FeedInv(w, f) && CanTake(w, f, groups) && Whole(Pattern(w.docs, f.queue.value))
    ensures FeedInv(w, TakeBatch(f, groups))
  {
    forall a | a in groups
      ensures GroupInv(w, TakeBatch(f, groups), a, groups[a])
    {
      assert At(groups, a) == groups[a];
      PartCovers(w, f.hi, f.queue.value, a);
    }
  }

  lemma TakeKeeps(s: State, groups: map<string, seq<int>>)
    requires Inv(s) && CanTake(s.world, s.feed, groups) && Whole(Pattern(s.world.docs, s.feed.queue.value))
    ensures Inv(s.(feed := TakeBatch(s.feed, groups)))
  {
    var w, f := s.world, s.feed;
    var f' := TakeBatch(f, groups);
    var s' := s.(feed := f');
    TakeKeepsFeed(w, f, groups);
    DispatcherCarries(s, s');
    forall c | c in s.sessions
      ensures SessionInv(s', c, s.sessions[c])
    {
      assert SessionInv(s, c, s.sessions[c]);
      var sn := s.sessions[c];
      if Attends(sn.phase) && s.channels[c].None? && ListensOn(s.subs, sn.agent, c) && sn.agent !in groups {
        assert At(groups, sn.agent) == [];
        PartCovers(w, f.hi, f.queue.value, sn.agent);
        CoversJoin(w, sn.agent, sn.base, f.hi, f'.hi, []);
      }
    }
  }

  lemma LookKeepsFeed(w: World, f: Feed, subs: map<string, nat>, agent: string)
    requires FeedInv(w, f) && agent in f.groups && f.parcel.None?
    ensures FeedInv(w, Looked(f, subs, agent))
  {
    var f' := Looked(f, subs, agent);
    assert GroupInv(w, f, agent, f.groups[agent]);
    forall a | a in f'.groups
      ensures GroupInv(w, f', a, f'.groups[a])
    {
      assert GroupInv(w, f, a, f.groups[a]);
    }
  }

  lemma LookKeeps(s: State, agent: string)
    requires Inv(s) && agent in s.feed.groups && s.feed.parcel.None?
    ensures Inv(s.(feed := Looked(s.feed, s.subs, agent)))
  {
    var s' := s.(feed := Looked(s.feed, s.subs, agent));
    LookKeepsFeed(s.world, s.feed, s.subs, agent);
    DispatcherCarries(s, s');
    forall c | c in s.sessions
      ensures SessionInv(s', c, s.sessions[c])
    {
      assert SessionInv(s, c, s.sessions[c]);
    }
  }

  /** The channel the parcel goes to, with the parcel in it. */
  lemma ParcelCovers(w: World, f: Feed, sn: Session, part: seq<int>)
    requires FeedInv(w, f) && f.ready && GroupInv(w, f, sn.agent, part) && part != []
    requires sn.base <= f.lo && Covers(w, sn.agent, sn.base, f.lo, [])
    ensures ChannelInv(w, f.(parcel := None), false, false, Some(part), sn)
  {
    CoversJoin(w, sn.agent, sn.base, f.lo, Last(part), part);
  }

  lemma HandKeeps(s: State)
    requires Inv(s) && s.feed.parcel.Some? && s.feed.parcel.value.ch in s.channels
    ensures Inv(Handed(s))
  {
    var s', p := Handed(s), s.feed.parcel.value;
    GroupsStay(s.world, s.feed, s'.feed);
    DispatcherCarries(s, s');
    forall c | c in s.sessions
      ensures SessionInv(s', c, s.sessions[c])
    {
      var sn := s.sessions[c];
      assert SessionInv(s, c, sn);
      if c == p.ch && Attends(sn.phase) && s.channels[c].None? {
        ParcelCovers(s.world, s.feed, sn, p.part);
      }
    }
  }

  lemma ReadyKeeps(s: State, g: int)
    requires Inv(s) && !s.feed.ready && s.feed.boot <= g <= s.world.gcp && Careful(s, Ready(g))
    ensures Inv(Readied(s, g))
  {
    var s' := Readied(s, g);
    assert Carries(s, s');
    forall c | c in s'.sessions
      ensures SessionInv(s', c, s'.sessions[c])
    {
      assert SessionInv(s, c, s.sessions[c]);
    }
  }

  lemma RestartKeeps(s: State)
    requires Inv(s)
    ensures Inv(Restarted(s))
  {
    assert Carries(s, Restarted(s));
  }

  lemma FeedKeeps(s: State, l: Label, s': State)
    requires Inv(s) && FeedNext(s, l, s') && Careful(s, l)
    ensures Inv(s')
  {
    match l
    case Restart => RestartKeeps(s);
    case Ready(g) => ReadyKeeps(s, g);
    case Publish(batch, upTo, asOf) => PublishKeeps(s, batch, upTo, asOf);
    case Store => StoreKeeps(s);
    case Take(groups) => TakeKeeps(s, groups);
    case Look(agent) => LookKeeps(s, agent);
    case Hand => HandKeeps(s);
    case _ =>
  }

  // ---------------------------------------------------------------- check-ins

  /** Session `c` changes; every other session keeps its channel, and its subscription unless it
      loses that. */
  ghost predicate Frame(s: State, s': State, c: nat) {
    && s'.world == s.world && s'.feed == s.feed
    && (forall d :: d in s'.sessions && d != c ==> d in s.sessions && s'.sessions[d] == s.sessions[d])
    && (forall d :: d != c ==> (d in s.channels <==> d in s'.channels))
    && (forall d :: d in s.channels && d != c ==> s'.channels[d] == s.channels[d])
    && (forall d, a :: d != c && ListensOn(s'.subs, a, d) ==> ListensOn(s.subs, a, d))
  }

  lemma ResponsesCarry(s: State, s': State)
    requires s'.world == s.world && s'.feed == s.feed && Extends(s.responses, s'.responses)
    ensures Carries(s, s')
  {
    forall agent, n, ks | Sound(s, agent, n, ks)
      ensures Sound(s', agent, n, ks)
    {
      SettledExtends(s.world, s.responses, s'.responses, agent, n, ks);
    }
  }

  lemma OthersKeep(s: State, s': State, c: nat)
    requires Inv(s) && Frame(s, s', c) && Carries(s, s')
    ensures forall d :: d in s'.sessions && d != c ==> SessionInv(s', d, s'.sessions[d])
  {
    forall d | d in s'.sessions && d != c
      ensures SessionInv(s', d, s'.sessions[d])
    {
      assert SessionInv(s, d, s.sessions[d]);
    }
  }

  lemma HistoryCarries(s: State, s': State)
    requires HistoryInv(s) && Carries(s, s')
    requires s'.responses == s.responses && s'.noted == s.noted && s'.records == s.records
    ensures HistoryInv(s')
  {
  }

  lemma SubscribeFrame(s: State, c: nat)
    requires SubsInv(s) && ParcelInv(s) && c in s.sessions && c !in s.channels
    ensures Frame(s, Subscribed(s, c), c) && SubsInv(Subscribed(s, c)) && ParcelInv(Subscribed(s, c))
  {
  }

  lemma SubscribeOwn(s: State, c: nat)
    requires Inv(s) && c in s.sessions && s.sessions[c].phase == Resolved && Carries(s, Subscribed(s, c))
    ensures SessionInv(Subscribed(s, c), c, Subscribed(s, c).sessions[c])
  {
    assert SessionInv(s, c, s.sessions[c]);
  }

  lemma SubscribeKeeps(s: State, c: nat)
    requires Inv(s) && c in s.sessions && s.sessions[c].phase == Resolved
    ensures Inv(Subscribed(s, c))
  {
    var s' := Subscribed(s, c);
    assert SessionInv(s, c, s.sessions[c]);
    ResponsesCarry(s, s');
    HistoryCarries(s, s');
    SubscribeFrame(s, c);
    SubscribeOwn(s, c);
    OthersKeep(s, s', c);
    Together(s', c);
  }

  lemma Together(s: State, c: nat)
    requires FeedInv(s.world, s.feed) && SubsInv(s) && ParcelInv(s) && HistoryInv(s)
    requires !s.feed.ready ==> forall d :: d in s.channels ==> s.channels[d] == None
    requires c in s.sessions ==> SessionInv(s, c, s.sessions[c])
    requires forall d :: d in s.sessions && d != c ==> SessionInv(s, d, s.sessions[d])
    ensures Inv(s)
  {
  }

  /** A session that is not new changes its phase and nothing else. */
  lemma PhaseKeeps(s: State, c: nat, p: Phase)
    requires Inv(s) && c in s.sessions && p != Resolved && (Attends(p) ==> Attends(s.sessions[c].phase))
    requires PhaseInv(s.world, s.feed, s.sessions[c].(phase := p))
    ensures Inv(WithPhase(s, c, p))
  {
    var s' := WithPhase(s, c, p);
    assert SessionInv(s, c, s.sessions[c]);
    ResponsesCarry(s, s');
    OthersKeep(s, s', c);
  }

  /** Reading without leaving a gap: the lower bound, or the checkpoint read, reaches the base, or
      the lower bound comes from the batch that is not stored yet. */
  lemma CheckBridges(w: World, f: Feed, sn: Session)
    requires FeedInv(w, f) && Known(w, f, sn.agent, sn.lower) && sn.base <= f.sent
    requires f.ready ==> !LeavesGap(f.alone, sn.lower, sn.base, f.checkpoint)
    ensures Covers(w, sn.agent, Max(sn.lower, f.checkpoint), sn.base, [])
  {
  }

  lemma CheckKeeps(s: State, c: nat, asOf: int)
    requires Inv(s) && c in s.sessions && s.sessions[c].phase == Listening && asOf <= s.world.now
    requires Careful(s, Check(c, asOf))
    ensures Inv(WithPhase(s, c, Checked(s.feed.checkpoint, asOf)))
  {
    assert SessionInv(s, c, s.sessions[c]);
    CheckBridges(s.world, s.feed, s.sessions[c]);
    PhaseKeeps(s, c, Checked(s.feed.checkpoint, asOf));
  }

  lemma ResponseKeepsHistory(s: State, s': State, r: Response)
    requires HistoryInv(s) && Carries(s, s') && s'.noted == s.noted && s'.records == s.records
    requires s'.responses == s.responses + [r] && Sound(s, r.agent, r.token, r.actions)
    ensures HistoryInv(s')
  {
  }

  /** A response that accounts for everything up to its token. */
  lemma RespondKeeps(s: State, c: nat, actions: seq<int>)
    requires Inv(s) && c in s.sessions && s.sessions[c].phase != Resolved
    requires actions != [] && Sound(s, s.sessions[c].agent, Last(actions), actions)
    ensures Inv(Respond(s, c, actions))
  {
    var s', r := Respond(s, c, actions), Response(s.sessions[c].agent, actions, Last(actions), false);
    assert SessionInv(s, c, s.sessions[c]);
    ResponsesCarry(s, s');
    ResponseKeepsHistory(s, s', r);
    OthersKeep(s, s', c);
  }

  /** A response from the pending query accounts for everything up to its token. */
  lemma PendingSound(s: State, c: nat, hits: seq<int>)
    requires Inv(s) && c in s.sessions && s.sessions[c].phase.Checked? && hits != []
    requires IsSearch(hits, s.world.docs, PendingWindow(s.sessions[c]), MAX_AGENT_ACTIONS)
    ensures Sound(s, s.sessions[c].agent, Last(hits), hits)
  {
    assert SessionInv(s, c, s.sessions[c]);
    PendingCovers(s.world, s.sessions[c], hits);
  }

  /** So does a response from the dispatcher. */
  lemma ChannelSound(s: State, c: nat)
    requires Inv(s) && c in s.sessions && s.sessions[c].phase.Polling? && c in s.channels && s.channels[c].Some?
    ensures s.channels[c].value != []
    ensures Sound(s, s.sessions[c].agent, Last(s.channels[c].value), s.channels[c].value)
  {
    assert SessionInv(s, c, s.sessions[c]);
  }

  lemma QueryKeeps(s: State, c: nat, hits: seq<int>)
    requires Inv(s) && c in s.sessions && s.sessions[c].phase.Checked?
    requires IsSearch(hits, s.world.docs, PendingWindow(s.sessions[c]), MAX_AGENT_ACTIONS)
    ensures Inv(Queried(s, c, hits))
  {
    assert SessionInv(s, c, s.sessions[c]);
    if hits == [] {
      PendingCovers(s.world, s.sessions[c], hits);
      PhaseKeeps(s, c, Polling(s.sessions[c].phase.upper));
    } else if AllReadable(s.world.docs, hits) {
      PendingSound(s, c, hits);
      RespondKeeps(s, c, hits);
    } else {
      PhaseKeeps(s, c, Answered);
    }
  }

  /** Nobody relies on the channel of a check-in that is answered. */
  lemma EmptyKeeps(s: State, c: nat)
    requires Inv(s) && c in s.channels && c in s.sessions && s.sessions[c].phase == Answered
    ensures Inv(s.(channels := s.channels[c := None]))
  {
    var s' := s.(channels := s.channels[c := None]);
    assert SessionInv(s, c, s.sessions[c]);
    ResponsesCarry(s, s');
    OthersKeep(s, s', c);
  }

  lemma ReceiveKeeps(s: State, c: nat)
    requires Inv(s) && c in s.sessions && s.sessions[c].phase.Polling?
    requires c in s.channels && s.channels[c].Some? && s.channels[c].value != []
    ensures Inv(Respond(s, c, s.channels[c].value).(channels := s.channels[c := None]))
  {
    ChannelSound(s, c);
    RespondKeeps(s, c, s.channels[c].value);
    EmptyKeeps(Respond(s, c, s.channels[c].value), c);
  }

  lemma CheckinKeeps(s: State, l: Label, s': State)
    requires Inv(s) && SessionNext(s, l, s') && Careful(s, l)
    ensures Inv(s')
  {
    match l
    case Subscribe(c) => SubscribeKeeps(s, c);
    case Check(c, asOf) => CheckKeeps(s, c, asOf);
    case Pending(c, hits) => QueryKeeps(s, c, hits);
    case Receive(c) => ReceiveKeeps(s, c);
    case Quiet(c) => PhaseKeeps(s, c, Answered);
    case _ =>
  }

  lemma LowerSound(s: State, agent: string, lower: int)
    requires Inv(s) && MayStartFrom(s, agent, lower)
    ensures Sound(s, agent, lower, [])
  {
    if r :| 0 <= r < |s.responses| && s.responses[r].received && s.responses[r].agent == agent
            && s.responses[r].token == lower {
      assert Sound(s, agent, lower, s.responses[r].actions);
    }
  }

  lemma BeginKeeps(s: State, c: nat, agent: string, lower: int)
    requires Inv(s) && c !in s.sessions && c !in s.channels && MayStartFrom(s, agent, lower)
    ensures Inv(s.(sessions := s.sessions[c := Session(agent, lower, 0, Resolved)]))
  {
    var s' := s.(sessions := s.sessions[c := Session(agent, lower, 0, Resolved)]);
    LowerSound(s, agent, lower);
    ResponsesCarry(s, s');
    OthersKeep(s, s', c);
  }

  lemma HangUpKeeps(s: State, c: nat)
    requires Inv(s) && c in s.sessions
    ensures Inv(s.(subs := s.subs - {s.sessions[c].agent}, sessions := s.sessions - {c}))
  {
    var s' := s.(subs := s.subs - {s.sessions[c].agent}, sessions := s.sessions - {c});
    ResponsesCarry(s, s');
    OthersKeep(s, s', c);
  }

  /** Sessions do not depend on what is noted and recorded. */
  lemma AllKeep(s: State, s': State)
    requires Inv(s) && Carries(s, s') && s'.world == s.world && s'.feed == s.feed
    requires s'.sessions == s.sessions && s'.channels == s.channels && s'.subs == s.subs
    ensures forall d :: d in s.sessions ==> SessionInv(s', d, s.sessions[d])
  {
    forall d | d in s.sessions
      ensures SessionInv(s', d, s.sessions[d])
    {
      assert SessionInv(s, d, s.sessions[d]);
    }
  }

  lemma RecordKeeps(s: State, l: Label, s': State)
    requires Inv(s) && DeskNext(s, l, s') && (l.Note? || l.Record?)
    ensures Inv(s')
  {
    ResponsesCarry(s, s');
    AllKeep(s, s');
    assert l.Note? ==> SessionInv(s, l.c, s.sessions[l.c]);
  }

  lemma ArriveKeeps(s: State, r: nat)
    requires Inv(s) && r < |s.responses|
    ensures Inv(s.(responses := s.responses[r := s.responses[r].(received := true)]))
  {
    var s' := s.(responses := s.responses[r := s.responses[r].(received := true)]);
    ResponsesCarry(s, s');
    AllKeep(s, s');
    forall i | 0 <= i < |s'.responses|
      ensures Sound(s', s'.responses[i].agent, s'.responses[i].token, s'.responses[i].actions)
    {
      assert Sound(s, s.responses[i].agent, s.responses[i].token, s.responses[i].actions);
    }
  }

  lemma DeskKeeps(s: State, l: Label, s': State)
    requires Inv(s) && DeskNext(s, l, s')
    ensures Inv(s')
  {
    match l
    case Begin(c, agent, lower) => BeginKeeps(s, c, agent, lower);
    case HangUp(c) => HangUpKeeps(s, c);
    case Arrive(r) => ArriveKeeps(s, r);
    case Note(_) => RecordKeeps(s, l, s');
    case Record(_) => RecordKeeps(s, l, s');
    case _ =>
  }

  /** Once another server has had a hand in it, no bound has to be known. */
  lemma NotAlone(s: State)
    requires Inv(s)
    ensures Inv(s.(feed := s.feed.(alone := false)))
  {
    var s' := s.(feed := s.feed.(alone := false));
    assert Carries(s, s');
    GroupsStay(s.world, s.feed, s'.feed);
    forall c | c in s.sessions
      ensures SessionInv(s', c, s.sessions[c])
    {
      assert SessionInv(s, c, s.sessions[c]);
    }
  }

  lemma ForeignKeeps(s: State, l: Label, s': State)
    requires Inv(s) && ForeignNext(s, l, s')
    ensures Inv(s')
  {
    var mid := s.(feed := s.feed.(alone := false));
    NotAlone(s);
    ResponsesCarry(mid, s');
    AllKeep(mid, s');
  }

  lemma InvStep(s: State, l: Label, s': State)
    requires Inv(s) && Next(s, l, s') && Careful(s, l)
    ensures Inv(s')
  {
    if FeedNext(s, l, s') {
      FeedKeeps(s, l, s');
    } else if SessionNext(s, l, s') {
      CheckinKeeps(s, l, s');
    } else if DeskNext(s, l, s') {
      DeskKeeps(s, l, s');
    } else if ForeignNext(s, l, s') {
      ForeignKeeps(s, l, s');
    } else {
      WorldKeeps(s, l, s');
    }
  }

  // ---------------------------------------------------------------- whole runs

  datatype Run = Start(s: State) | Then(prev: Run, l: Label, s: State)

  ghost predicate IsRun(run: Run) {
    match run
    case Start(s) => Init(s)
    case Then(prev, l, s) => IsRun(prev) && Next(prev.s, l, s)
  }

  ghost predicate AlwaysCareful(run: Run) {
    run.Then? ==> AlwaysCareful(run.prev) && Careful(run.prev.s, run.l)
  }

  ghost predicate Skipped(s: State, agent: string, k: int) {
    Missed(s.world, s.responses, agent, k)
  }

  lemma {:induction false} RunInv(run: Run)
    requires IsRun(run) && AlwaysCareful(run)
    ensures Inv(run.s)
  {
    match run
    case Start(s) => InitInv(s);
    case Then(prev, l, s) =>
      RunInv(prev);
      InvStep(prev.s, l, s);
  }

  /** No action is skipped, in any interleaving, across restarts and beside other servers, in which no step leaves a gap
      between what a check-in has read and what the dispatcher serves it. */
  lemma NoSkippedAction(run: Run, agent: string, k: int)
    requires IsRun(run) && AlwaysCareful(run)
    ensures !Skipped(run.s, agent, k)
  {
    RunInv(run);
    var s := run.s;
    if r :| 0 <= r < |s.responses| && s.responses[r].received && s.responses[r].agent == agent
            && k <= s.responses[r].token && Meant(s.world.docs, agent, k) {
      assert Sound(s, agent, s.responses[r].token, s.responses[r].actions);
    }
  }

  // ---------------------------------------------------------------- an order that is careful

  /** The dispatcher takes a batch only once the checkpoint behind it is stored, check-ins read only
      once the monitor has started, and no batch is cut. */
  ghost predicate Orderly(s: State, l: Label) {
    && (l.Take? ==> s.feed.checkpoint == s.feed.sent && Careful(s, l))
    && (l.Check? ==> s.feed.ready)
  }

  ghost predicate AlwaysOrderly(run: Run) {
    run.Then? ==> AlwaysOrderly(run.prev) && Orderly(run.prev.s, run.l)
  }

  ghost predicate BehindAt(f: Feed, sn: Session) {
    && (sn.phase != Resolved ==> sn.base <= f.checkpoint)
    && (HasRead(sn.phase) ==> f.ready)
  }

  /** The dispatcher is never ahead of the stored checkpoint, nor is the point it serves a check-in
      from. */
  ghost predicate Behind(s: State) {
    && s.feed.lo <= s.feed.hi <= s.feed.checkpoint <= s.feed.sent
    && (s.feed.queue.Some? ==> s.feed.queue.value != [] && Last(s.feed.queue.value) == s.feed.sent)
    && (forall c :: c in s.sessions ==> BehindAt(s.feed, s.sessions[c]))
  }

  lemma BehindFeed(s: State, l: Label, s': State)
    requires Behind(s) && FeedNext(s, l, s') && Orderly(s, l)
    ensures Behind(s')
  {
    if l.Publish? {
      assert Last(l.batch) in l.batch;
      assert Selects(Window(s.feed.checkpoint, l.upTo, Some(l.asOf), None), s.world.docs, Last(l.batch));
    }
    forall c | c in s'.sessions
      ensures BehindAt(s'.feed, s'.sessions[c])
    {
      assert BehindAt(s.feed, s.sessions[c]);
    }
  }

  lemma BehindOwn(s: State, s': State, c: nat, sn: Session)
    requires Behind(s) && s'.feed == s.feed && s'.sessions == s.sessions[c := sn] && BehindAt(s.feed, sn)
    ensures Behind(s')
  {
    forall d | d in s'.sessions
      ensures BehindAt(s'.feed, s'.sessions[d])
    {
      assert d != c ==> BehindAt(s.feed, s.sessions[d]);
    }
  }

  lemma BehindSession(s: State, l: Label, s': State)
    requires Behind(s) && SessionNext(s, l, s') && Orderly(s, l)
    ensures Behind(s')
  {
    match l
    case Subscribe(c) => BehindOwn(s, s', c, s'.sessions[c]);
    case Check(c, _) =>
      assert BehindAt(s.feed, s.sessions[c]);
      BehindOwn(s, s', c, s'.sessions[c]);
    case Pending(c, _) =>
      assert BehindAt(s.feed, s.sessions[c]);
      BehindOwn(s, s', c, s'.sessions[c]);
    case Receive(c) =>
      assert BehindAt(s.feed, s.sessions[c]);
      BehindOwn(s, s', c, s'.sessions[c]);
    case Quiet(c) =>
      assert BehindAt(s.feed, s.sessions[c]);
      BehindOwn(s, s', c, s'.sessions[c]);
    case _ =>
  }

  lemma BehindDesk(s: State, l: Label, s': State)
    requires Behind(s) && DeskNext(s, l, s')
    ensures Behind(s')
  {
    forall c | c in s'.sessions
      ensures BehindAt(s'.feed, s'.sessions[c])
    {
      assert c in s.sessions ==> BehindAt(s.feed, s.sessions[c]);
    }
  }

  lemma BehindCareful(s: State, l: Label, s': State)
    requires Behind(s) && Next(s, l, s') && Orderly(s, l)
    ensures Careful(s, l)
  {
    match l
    case Check(c, _) => assert c in s.sessions ==> BehindAt(s.feed, s.sessions[c]);
    case Ready(g) =>
      assert forall c :: c in s.sessions ==> BehindAt(s.feed, s.sessions[c]) && !HasRead(s.sessions[c].phase);
    case _ =>
  }

  lemma BehindStep(s: State, l: Label, s': State)
    requires Behind(s) && Next(s, l, s') && Orderly(s, l)
    ensures Behind(s') && Careful(s, l)
  {
    BehindCareful(s, l, s');
    if FeedNext(s, l, s') {
      BehindFeed(s, l, s');
    } else if SessionNext(s, l, s') {
      BehindSession(s, l, s');
    } else if DeskNext(s, l, s') {
      BehindDesk(s, l, s');
    }
  }

  lemma {:induction false} OrderlyIsCareful(run: Run)
    requires IsRun(run) && AlwaysOrderly(run)
    ensures Behind(run.s) && AlwaysCareful(run)
  {
    if run.Then? {
      OrderlyIsCareful(run.prev);
      BehindStep(run.prev.s, run.l, run.s);
    }
  }

  /** Nothing is skipped when a batch is dispatched only after its checkpoint is stored, check-ins
      read only once the monitor has started, and no batch is cut. */
  lemma NoSkippedActionWhenOrderly(run: Run, agent: string, k: int)
    requires IsRun(run) && AlwaysOrderly(run)
    ensures !Skipped(run.s, agent, k)
  {
    OrderlyIsCareful(run);
    NoSkippedAction(run, agent, k);
  }
}
