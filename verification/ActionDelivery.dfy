/**
 Delivery of actions to agents, from the index to the check-in response.

 The index monitor publishes batches, the dispatcher hands each agent its part of a batch without
 waiting, and a check-in subscribes, then queries what is pending, then listens.  A response carries
 an ack token, and the agent's next check-in starts above the token it last received.

 A run interleaves the monitor, the dispatcher, the index, the clock and any number of check-ins,
 several of one agent included; the server may restart, and other servers may answer the same agents
 and write their records.  Two places where the code takes two
 steps take two steps here, and anything may happen in between: `notify` puts a batch on the channel
 and then stores the checkpoint, and `dispatch` looks the subscription up and then sends.
 */
module ActionDelivery {
  import opened Index
  import opened Dispatcher

  /** The index and the clock: nothing changes at or below the global checkpoint any more. */
  datatype World = World(docs: Docs, gcp: int, now: int)

  /** A part on its way to a channel. */
  datatype Parcel = Parcel(ch: nat, agent: string, part: seq<int>)

  /** The monitor's output and the dispatcher's work. */
  datatype Feed = Feed(
    alone: bool,  // no other server has answered or recorded anything since this one started
    boot: int,  // the global checkpoint when the server started
    ready: bool,  // the monitor has read its first checkpoint
    checkpoint: int,  // the monitor's stored checkpoint
    sent: int,  // the last document put on the monitor's output channel
    queue: Option<seq<int>>,  // that channel, a buffer of one batch
    groups: map<string, seq<int>>,  // parts of the current batch not looked at yet
    parcel: Option<Parcel>,  // the part whose subscription was just looked up
    lo: int, hi: int)  // the stretch the current batch covers

  datatype Phase =
    | Resolved  // the lower bound is known
    | Listening  // subscribed to the dispatcher
    | Checked(upper: int, asOf: int)  // clock and checkpoint read for the pending query
    | Polling(upper: int)  // the pending query found nothing
    | Answered

  /** `base` records from where on the dispatcher serves this check-in: how far it had got with the
      agent when the check-in subscribed, or where the monitor started if that came later. */
  datatype Session = Session(agent: string, lower: int, base: int, phase: Phase)

  datatype Response = Response(agent: string, actions: seq<int>, token: int, received: bool)

  datatype State = State(
    world: World, feed: Feed, fetchSize: nat,
    subs: map<string, nat>, channels: map<nat, Channel>,
    sessions: map<nat, Session>,
    noted: map<string, int>,  // sequence numbers waiting to be written to agent records
    records: map<string, int>,  // the sequence number kept on the agent record
    responses: seq<Response>)

  datatype Label =
    | Tick(t: int)
    | Write(k: int, doc: Action)
    | Advance(g: int)
    | Restart
    | Ready(g: int)
    | Publish(batch: seq<int>, upTo: int, asOf: int)
    | Store
    | Take(groups: map<string, seq<int>>)
    | Look(agent: string)
    | Hand
    | Begin(c: nat, agent: string, lower: int)
    | Subscribe(c: nat)
    | Check(c: nat, asOf: int)
    | Pending(c: nat, hits: seq<int>)
    | Receive(c: nat)
    | Quiet(c: nat)
    | Note(c: nat)
    | Record(agent: string)
    | HangUp(c: nat)
    | Arrive(r: nat)
    | Foreign(response: Response)
    | ForeignRecord(agent: string, n: int)

  /** The published documents as the dispatcher sees them. */
  function HitsOf(docs: Docs, ks: seq<int>): seq<Hit> {
    seq(|ks|, i requires 0 <= i < |ks| =>
      if ks[i] in docs then Hit(ks[i], docs[ks[i]].agents, docs[ks[i]].form == Listed) else Hit(ks[i], [], true))
  }

  /** How far the dispatcher has got with `agent`. */
  function Position(f: Feed, agent: string): int {
    if agent in f.groups then f.lo else f.hi
  }

  /** Before the monitor has read its first checkpoint everything is undefined. */
  function Booting(gcp: int): Feed {
    Feed(true, gcp, false, -1, -1, None, map[], None, -1, -1)
  }

  function Started(alone: bool, boot: int, g: int): Feed {
    Feed(alone, boot, true, g, g, None, map[], None, g, g)
  }

  /** A document `agent` should get; one that nobody can unmarshal is nobody's. */
  ghost predicate Meant(docs: Docs, agent: string, k: int) {
    k in docs && docs[k].form != Broken && agent in docs[k].agents
  }

  ghost predicate Got(responses: seq<Response>, agent: string, k: int) {
    exists r :: 0 <= r < |responses| && responses[r].received && responses[r].agent == agent
                && k in responses[r].actions
  }

  /** An action at or below a token the agent received, neither received nor expired. */
  ghost predicate Missed(w: World, responses: seq<Response>, agent: string, k: int) {
    && Meant(w.docs, agent, k) && w.docs[k].expiration > w.now && !Got(responses, agent, k)
    && exists r :: 0 <= r < |responses| && responses[r].received && responses[r].agent == agent
                   && k <= responses[r].token
  }

  /** Up to `n`, the agent has received every action not in `ks`, or it has expired. */
  ghost predicate Settled(w: World, responses: seq<Response>, agent: string, n: int, ks: seq<int>) {
    && -1 <= n <= w.gcp
    && forall k :: Meant(w.docs, agent, k) && k <= n ==>
                     Got(responses, agent, k) || k in ks || w.docs[k].expiration <= w.now
  }

  /** The server starts on an index, and among agents, that an earlier one has served. */
  ghost predicate Init(s: State) {
    && (forall k :: k in s.world.docs ==> k >= 0)
    && -1 <= s.world.gcp && s.fetchSize > 0 && s.feed == Booting(s.world.gcp)
    && s.subs == map[] && s.channels == map[] && s.sessions == map[] && s.noted == map[]
    && (forall r :: 0 <= r < |s.responses| ==>
          Settled(s.world, s.responses, s.responses[r].agent, s.responses[r].token, s.responses[r].actions))
    && (forall a :: a in s.records ==> Settled(s.world, s.responses, a, s.records[a], []))
  }

  ghost predicate WorldNext(w: World, l: Label, w': World) {
    match l
    case Tick(t) => w.now <= t && w' == w.(now := t)
    // documents appear in any order, but only above the global checkpoint
    case Write(k, doc) => k > w.gcp && k >= 0 && k !in w.docs && w' == w.(docs := w.docs[k := doc])
    case Advance(g) => w.gcp <= g && w' == w.(gcp := g)
    case _ => false
  }

  /** One page of the monitor's search goes out on its channel. */
  ghost predicate CanPublish(w: World, f: Feed, size: nat, batch: seq<int>, upTo: int, asOf: int) {
    && f.ready && f.checkpoint == f.sent && f.queue.None? && upTo <= w.gcp && asOf <= w.now && batch != []
    && IsSearch(batch, w.docs, Window(f.checkpoint, upTo, Some(asOf), None), size)
  }

  ghost predicate CanTake(w: World, f: Feed, groups: map<string, seq<int>>) {
    && f.queue.Some? && f.groups == map[] && f.parcel.None? && f.queue.value != []
    && IsGrouping(groups, Readable(HitsOf(w.docs, f.queue.value)))
  }

  function TakeBatch(f: Feed, groups: map<string, seq<int>>): Feed
    requires f.queue.Some? && f.queue.value != []
  {
    f.(queue := None, groups := groups, lo := f.hi, hi := Last(f.queue.value))
  }

  /** The subscription of `agent` is looked up; without one its part is dropped. */
  function Looked(f: Feed, subs: map<string, nat>, agent: string): Feed
    requires agent in f.groups
  {
    f.(groups := f.groups - {agent},
       parcel := if agent in subs then Some(Parcel(subs[agent], agent, f.groups[agent])) else None)
  }

  function Rebased(sessions: map<nat, Session>, g: int): map<nat, Session> {
    map c | c in sessions :: sessions[c].(base := g)
  }

  /** A lower bound a check-in may start from: nothing known, the agent record, or a token the
      agent received. */
  ghost predicate MayStartFrom(s: State, agent: string, lower: int) {
    || lower == -1
    || (agent in s.records && s.records[agent] == lower)
    || (exists r :: 0 <= r < |s.responses| && s.responses[r].received && s.responses[r].agent == agent
                    && s.responses[r].token == lower)
  }

  function WithPhase(s: State, c: nat, p: Phase): State
    requires c in s.sessions
  {
    s.(sessions := s.sessions[c := s.sessions[c].(phase := p)])
  }

  function Respond(s: State, c: nat, actions: seq<int>): State
    requires c in s.sessions && actions != []
  {
    var r := Response(s.sessions[c].agent, actions, Last(actions), false);
    WithPhase(s, c, Answered).(responses := s.responses + [r])
  }

  function PendingWindow(sn: Session): Window
    requires sn.phase.Checked?
  {
    Window(sn.lower, sn.phase.upper, Some(sn.phase.asOf), Some(sn.agent))
  }

  predicate AllReadable(docs: Docs, ks: seq<int>) {
    forall i :: 0 <= i < |ks| && ks[i] in docs ==> docs[ks[i]].form != Broken
  }

  function Subscribed(s: State, c: nat): State
    requires c in s.sessions
  {
    var sn := s.sessions[c];
    s.(subs := s.subs[sn.agent := c], channels := s.channels[c := None],
       sessions := s.sessions[c := sn.(phase := Listening, base := Position(s.feed, sn.agent))])
  }

  /** The pending query has answered; one hit that cannot be unmarshalled fails the whole check-in. */
  function Queried(s: State, c: nat, hits: seq<int>): State
    requires c in s.sessions && s.sessions[c].phase.Checked?
  {
    if hits == [] then WithPhase(s, c, Polling(s.sessions[c].phase.upper))
    else if AllReadable(s.world.docs, hits) then Respond(s, c, hits)
    else WithPhase(s, c, Answered)
  }

  /** A check-in goes on. */
  ghost predicate SessionNext(s: State, l: Label, s': State) {
    match l
    case Subscribe(c) => c in s.sessions && s.sessions[c].phase == Resolved && s' == Subscribed(s, c)
    case Check(c, asOf) =>
      && c in s.sessions && s.sessions[c].phase == Listening && asOf <= s.world.now
      && s' == WithPhase(s, c, Checked(s.feed.checkpoint, asOf))
    case Pending(c, hits) =>
      && c in s.sessions && s.sessions[c].phase.Checked?
      && IsSearch(hits, s.world.docs, PendingWindow(s.sessions[c]), MAX_AGENT_ACTIONS)
      && s' == Queried(s, c, hits)
    case Receive(c) =>
      && c in s.sessions && s.sessions[c].phase.Polling?
      && c in s.channels && s.channels[c].Some? && s.channels[c].value != []
      && s' == Respond(s, c, s.channels[c].value).(channels := s.channels[c := None])
    // the long poll ends, or a policy change is delivered: no actions and no token
    case Quiet(c) => c in s.sessions && s.sessions[c].phase.Polling? && s' == WithPhase(s, c, Answered)
    case _ => false
  }

  /** Check-ins come and go, bounds are written down, and responses reach their agents. */
  ghost predicate DeskNext(s: State, l: Label, s': State) {
    match l
    case Begin(c, agent, lower) =>
      && c !in s.sessions && c !in s.channels && MayStartFrom(s, agent, lower)
      && s' == s.(sessions := s.sessions[c := Session(agent, lower, 0, Resolved)])
    case Note(c) => c in s.sessions && s' == s.(noted := s.noted[s.sessions[c].agent := s.sessions[c].lower])
    // an undefined sequence number is not written
    case Record(agent) =>
      && agent in s.noted
      && s' == s.(noted := s.noted - {agent},
                  records := if s.noted[agent] >= 0 then s.records[agent := s.noted[agent]] else s.records)
    // the deferred Unsubscribe, which deletes by agent id
    case HangUp(c) =>
      c in s.sessions && s' == s.(subs := s.subs - {s.sessions[c].agent}, sessions := s.sessions - {c})
    case Arrive(r) =>
      r < |s.responses| && s' == s.(responses := s.responses[r := s.responses[r].(received := true)])
    case _ => false
  }

  function Restarted(s: State): State {
    s.(feed := Booting(s.world.gcp), subs := map[], channels := map[], sessions := map[], noted := map[])
  }

  function Readied(s: State, g: int): State {
    s.(feed := Started(s.feed.alone, s.feed.boot, g), sessions := Rebased(s.sessions, g))
  }

  function Handed(s: State): State
    requires s.feed.parcel.Some? && s.feed.parcel.value.ch in s.channels
  {
    var p := s.feed.parcel.value;
    s.(feed := s.feed.(parcel := None), channels := Offer(s.channels, p.ch, p.part))
  }

  /** Monitor and dispatcher. */
  ghost predicate FeedNext(s: State, l: Label, s': State) {
    match l
    // what agents were told and what their records say stays; everything in memory is gone
    case Restart => s' == Restarted(s)
    // the checkpoint read is that of some moment since the start
    case Ready(g) => !s.feed.ready && s.feed.boot <= g <= s.world.gcp && s' == Readied(s, g)
    case Publish(batch, upTo, asOf) =>
      && CanPublish(s.world, s.feed, s.fetchSize, batch, upTo, asOf)
      && s' == s.(feed := s.feed.(queue := Some(batch), sent := Last(batch)))
    case Store => s' == s.(feed := s.feed.(checkpoint := s.feed.sent))
    case Take(groups) => CanTake(s.world, s.feed, groups) && s' == s.(feed := TakeBatch(s.feed, groups))
    case Look(agent) =>
      && agent in s.feed.groups && s.feed.parcel.None?
      && s' == s.(feed := Looked(s.feed, s.subs, agent))
    case Hand => s.feed.parcel.Some? && s.feed.parcel.value.ch in s.channels && s' == Handed(s)
    case _ => false
  }

  /** What other servers do, on the same index and for the same agents: they answer, and write agent
      records, so that everything up to the token or the record is accounted for. */
  ghost predicate ForeignNext(s: State, l: Label, s': State) {
    match l
    case Foreign(r) =>
      && Settled(s.world, s.responses, r.agent, r.token, r.actions)
      && s' == s.(responses := s.responses + [r], feed := s.feed.(alone := false))
    case ForeignRecord(agent, n) =>
      && Settled(s.world, s.responses, agent, n, [])
      && s' == s.(records := s.records[agent := n], feed := s.feed.(alone := false))
    case _ => false
  }

  ghost predicate Next(s: State, l: Label, s': State) {
    || (WorldNext(s.world, l, s'.world) && s' == s.(world := s'.world))
    || FeedNext(s, l, s')
    || SessionNext(s, l, s')
    || DeskNext(s, l, s')
    || ForeignNext(s, l, s')
  }

  // ---------------------------------------------------------------- what has to be ruled out

  predicate HasRead(p: Phase) {
    p.Checked? || p.Polling?
  }

  /** A check-in that starts above `lower` and reads checkpoint `upper` leaves a gap in front of
      `base`, from where the dispatcher serves it.  With one server alone a lower bound above the
      checkpoint does not: it comes from the one batch not stored yet. */
  predicate LeavesGap(alone: bool, lower: int, base: int, upper: int) {
    upper < base && if alone then lower <= upper else lower < base
  }

  /** A check-in that read before the monitor started at `g` leaves a gap. */
  predicate TooEarly(lower: int, g: int) {
    lower < g && 0 <= g
  }

  /** A document that is not broken lists its agents, and so do all in front of it. */
  predicate Whole(forms: seq<Form>) {
    forall i, j :: 0 <= i <= j < |forms| && forms[j] != Broken ==> forms[i] == Listed
  }

  function Pattern(docs: Docs, ks: seq<int>): seq<Form> {
    seq(|ks|, i requires 0 <= i < |ks| => if ks[i] in docs then docs[ks[i]].form else Listed)
  }

  /** The step leaves no gap for any check-in. */
  ghost predicate Careful(s: State, l: Label) {
    match l
    case Check(c, _) =>
      c in s.sessions && s.feed.ready ==>
        !LeavesGap(s.feed.alone, s.sessions[c].lower, s.sessions[c].base, s.feed.checkpoint)
    case Ready(g) =>
      forall c :: c in s.sessions && HasRead(s.sessions[c].phase) ==> !TooEarly(s.sessions[c].lower, g)
    case Take(_) => s.feed.queue.Some? ==> Whole(Pattern(s.world.docs, s.feed.queue.value))
    case _ => true
  }

  // ---------------------------------------------------------------- the invariant

  /** Every action for `agent` in the stretch is in `ks` or has expired. */
  ghost predicate Covers(w: World, agent: string, from: int, to: int, ks: seq<int>) {
    forall k :: Meant(w.docs, agent, k) && from < k <= to ==> k in ks || w.docs[k].expiration <= w.now
  }

  /** What a bound above the stored checkpoint tells as long as there is no other server: it comes
      from the one batch sent and not stored yet, and that batch has nothing more for the agent. */
  ghost predicate Known(w: World, f: Feed, agent: string, n: int) {
    if !f.alone then true
    else if f.ready then n <= f.sent && (n > f.checkpoint ==> Covers(w, agent, n, f.sent, [])) else n <= f.boot
  }

  ghost predicate Sound(s: State, agent: string, n: int, ks: seq<int>) {
    Settled(s.world, s.responses, agent, n, ks) && Known(s.world, s.feed, agent, n)
  }

  predicate Attends(p: Phase) {
    p.Listening? || HasRead(p)
  }

  predicate ListensOn(subs: map<string, nat>, agent: string, c: nat) {
    agent in subs && subs[agent] == c
  }

  predicate Awaits(f: Feed, c: nat) {
    f.parcel.Some? && f.parcel.value.ch == c
  }

  ghost predicate ChannelInv(w: World, f: Feed, listening: bool, awaits: bool, ch: Channel, sn: Session) {
    if ch.Some? then
      && ch.value != [] && -1 <= Last(ch.value) <= w.gcp && Known(w, f, sn.agent, Last(ch.value))
      && Covers(w, sn.agent, sn.base, Last(ch.value), ch.value)
    else if awaits then sn.base <= f.lo && Covers(w, sn.agent, sn.base, f.lo, [])
    else listening ==> sn.base <= Position(f, sn.agent) && Covers(w, sn.agent, sn.base, Position(f, sn.agent), [])
  }

  function Max(a: int, b: int): int {
    if a < b then b else a
  }

  /** Between what the check-in knows and what the dispatcher serves it there is nothing. */
  ghost predicate PhaseInv(w: World, f: Feed, sn: Session) {
    && (Attends(sn.phase) ==> sn.base <= f.sent)
    && (HasRead(sn.phase) ==>
          sn.phase.upper <= f.checkpoint && Covers(w, sn.agent, Max(sn.lower, sn.phase.upper), sn.base, []))
    && (sn.phase.Checked? ==> sn.phase.asOf <= w.now)
    && (sn.phase.Polling? ==> Covers(w, sn.agent, sn.lower, sn.phase.upper, []))
  }

  ghost predicate SessionInv(s: State, c: nat, sn: Session) {
    && Sound(s, sn.agent, sn.lower, [])
    && PhaseInv(s.world, s.feed, sn)
    && (sn.phase.Resolved? ==> c !in s.channels)
    && (Attends(sn.phase) ==>
          && c in s.channels
          && ChannelInv(s.world, s.feed, ListensOn(s.subs, sn.agent, c), Awaits(s.feed, c), s.channels[c], sn))
  }

  ghost predicate QueueInv(w: World, from: int, batch: seq<int>) {
    && batch != [] && Ascending(batch)
    && (forall k :: k in batch ==> k in w.docs && from < k)
    && (forall k :: k in w.docs && from < k <= Last(batch) ==> k in batch || w.docs[k].expiration <= w.now)
  }

  ghost predicate GroupInv(w: World, f: Feed, agent: string, part: seq<int>) {
    && part != [] && f.lo <= Last(part) <= f.hi
    && Covers(w, agent, f.lo, Last(part), part)
    && Covers(w, agent, Last(part), f.hi, [])
  }

  /** At most one batch is sent and not stored: the one in the queue or the one being handed out. */
  ghost predicate FeedInv(w: World, f: Feed) {
    && (forall k :: k in w.docs ==> k >= 0)
    && -1 <= f.boot <= w.gcp && -1 <= f.checkpoint <= f.sent <= w.gcp && -1 <= f.lo <= f.hi <= f.sent
    && (!f.ready ==> f == Booting(f.boot).(alone := f.alone))
    && (if f.queue.None? then f.hi == f.sent
        else f.hi <= f.checkpoint && QueueInv(w, f.hi, f.queue.value) && Last(f.queue.value) == f.sent)
    && (forall a :: a in f.groups ==> GroupInv(w, f, a, f.groups[a]))
    && (f.parcel.Some? ==>
       f.parcel.value.agent !in f.groups && GroupInv(w, f, f.parcel.value.agent, f.parcel.value.part))
  }

  ghost predicate SubsInv(s: State) {
    forall a :: a in s.subs ==>
      && s.subs[a] in s.channels && s.subs[a] in s.sessions && s.sessions[s.subs[a]].agent == a
      && s.sessions[s.subs[a]].phase != Resolved
  }

  ghost predicate ParcelInv(s: State) {
    s.feed.parcel.Some? ==>
      var p := s.feed.parcel.value;
      p.ch in s.channels && (p.ch in s.sessions ==> s.sessions[p.ch].agent == p.agent)
  }

  ghost predicate HistoryInv(s: State) {
    && (forall r :: 0 <= r < |s.responses| ==>
          Sound(s, s.responses[r].agent, s.responses[r].token, s.responses[r].actions))
    && (forall a :: a in s.noted ==> Sound(s, a, s.noted[a], []))
    && (forall a :: a in s.records ==> Sound(s, a, s.records[a], []))
  }

  ghost predicate Inv(s: State) {
    && FeedInv(s.world, s.feed) && SubsInv(s) && ParcelInv(s) && HistoryInv(s)
    && (!s.feed.ready ==> forall c :: c in s.channels ==> s.channels[c] == None)
    && (forall c :: c in s.sessions ==> SessionInv(s, c, s.sessions[c]))
  }

  lemma InitInv(s: State)
    requires Init(s)
    ensures Inv(s)
  {
  }

  // ---------------------------------------------------------------- facts about coverage

  /** Documents at and below the global checkpoint stay as they are; time and checkpoint move on. */
  ghost predicate Grows(w: World, w': World) {
    && w.gcp <= w'.gcp && w.now <= w'.now
    && (forall k :: k in w.docs ==> k in w'.docs && w'.docs[k] == w.docs[k])
    && (forall k :: k in w'.docs && k <= w.gcp ==> k in w.docs)
    && (forall k :: k in w'.docs && k !in w.docs ==> k >= 0)
  }

  lemma CoversGrows(w: World, w': World, agent: string, from: int, to: int, ks: seq<int>)
    requires Grows(w, w') && Covers(w, agent, from, to, ks) && to <= w.gcp
    ensures Covers(w', agent, from, to, ks)
  {
    assert forall k :: Meant(w'.docs, agent, k) && k <= to ==> Meant(w.docs, agent, k);
  }

  lemma SettledGrows(w: World, w': World, responses: seq<Response>, agent: string, n: int, ks: seq<int>)
    requires Grows(w, w') && Settled(w, responses, agent, n, ks)
    ensures Settled(w', responses, agent, n, ks)
  {
    assert forall k :: Meant(w'.docs, agent, k) && k <= n ==> Meant(w.docs, agent, k);
  }

  lemma KnownGrows(w: World, w': World, f: Feed, agent: string, n: int)
    requires Grows(w, w') && Known(w, f, agent, n) && f.sent <= w.gcp
    ensures Known(w', f, agent, n)
  {
    if f.alone && f.ready && n > f.checkpoint {
      CoversGrows(w, w', agent, n, f.sent, []);
    }
  }

  /** What an agent has received it keeps. */
  ghost predicate Extends(rs: seq<Response>, rs': seq<Response>) {
    && |rs| <= |rs'|
    && forall r :: 0 <= r < |rs| ==> rs'[r] == rs[r] || rs'[r] == rs[r].(received := true)
  }

  lemma SettledExtends(w: World, rs: seq<Response>, rs': seq<Response>, agent: string, n: int, ks: seq<int>)
    requires Extends(rs, rs') && Settled(w, rs, agent, n, ks)
    ensures Settled(w, rs', agent, n, ks)
  {
    forall k | Got(rs, agent, k)
      ensures Got(rs', agent, k)
    {
      var r :| 0 <= r < |rs| && rs[r].received && rs[r].agent == agent && k in rs[r].actions;
      assert rs'[r].received;
    }
  }

  /** Whatever is sound before the step is sound after it. */
  ghost predicate Carries(s: State, s': State) {
    forall agent, n, ks :: Sound(s, agent, n, ks) ==> Sound(s', agent, n, ks)
  }

  lemma CoversJoin(w: World, agent: string, a: int, b: int, c: int, ks: seq<int>)
    requires Covers(w, agent, a, b, []) && Covers(w, agent, b, c, ks)
    ensures Covers(w, agent, a, c, ks)
  {
  }

  lemma PatternOf(docs: Docs, batch: seq<int>)
    requires forall i :: 0 <= i < |batch| ==> batch[i] in docs
    ensures forall i :: 0 <= i < |batch| ==>
              HitsOf(docs, batch)[i].seqNo == batch[i] && HitsOf(docs, batch)[i].agents == docs[batch[i]].agents
              && (HitsOf(docs, batch)[i].readable <==> Pattern(docs, batch)[i] == Listed)
              && Pattern(docs, batch)[i] == docs[batch[i]].form
  {
  }

  /** What stands behind readable hits is kept. */
  lemma WholeKept(hits: seq<Hit>, i: nat)
    requires i < |hits| && forall a :: 0 <= a <= i ==> hits[a].readable
    ensures i < |Readable(hits)| && Readable(hits)[i] == hits[i]
  {
    var n := FirstUnreadable(hits);
    ReadablePrefix(hits, n);
  }

  /** Everything in a whole batch that an agent should get is in its part, and its part is in
      order. */
  lemma PartCovers(w: World, from: int, batch: seq<int>, agent: string)
    requires QueueInv(w, from, batch) && Whole(Pattern(w.docs, batch))
    ensures var part := ActionsFor(Readable(HitsOf(w.docs, batch)), agent);
            && Covers(w, agent, from, Last(batch), part)
            && (part != [] ==> from <= Last(part) <= Last(batch) && Covers(w, agent, Last(part), Last(batch), []))
  {
    var hits := HitsOf(w.docs, batch);
    var part := ActionsFor(Readable(hits), agent);
    PatternOf(w.docs, batch);
    forall k | Meant(w.docs, agent, k) && from < k <= Last(batch) && w.docs[k].expiration > w.now
      ensures k in part
    {
      var i :| 0 <= i < |batch| && batch[i] == k;
      WholeKept(hits, i);
      ActionsForMembers(Readable(hits), agent, k);
    }
    if part != [] {
      PartBounds(w, from, batch, agent);
    }
  }

  lemma PartBounds(w: World, from: int, batch: seq<int>, agent: string)
    requires QueueInv(w, from, batch)
    requires ActionsFor(Readable(HitsOf(w.docs, batch)), agent) != []
    ensures var part := ActionsFor(Readable(HitsOf(w.docs, batch)), agent);
            from <= Last(part) <= Last(batch) && forall k :: k in part ==> k <= Last(part)
  {
    var hits := HitsOf(w.docs, batch);
    var n := FirstUnreadable(hits);
    ReadablePrefix(hits, n);
    HitsAscend(w.docs, batch, n);
    var i := LastOfPart(hits[..n], agent);
    assert batch[i] in batch && Last(batch) in batch;
  }

  lemma LastOfPart(hits: seq<Hit>, agent: string) returns (i: nat)
    requires ActionsFor(hits, agent) != []
    requires forall a, b :: 0 <= a < b < |hits| ==> hits[a].seqNo < hits[b].seqNo
    ensures i < |hits| && hits[i].seqNo == Last(ActionsFor(hits, agent))
    ensures forall k :: k in ActionsFor(hits, agent) ==> k <= Last(ActionsFor(hits, agent))
  {
    var part := ActionsFor(hits, agent);
    ActionsForOrdered(hits, agent);
    ActionsForMembers(hits, agent, Last(part));
    assert Last(part) in part;
    i :| 0 <= i < |hits| && hits[i].seqNo == Last(part) && agent in hits[i].agents;
  }

  lemma HitsAscend(docs: Docs, batch: seq<int>, n: nat)
    requires Ascending(batch) && n <= |batch|
    ensures forall i :: 0 <= i < n ==> HitsOf(docs, batch)[..n][i].seqNo == batch[i]
    ensures forall i, j :: 0 <= i < j < n ==> HitsOf(docs, batch)[..n][i].seqNo < HitsOf(docs, batch)[..n][j].seqNo
  {
  }

  /** The pending query leaves out only expired actions up to its last hit, or up to its upper bound
      when it finds nothing. */
  lemma PendingCovers(w: World, sn: Session, hits: seq<int>)
    requires sn.phase.Checked? && sn.phase.asOf <= w.now
    requires IsSearch(hits, w.docs, PendingWindow(sn), MAX_AGENT_ACTIONS)
    ensures hits == [] ==> Covers(w, sn.agent, sn.lower, sn.phase.upper, [])
    ensures hits != [] ==> sn.lower < Last(hits) <= sn.phase.upper && Covers(w, sn.agent, sn.lower, Last(hits), hits)
  {
    var q := PendingWindow(sn);
    if hits != [] {
      assert Last(hits) in hits && Selects(q, w.docs, Last(hits));
    }
    assert forall k :: Meant(w.docs, sn.agent, k) && sn.lower < k <= sn.phase.upper && w.docs[k].expiration > w.now ==>
                         Selects(q, w.docs, k);
  }
}
