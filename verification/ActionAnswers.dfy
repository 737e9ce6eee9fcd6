/**
 What agents are given: a check-in's pending query answers with exactly the lowest of its due
 actions, and a check-in that waits is handed exactly its part of the next batch.
 */
module ActionAnswers {
  import opened Index
  import opened Dispatcher
  import opened ActionDelivery
  import opened ActionInvariant
  import opened Sets

  // ---------------------------------------------------------------- the lowest of a search

  function Members(ks: seq<int>): set<int> {
    set k | k in ks
  }

  lemma {:induction false} MembersSize(ks: seq<int>)
    requires Ascending(ks)
    ensures |Members(ks)| == |ks|
  {
    if ks != [] {
      var n := |ks| - 1;
      MembersSize(ks[..n]);
      assert ks == ks[..n] + [ks[n]];
      assert Members(ks) == Members(ks[..n]) + {ks[n]};
    }
  }

  /** The agent's documents above `lower` and up to `upper` that had not expired at `asOf`. */
  predicate Due(docs: Docs, agent: string, lower: int, upper: int, asOf: int, k: int) {
    k in docs && agent in docs[k].agents && lower < k <= upper && docs[k].expiration > asOf
  }

  function DueBelow(docs: Docs, agent: string, lower: int, upper: int, asOf: int, k: int): set<int> {
    set x | x in docs && Due(docs, agent, lower, upper, asOf, x) && x < k
  }

  /** Fewer than a hundred due documents come before it. */
  predicate AmongLowest(docs: Docs, agent: string, lower: int, upper: int, asOf: int, k: int) {
    Due(docs, agent, lower, upper, asOf, k) && |DueBelow(docs, agent, lower, upper, asOf, k)| < 100
  }

  lemma BelowHit(docs: Docs, agent: string, lower: int, upper: int, asOf: int, hits: seq<int>, i: nat)
    requires IsSearch(hits, docs, Window(lower, upper, Some(asOf), Some(agent)), 100) && i < |hits|
    ensures DueBelow(docs, agent, lower, upper, asOf, hits[i]) == Members(hits[..i])
  {
    var w := Window(lower, upper, Some(asOf), Some(agent));
    forall x | x in DueBelow(docs, agent, lower, upper, asOf, hits[i])
      ensures x in hits[..i]
    {
      assert Selects(w, docs, x);
      assert hits[i] in hits;
      var j :| 0 <= j < |hits| && hits[j] == x;
    }
    forall x | x in hits[..i]
      ensures x in DueBelow(docs, agent, lower, upper, asOf, hits[i])
    {
      var j :| 0 <= j < i && hits[j] == x;
      assert hits[j] in hits && Selects(w, docs, x);
    }
  }

  /** A search of a hundred finds exactly the hundred lowest. */
  lemma SearchIsLowest(docs: Docs, agent: string, lower: int, upper: int, asOf: int, hits: seq<int>, k: int)
    requires IsSearch(hits, docs, Window(lower, upper, Some(asOf), Some(agent)), 100)
    ensures k in hits <==> AmongLowest(docs, agent, lower, upper, asOf, k)
  {
    var w := Window(lower, upper, Some(asOf), Some(agent));
    if k in hits {
      assert Selects(w, docs, k);
      var i :| 0 <= i < |hits| && hits[i] == k;
      BelowHit(docs, agent, lower, upper, asOf, hits, i);
      MembersSize(hits[..i]);
    } else if Due(docs, agent, lower, upper, asOf, k) {
      assert Selects(w, docs, k);
      MembersSize(hits);
      assert forall x :: x in hits ==> Selects(w, docs, x);
      SubsetSize(Members(hits), DueBelow(docs, agent, lower, upper, asOf, k));
    }
  }

  // ---------------------------------------------------------------- the pending query

  /** What a check-in that has read clock and checkpoint is to be given. */
  predicate Wanted(docs: Docs, sn: Session, k: int)
    requires sn.phase.Checked?
  {
    AmongLowest(docs, sn.agent, sn.lower, sn.phase.upper, sn.phase.asOf, k)
  }

  /** One response more, with exactly the actions wanted, ascending, and the highest as its token. */
  ghost predicate AnswersWanted(s: State, s': State, sn: Session)
    requires sn.phase.Checked?
  {
    && |s'.responses| == |s.responses| + 1 && s'.responses[..|s.responses|] == s.responses
    && var r := s'.responses[|s.responses|];
       && r.agent == sn.agent && !r.received && Ascending(r.actions)
       && (forall k :: k in r.actions <==> Wanted(s.world.docs, sn, k))
       && r.token in r.actions && forall k :: k in r.actions ==> k <= r.token
  }

  lemma HitsWanted(docs: Docs, sn: Session, hits: seq<int>)
    requires sn.phase.Checked? && IsSearch(hits, docs, PendingWindow(sn), MAX_AGENT_ACTIONS)
    ensures forall k :: k in hits <==> Wanted(docs, sn, k)
    ensures AllReadable(docs, hits) <==> forall k :: Wanted(docs, sn, k) ==> docs[k].form != Broken
  {
    forall k
      ensures k in hits <==> Wanted(docs, sn, k)
    {
      SearchIsLowest(docs, sn.agent, sn.lower, sn.phase.upper, sn.phase.asOf, hits, k);
    }
    assert forall i :: 0 <= i < |hits| ==> hits[i] in hits;
  }

  lemma PendingNext(s: State, c: nat, hits: seq<int>, s': State)
    requires c in s.sessions && s.sessions[c].phase.Checked? && Next(s, Pending(c, hits), s')
    ensures IsSearch(hits, s.world.docs, PendingWindow(s.sessions[c]), MAX_AGENT_ACTIONS) && s' == Queried(s, c, hits)
  {
    assert SessionNext(s, Pending(c, hits), s');
  }

  lemma RespondsWanted(s: State, c: nat, hits: seq<int>)
    requires c in s.sessions && s.sessions[c].phase.Checked? && hits != [] && Ascending(hits)
    requires forall k :: k in hits <==> Wanted(s.world.docs, s.sessions[c], k)
    ensures AnswersWanted(s, Respond(s, c, hits), s.sessions[c])
  {
    assert Last(hits) in hits;
  }

  /** Without anything wanted the check-in waits, a broken document among what is wanted fails it, and
      otherwise it is answered with all of it. */
  ghost predicate GivesWanted(s: State, c: nat, s': State)
    requires c in s.sessions && s.sessions[c].phase.Checked?
  {
    var sn := s.sessions[c];
    && c in s'.sessions && s'.world == s.world
    && if forall k :: !Wanted(s.world.docs, sn, k) then
         s'.responses == s.responses && s'.sessions[c].phase == Polling(sn.phase.upper)
       else if exists k :: Wanted(s.world.docs, sn, k) && s.world.docs[k].form == Broken then
         s'.responses == s.responses && s'.sessions[c].phase == Answered
       else AnswersWanted(s, s', sn) && s'.sessions[c].phase == Answered
  }

  lemma QueriedGives(s: State, c: nat, hits: seq<int>)
    requires c in s.sessions && s.sessions[c].phase.Checked?
    requires IsSearch(hits, s.world.docs, PendingWindow(s.sessions[c]), MAX_AGENT_ACTIONS)
    ensures GivesWanted(s, c, Queried(s, c, hits))
  {
    HitsWanted(s.world.docs, s.sessions[c], hits);
    if hits != [] {
      assert hits[0] in hits;
      RespondsWanted(s, c, hits);
    }
  }

  /** What the pending query makes of a check-in. */
  lemma PendingAnswers(s: State, c: nat, hits: seq<int>, s': State)
    requires c in s.sessions && s.sessions[c].phase.Checked? && Next(s, Pending(c, hits), s')
    ensures GivesWanted(s, c, s')
  {
    PendingNext(s, c, hits, s');
    QueriedGives(s, c, hits);
  }

  lemma ArriveStep(s: State, i: nat, s': State)
    requires i < |s.responses| && Next(s, Arrive(i), s')
    ensures s'.responses == s.responses[i := s.responses[i].(received := true)] && s'.world == s.world
  {
    assert DeskNext(s, Arrive(i), s');
  }

  /** A response has reached the agent that has exactly the actions wanted, the highest as its token. */
  ghost predicate Given(responses: seq<Response>, docs: Docs, sn: Session)
    requires sn.phase.Checked?
  {
    exists i :: 0 <= i < |responses| && GivenIn(responses[i], docs, sn)
  }

  ghost predicate GivenIn(r: Response, docs: Docs, sn: Session)
    requires sn.phase.Checked?
  {
    && r.received && r.agent == sn.agent && (forall k :: k in r.actions <==> Wanted(docs, sn, k))
    && r.token in r.actions && forall k :: k in r.actions ==> k <= r.token
  }

  /** Once the answer arrives, the agent has everything wanted. */
  lemma PendingDelivered(s: State, c: nat, hits: seq<int>, s': State, s'': State)
    requires c in s.sessions && s.sessions[c].phase.Checked? && Next(s, Pending(c, hits), s')
    requires exists k :: Wanted(s.world.docs, s.sessions[c], k)
    requires forall k :: Wanted(s.world.docs, s.sessions[c], k) ==> s.world.docs[k].form != Broken
    requires Next(s', Arrive(|s.responses|), s'')
    ensures Given(s''.responses, s.world.docs, s.sessions[c])
    ensures forall k :: Wanted(s.world.docs, s.sessions[c], k) ==> Got(s''.responses, s.sessions[c].agent, k)
  {
    var n := |s.responses|;
    PendingAnswers(s, c, hits, s');
    ArriveStep(s', n, s'');
    assert GivenIn(s''.responses[n], s.world.docs, s.sessions[c]);
  }

  function AllDue(docs: Docs, sn: Session): set<int>
    requires sn.phase.Checked?
  {
    set x | x in docs && Due(docs, sn.agent, sn.lower, sn.phase.upper, sn.phase.asOf, x)
  }

  /** If no more than a hundred documents are due, all of them are wanted. */
  lemma FewDueAllWanted(docs: Docs, sn: Session)
    requires sn.phase.Checked? && |AllDue(docs, sn)| <= 100
    ensures forall k :: Due(docs, sn.agent, sn.lower, sn.phase.upper, sn.phase.asOf, k) ==> Wanted(docs, sn, k)
  {
    forall k | Due(docs, sn.agent, sn.lower, sn.phase.upper, sn.phase.asOf, k)
      ensures Wanted(docs, sn, k)
    {
      var below := DueBelow(docs, sn.agent, sn.lower, sn.phase.upper, sn.phase.asOf, k);
      assert |below + {k}| == |below| + 1;
      SubsetSize(below + {k}, AllDue(docs, sn));
    }
  }

  // ---------------------------------------------------------------- the record

  /** A sequence number noted and written down is where a check-in without a token may start. */
  lemma RecordedIsStart(s: State, c: nat, s1: State, s2: State, d: nat)
    requires c in s.sessions && s.sessions[c].lower >= 0
    requires Next(s, Note(c), s1) && Next(s1, Record(s.sessions[c].agent), s2)
    requires d !in s2.sessions && d !in s2.channels
    ensures var (agent, lower) := (s.sessions[c].agent, s.sessions[c].lower);
            && agent in s2.records && s2.records[agent] == lower
            && (forall a :: a != agent ==> (a in s2.records <==> a in s.records))
            && (forall a :: a != agent && a in s.records ==> s2.records[a] == s.records[a])
            && exists s3 :: Next(s2, Begin(d, agent, lower), s3) && d in s3.sessions && s3.sessions[d].lower == lower
  {
    var agent, lower := s.sessions[c].agent, s.sessions[c].lower;
    assert DeskNext(s, Note(c), s1) && DeskNext(s1, Record(agent), s2);
    var s3 := s2.(sessions := s2.sessions[d := Session(agent, lower, 0, Resolved)]);
    assert DeskNext(s2, Begin(d, agent, lower), s3);
  }

  /** A restart ends every check-in, and agents may start from exactly what they could start from
      before. */
  lemma RestartRemembers(s: State, s': State, agent: string, lower: int)
    requires Next(s, Restart, s')
    ensures s'.sessions == map[] && s'.subs == map[] && s'.noted == map[] && s'.responses == s.responses
    ensures MayStartFrom(s', agent, lower) <==> MayStartFrom(s, agent, lower)
    ensures !s'.feed.ready && s'.feed.queue == None && s'.feed.groups == map[] && s'.feed.parcel == None
  {
    assert FeedNext(s, Restart, s');
  }

  // ---------------------------------------------------------------- a check-in that waits

  /** What a batch has for an agent: the documents that mention it, in front of the first document of
      the batch that does not list its agents. */
  predicate InPart(docs: Docs, batch: seq<int>, agent: string, k: int) {
    && k in batch && k in docs && agent in docs[k].agents
    && forall x :: x in batch && x <= k ==> x in docs && docs[x].form == Listed
  }

  lemma PartMembers(docs: Docs, batch: seq<int>, agent: string, k: int)
    requires Ascending(batch) && forall x :: x in batch ==> x in docs
    ensures k in ActionsFor(Readable(HitsOf(docs, batch)), agent) <==> InPart(docs, batch, agent, k)
  {
    var hits := HitsOf(docs, batch);
    var n := FirstUnreadable(hits);
    ReadablePrefix(hits, n);
    ActionsForMembers(hits[..n], agent, k);
    PatternOf(docs, batch);
    if InPart(docs, batch, agent, k) {
      InFront(docs, batch, n, k);
    }
    if Mentioned(hits[..n], agent, k) {
      var i :| 0 <= i < n && hits[..n][i].seqNo == k && agent in hits[..n][i].agents;
      assert hits[i] == hits[..n][i] && batch[i] == k;
      AllInFront(docs, batch, i);
    }
  }

  lemma InFront(docs: Docs, batch: seq<int>, n: nat, k: int)
    requires Ascending(batch) && (forall x :: x in batch ==> x in docs) && n == FirstUnreadable(HitsOf(docs, batch))
    requires k in batch && forall x :: x in batch && x <= k ==> docs[x].form == Listed
    ensures exists i :: 0 <= i < n && HitsOf(docs, batch)[..n][i].seqNo == k
              && HitsOf(docs, batch)[..n][i].agents == docs[k].agents
  {
    var i :| 0 <= i < |batch| && batch[i] == k;
    assert forall j :: 0 <= j <= i ==> batch[j] in batch && batch[j] <= k;
    assert HitsOf(docs, batch)[..n][i] == HitsOf(docs, batch)[i];
  }

  lemma AllInFront(docs: Docs, batch: seq<int>, i: nat)
    requires Ascending(batch) && (forall x :: x in batch ==> x in docs)
    requires i < FirstUnreadable(HitsOf(docs, batch))
    ensures forall x :: x in batch && x <= batch[i] ==> docs[x].form == Listed
  {
    forall x | x in batch && x <= batch[i]
      ensures docs[x].form == Listed
    {
      var j :| 0 <= j < |batch| && batch[j] == x;
      assert j <= i;
      assert HitsOf(docs, batch)[j].readable;
    }
  }

  lemma SubscribeStep(s: State, c: nat, s': State)
    requires c in s.sessions && Next(s, Subscribe(c), s')
    ensures s.sessions[c].phase == Resolved && s' == Subscribed(s, c)
  {
    assert SessionNext(s, Subscribe(c), s');
  }

  lemma CheckStep(s: State, c: nat, asOf: int, s': State)
    requires c in s.sessions && Next(s, Check(c, asOf), s')
    ensures s' == WithPhase(s, c, Checked(s.feed.checkpoint, asOf))
  {
    assert SessionNext(s, Check(c, asOf), s');
  }

  lemma PendingStep(s: State, c: nat, s': State)
    requires c in s.sessions && Next(s, Pending(c, []), s')
    ensures s.sessions[c].phase.Checked? && s' == WithPhase(s, c, Polling(s.sessions[c].phase.upper))
  {
    assert SessionNext(s, Pending(c, []), s');
  }

  lemma PublishStep(s: State, batch: seq<int>, upTo: int, asOf: int, s': State)
    requires Next(s, Publish(batch, upTo, asOf), s')
    ensures CanPublish(s.world, s.feed, s.fetchSize, batch, upTo, asOf)
    ensures s' == s.(feed := s.feed.(queue := Some(batch), sent := Last(batch)))
  {
    assert FeedNext(s, Publish(batch, upTo, asOf), s');
  }

  lemma TakeStep(s: State, groups: map<string, seq<int>>, s': State)
    requires Next(s, Take(groups), s')
    ensures CanTake(s.world, s.feed, groups) && s' == s.(feed := TakeBatch(s.feed, groups))
  {
    assert FeedNext(s, Take(groups), s');
  }

  lemma LookStep(s: State, agent: string, s': State)
    requires Next(s, Look(agent), s')
    ensures agent in s.feed.groups && s' == s.(feed := Looked(s.feed, s.subs, agent))
  {
    assert FeedNext(s, Look(agent), s');
  }

  lemma HandStep(s: State, s': State)
    requires Next(s, Hand, s')
    ensures s.feed.parcel.Some? && s.feed.parcel.value.ch in s.channels && s' == Handed(s)
  {
    assert FeedNext(s, Hand, s');
  }

  lemma ReceiveStep(s: State, c: nat, s': State)
    requires Next(s, Receive(c), s')
    ensures c in s.sessions && c in s.channels && s.channels[c].Some? && s.channels[c].value != []
    ensures s' == Respond(s, c, s.channels[c].value).(channels := s.channels[c := None])
  {
    assert SessionNext(s, Receive(c), s');
  }

  /** A check-in that listens, and has read and found nothing. */
  ghost predicate Waits(s: State, c: nat, agent: string) {
    && c in s.sessions && s.sessions[c].agent == agent && s.sessions[c].phase.Polling?
    && ListensOn(s.subs, agent, c) && c in s.channels && s.channels[c] == None
  }

  /** Subscribing, reading the checkpoint and finding nothing makes a check-in wait. */
  lemma CheckinWaits(s: State, c: nat, asOf: int, s1: State, s2: State, s3: State)
    requires c in s.sessions
    requires Next(s, Subscribe(c), s1) && Next(s1, Check(c, asOf), s2) && Next(s2, Pending(c, []), s3)
    ensures Waits(s3, c, s.sessions[c].agent) && s3.feed == s.feed && s3.world == s.world
    ensures s3.responses == s.responses
  {
    SubscribeStep(s, c, s1);
    CheckStep(s1, c, asOf, s2);
    PendingStep(s2, c, s3);
  }

  /** A batch is taken, the agent's subscription is looked up, and the part is sent. */
  lemma HandsOut(s: State, c: nat, agent: string, groups: map<string, seq<int>>, s1: State, s2: State, s3: State)
    requires Waits(s, c, agent)
    requires Next(s, Take(groups), s1) && Next(s1, Look(agent), s2) && Next(s2, Hand, s3)
    ensures s.feed.queue.Some? && agent in groups
    ensures groups[agent] == ActionsFor(Readable(HitsOf(s.world.docs, s.feed.queue.value)), agent)
    ensures s3.sessions == s.sessions && s3.responses == s.responses && s3.world == s.world
    ensures c in s3.channels && s3.channels[c] == Some(groups[agent])
  {
    TakeStep(s, groups, s1);
    LookStep(s1, agent, s2);
    HandStep(s2, s3);
    assert At(groups, agent) == groups[agent];
  }

  /** A response has reached the agent with exactly its part of the batch. */
  ghost predicate GivenPart(responses: seq<Response>, docs: Docs, batch: seq<int>, agent: string) {
    exists i :: 0 <= i < |responses| && GivenPartIn(responses[i], docs, batch, agent)
  }

  ghost predicate GivenPartIn(r: Response, docs: Docs, batch: seq<int>, agent: string) {
    && r.received && r.agent == agent && (forall k :: k in r.actions <==> InPart(docs, batch, agent, k))
    && r.token in r.actions && forall k :: k in r.actions ==> k <= r.token
  }

  /** A check-in that waits answers with what it receives. */
  lemma Receives(s: State, c: nat, agent: string, part: seq<int>, s1: State, s2: State)
    requires c in s.sessions && s.sessions[c].agent == agent && c in s.channels && s.channels[c] == Some(part)
    requires Next(s, Receive(c), s1) && Next(s1, Arrive(|s.responses|), s2)
    ensures part != [] && s2.world == s.world
    ensures |s2.responses| == |s.responses| + 1
    ensures s2.responses[|s.responses|] == Response(agent, part, Last(part), true)
  {
    ReceiveStep(s, c, s1);
    ArriveStep(s1, |s.responses|, s2);
  }

  lemma PartGiven(w: World, from: int, batch: seq<int>, agent: string, part: seq<int>)
    requires QueueInv(w, from, batch) && part == ActionsFor(Readable(HitsOf(w.docs, batch)), agent) && part != []
    ensures GivenPartIn(Response(agent, part, Last(part), true), w.docs, batch, agent)
  {
    PartBounds(w, from, batch, agent);
    forall k
      ensures k in part <==> InPart(w.docs, batch, agent, k)
    {
      PartMembers(w.docs, batch, agent, k);
    }
    assert Last(part) in part;
  }

  /** The way of a batch to a check-in that waits: published, taken, handed over, received and arrived,
      it gives the agent exactly its part. */
  lemma WaitingDelivered(s: State, c: nat, agent: string, groups: map<string, seq<int>>,
                         s1: State, s2: State, s3: State, s4: State, s5: State)
    requires Inv(s) && Waits(s, c, agent)
    requires Next(s, Take(groups), s1) && Next(s1, Look(agent), s2) && Next(s2, Hand, s3)
    requires Next(s3, Receive(c), s4) && Next(s4, Arrive(|s.responses|), s5)
    ensures s.feed.queue.Some? && GivenPart(s5.responses, s.world.docs, s.feed.queue.value, agent)
  {
    HandsOut(s, c, agent, groups, s1, s2, s3);
    Receives(s3, c, agent, groups[agent], s4, s5);
    PartGiven(s.world, s.feed.hi, s.feed.queue.value, agent, groups[agent]);
    assert GivenPartIn(s5.responses[|s.responses|], s.world.docs, s.feed.queue.value, agent);
  }

  /** What a page of the monitor's search has: everything above the checkpoint that is live, up to its
      last document, and nothing else. */
  lemma PublishedPage(s: State, batch: seq<int>, upTo: int, asOf: int, s': State)
    requires Next(s, Publish(batch, upTo, asOf), s')
    ensures batch != [] && s' == s.(feed := s'.feed) && s'.feed.queue == Some(batch)
    ensures QueueInv(s.world, s.feed.checkpoint, batch)
    ensures forall k :: k in batch <==>
              && k in s.world.docs && s.feed.checkpoint < k <= Last(batch)
              && s.world.docs[k].expiration > asOf
  {
    PublishStep(s, batch, upTo, asOf, s');
    var q := Window(s.feed.checkpoint, upTo, Some(asOf), None);
    assert Last(batch) in batch && Selects(q, s.world.docs, Last(batch));
    assert forall k ::
        k in s.world.docs && s.feed.checkpoint < k <= Last(batch) && s.world.docs[k].expiration > asOf ==>
          Selects(q, s.world.docs, k);
    assert forall k :: k in batch ==> k <= Last(batch) && Selects(q, s.world.docs, k);
  }

  /** Live above the checkpoint, and so is nothing in front of it that does not list its agents. */
  ghost predicate Reachable(docs: Docs, agent: string, checkpoint: int, asOf: int, k: int) {
    && k in docs && agent in docs[k].agents && checkpoint < k && docs[k].expiration > asOf
    && forall x :: x in docs && checkpoint < x <= k && docs[x].expiration > asOf ==> docs[x].form == Listed
  }

  lemma HandsOutPublished(s: State, c: nat, agent: string, batch: seq<int>, upTo: int, asOf: int,
                          groups: map<string, seq<int>>, s1: State, s2: State, s3: State, s4: State)
    requires Waits(s, c, agent) && Next(s, Publish(batch, upTo, asOf), s1)
    requires Next(s1, Take(groups), s2) && Next(s2, Look(agent), s3) && Next(s3, Hand, s4)
    ensures batch != [] && s4.sessions == s.sessions && s4.responses == s.responses && s4.world == s.world
    ensures c in s4.sessions && s4.sessions[c].agent == agent && c in s4.channels && s4.channels[c].Some?
    ensures s4.channels[c].value != [] ==>
              var part := s4.channels[c].value;
              GivenPartIn(Response(agent, part, Last(part), true), s.world.docs, batch, agent)
  {
    PublishedPage(s, batch, upTo, asOf, s1);
    HandsOut(s1, c, agent, groups, s2, s3, s4);
    if groups[agent] != [] {
      PartGiven(s.world, s.feed.checkpoint, batch, agent, groups[agent]);
    }
  }

  /** From subscribing to the answer: whatever is published while the check-in waits reaches the agent,
      up to the last document of the batch. */
  lemma LongPollDelivers(s: State, c: nat, read: int, batch: seq<int>, upTo: int, asOf: int,
                         groups: map<string, seq<int>>, s1: State, s2: State, s3: State, s4: State,
                         s5: State, s6: State, s7: State, s8: State, s9: State)
    requires c in s.sessions
    requires Next(s, Subscribe(c), s1) && Next(s1, Check(c, read), s2) && Next(s2, Pending(c, []), s3)
    requires Next(s3, Publish(batch, upTo, asOf), s4) && Next(s4, Take(groups), s5)
    requires Next(s5, Look(s.sessions[c].agent), s6) && Next(s6, Hand, s7)
    requires Next(s7, Receive(c), s8) && Next(s8, Arrive(|s.responses|), s9)
    ensures batch != []
    ensures forall k ::
              Reachable(s.world.docs, s.sessions[c].agent, s.feed.checkpoint, asOf, k) && k <= Last(batch) ==>
                Got(s9.responses, s.sessions[c].agent, k)
  {
    var agent := s.sessions[c].agent;
    CheckinWaits(s, c, read, s1, s2, s3);
    PublishedPage(s3, batch, upTo, asOf, s4);
    HandsOutPublished(s3, c, agent, batch, upTo, asOf, groups, s4, s5, s6, s7);
    Receives(s7, c, agent, s7.channels[c].value, s8, s9);
    var r := s9.responses[|s.responses|];
    forall k | Reachable(s.world.docs, agent, s.feed.checkpoint, asOf, k) && k <= Last(batch)
      ensures Got(s9.responses, agent, k)
    {
      assert InPart(s.world.docs, batch, agent, k);
      assert k in r.actions;
    }
  }

  lemma HangUpStep(s: State, c: nat, s': State)
    requires Next(s, HangUp(c), s')
    ensures c in s.sessions && s' == s.(subs := s.subs - {s.sessions[c].agent}, sessions := s.sessions - {c})
  {
    assert DeskNext(s, HangUp(c), s');
  }

  /** After a check-in has hung up, its agent's part of a batch is dropped, whichever check-in of the
      agent that was. */
  lemma HungUpNotServed(s: State, c: nat, s1: State, s2: State)
    requires c in s.sessions && Next(s, HangUp(c), s1) && Next(s1, Look(s.sessions[c].agent), s2)
    ensures c !in s2.sessions && s2.feed.parcel == None && s2.channels == s.channels
    ensures s.sessions[c].agent !in s2.feed.groups
  {
    HangUpStep(s, c, s1);
    LookStep(s1, s.sessions[c].agent, s2);
  }
}
