/**
 Acknowledgement of policy changes: the acks of one request are reduced to the newest revision of
 the agent's policy, and the agent record is updated by a script that checks the policy id again.
 */
module Ack {
  import opened Index
  import opened Picks
  import opened Decimal
  import opened Revision
  import opened PolicyMonitor

  datatype Agent = Agent(id: string, policyId: string, revisionIdx: int, coordinatorIdx: int)

  datatype Event = Event(agentId: string, actionId: string, error: string)

  datatype Kind = Unenroll | Upgrade | Other

  /** The answer of the action lookup, from the cache or from the index. */
  datatype Lookup = Found(kind: Kind) | NotFound | LookupFailed

  /** What the stores answer while a request is handled: the lookup of the n-th event's action,
      whether the writes made for that event go through, and whether those made after all events do. */
  datatype Stores = Stores(
    find: nat -> Lookup, resultStored: nat -> bool, upgradeStored: nat -> bool,
    recordStored: bool, unenrolStored: bool)

  datatype Refusal = AgentMismatch | NoMatchingAction | StoreError

  /** A guarded update of the agent record. */
  datatype Update = Update(policyId: string, revisionIdx: int, coordinatorIdx: int)

  const POLICY_PREFIX := "policy:"

  predicate IsPolicyAck(ev: Event) {
    POLICY_PREFIX <= ev.actionId
  }

  /** The acks of a request that say a policy change was applied. */
  function PolicyAcks(events: seq<Event>): seq<string> {
    if events == [] then []
    else
      var ev := events[|events| - 1];
      PolicyAcks(events[..|events| - 1]) + if IsPolicyAck(ev) && ev.error == "" then [ev.actionId] else []
  }

  /** The actions a request stores results for. */
  function ResultsOf(events: seq<Event>): seq<string> {
    if events == [] then []
    else
      var ev := events[|events| - 1];
      ResultsOf(events[..|events| - 1]) + if IsPolicyAck(ev) then [] else [ev.actionId]
  }

  predicate Unenrolls(ev: Event, n: nat, st: Stores) {
    !IsPolicyAck(ev) && ev.error == "" && st.find(n) == Found(Unenroll)
  }

  /** Why event `n` stops the request, if it does. */
  function Refused(agent: Agent, ev: Event, n: nat, st: Stores): Option<Refusal> {
    if ev.agentId != "" && ev.agentId != agent.id then Some(AgentMismatch)
    else if IsPolicyAck(ev) then None
    else match st.find(n)
      case LookupFailed => Some(StoreError)
      case NotFound => Some(NoMatchingAction)
      case Found(kind) =>
        if !st.resultStored(n) || (ev.error == "" && kind == Upgrade && !st.upgradeStored(n)) then Some(StoreError)
        else None
  }

  /** An event that does not stop the request: it is the agent's own, and either acks a policy, which
      its action id says, or is about an action that is found, whose result is stored and whose upgrade,
      if it went well, is noted. */
  predicate Fine(agent: Agent, ev: Event, n: nat, st: Stores) {
    && (ev.agentId == "" || ev.agentId == agent.id)
    && ("policy:" <= ev.actionId
        || (st.find(n).Found? && st.resultStored(n)
            && (ev.error == "" && st.find(n).kind == Upgrade ==> st.upgradeStored(n))))
  }

  /** Which refusal an event gets. */
  lemma RefusalMeans(agent: Agent, ev: Event, n: nat, st: Stores)
    ensures Refused(agent, ev, n, st) == None <==> Fine(agent, ev, n, st)
    ensures Refused(agent, ev, n, st) == Some(AgentMismatch) <==> ev.agentId != "" && ev.agentId != agent.id
    ensures Refused(agent, ev, n, st) == Some(NoMatchingAction) <==>
              (ev.agentId == "" || ev.agentId == agent.id) && !("policy:" <= ev.actionId) && st.find(n) == NotFound
  {
  }

  datatype Handled = Handled(refused: Option<Refusal>, results: seq<string>, policyAcks: seq<string>, unenroll: bool)

  /** The result of event `n` is stored, even if the event is refused afterwards. */
  predicate Stored(agent: Agent, ev: Event, n: nat, st: Stores) {
    (ev.agentId == "" || ev.agentId == agent.id) && !IsPolicyAck(ev) && st.find(n).Found? && st.resultStored(n)
  }

  /** Event `n` is the first the request could not handle; results are stored up to there. */
  ghost predicate StoppedAt(agent: Agent, events: seq<Event>, st: Stores, h: Handled, n: nat)
    requires n < |events|
  {
    && h.refused == Refused(agent, events[n], n, st)
    && (forall m :: 0 <= m < n ==> Refused(agent, events[m], m, st).None?)
    && h.results == ResultsOf(events[..n]) + (if Stored(agent, events[n], n, st) then [events[n].actionId] else [])
    && h.policyAcks == [] && !h.unenroll
  }

  /** What comes of a request: everything is acted on if no event is refused; otherwise the results
      stored before the refusal stay stored, and neither acks nor unenrolment are acted on. */
  ghost predicate IsHandled(agent: Agent, events: seq<Event>, st: Stores, h: Handled) {
    && (h.refused.None? <==> forall n :: 0 <= n < |events| ==> Refused(agent, events[n], n, st).None?)
    && (h.refused.None? ==>
          && h.policyAcks == PolicyAcks(events) && h.results == ResultsOf(events)
          && (h.unenroll <==> exists n :: 0 <= n < |events| && Unenrolls(events[n], n, st)))
    && (h.refused.Some? ==> exists n :: 0 <= n < |events| && StoppedAt(agent, events, st, h, n))
  }

  predicate LeavesBy(events: seq<Event>, st: Stores, n: nat)
    requires n <= |events|
  {
    exists m :: 0 <= m < n && Unenrolls(events[m], m, st)
  }

  lemma OneMoreEvent(events: seq<Event>, st: Stores, n: nat)
    requires n < |events|
    ensures PolicyAcks(events[..n + 1])
            == PolicyAcks(events[..n])
               + if IsPolicyAck(events[n]) && events[n].error == "" then [events[n].actionId] else []
    ensures ResultsOf(events[..n + 1])
            == ResultsOf(events[..n]) + if IsPolicyAck(events[n]) then [] else [events[n].actionId]
    ensures LeavesBy(events, st, n + 1) <==> LeavesBy(events, st, n) || Unenrolls(events[n], n, st)
  {
    assert events[..n + 1][..n] == events[..n];
  }

  /** The loop over the events of one request, which stops at the first event it cannot handle. */
  method HandleEvents(agent: Agent, events: seq<Event>, st: Stores) returns (h: Handled)
    ensures IsHandled(agent, events, st, h)
  {
    var results: seq<string>, acks: seq<string>, unenroll := [], [], false;
    for n := 0 to |events|
      invariant forall m :: 0 <= m < n ==> Refused(agent, events[m], m, st).None?
      invariant acks == PolicyAcks(events[..n]) && results == ResultsOf(events[..n])
      invariant unenroll <==> LeavesBy(events, st, n)
    {
      var ev := events[n];
      OneMoreEvent(events, st, n);
      if ev.agentId != "" && ev.agentId != agent.id {
        h := Handled(Some(AgentMismatch), results, [], false);
        assert StoppedAt(agent, events, st, h, n);
        return;
      }
      if IsPolicyAck(ev) {
        if ev.error == "" {
          acks := acks + [ev.actionId];
        }
        continue;
      }
      var refusal, stored, leaves := HandleAction(agent, ev, n, st);
      if stored {
        results := results + [ev.actionId];
      }
      if refusal.Some? {
        h := Handled(refusal, results, [], false);
        assert StoppedAt(agent, events, st, h, n);
        return;
      }
      unenroll := unenroll || leaves;
    }
    assert events[..|events|] == events;
    h := Handled(None, results, acks, unenroll);
  }

  /** An event about an action: look it up, store the result, and act on an upgrade. */
  method HandleAction(agent: Agent, ev: Event, n: nat, st: Stores)
    returns (refusal: Option<Refusal>, stored: bool, unenroll: bool)
    requires !IsPolicyAck(ev) && (ev.agentId == "" || ev.agentId == agent.id)
    ensures refusal == Refused(agent, ev, n, st)
    ensures refusal.None? ==> stored && (unenroll <==> Unenrolls(ev, n, st))
    ensures stored <==> Stored(agent, ev, n, st)
  {
    refusal, stored, unenroll := None, false, false;
    var action := st.find(n);
    if action == LookupFailed {
      return Some(StoreError), stored, unenroll;
    }
    if action == NotFound {
      return Some(NoMatchingAction), stored, unenroll;
    }
    if !st.resultStored(n) {
      return Some(StoreError), stored, unenroll;
    }
    stored := true;
    if ev.error == "" {
      if action.kind == Unenroll {
        unenroll := true;
      } else if action.kind == Upgrade {
        if !st.upgradeStored(n) {
          return Some(StoreError), stored, unenroll;
        }
      }
    }
  }

  /** A well-formed ack of the agent's policy. */
  predicate Counts(agent: Agent, actionId: string) {
    FromString(actionId).Some? && FromString(actionId).value.policyId == agent.policyId
  }

  /** The winner is the newest of the agent's current pair and all acks that count; there is one to
      record if and only if some ack is newer than the current pair. */
  ghost predicate IsWinner(agent: Agent, actionIds: seq<string>, winner: Option<Update>) {
    match winner
    case None =>
      forall a :: a in actionIds && Counts(agent, a) ==>
        var r := FromString(a).value;
        !Newer(r.revisionIdx, r.coordinatorIdx, agent.revisionIdx, agent.coordinatorIdx)
    case Some(u) =>
      && u.policyId == agent.policyId
      && Newer(u.revisionIdx, u.coordinatorIdx, agent.revisionIdx, agent.coordinatorIdx)
      && (exists a :: a in actionIds && FromString(a) == Some(Revision(u.policyId, u.revisionIdx, u.coordinatorIdx)))
      && (forall a :: a in actionIds && Counts(agent, a) ==>
            var r := FromString(a).value;
            !Newer(r.revisionIdx, r.coordinatorIdx, u.revisionIdx, u.coordinatorIdx))
  }

  method PickWinner(agent: Agent, actionIds: seq<string>) returns (winner: Option<Update>)
    ensures IsWinner(agent, actionIds, winner)
  {
    var found := false;
    var currRev, currCoord := agent.revisionIdx, agent.coordinatorIdx;
    for n := 0 to |actionIds|
      invariant !found ==> currRev == agent.revisionIdx && currCoord == agent.coordinatorIdx
      invariant found ==>
                  && Newer(currRev, currCoord, agent.revisionIdx, agent.coordinatorIdx)
                  && exists m ::
                       0 <= m < n && FromString(actionIds[m]) == Some(Revision(agent.policyId, currRev, currCoord))
      invariant forall m :: 0 <= m < n && Counts(agent, actionIds[m]) ==>
                  var r := FromString(actionIds[m]).value;
                  !Newer(r.revisionIdx, r.coordinatorIdx, currRev, currCoord)
    {
      var rev := FromString(actionIds[n]);
      if rev.Some? && rev.value.policyId == agent.policyId &&
         (rev.value.revisionIdx > currRev
           || (rev.value.revisionIdx == currRev && rev.value.coordinatorIdx > currCoord)) {
        found := true;
        currRev, currCoord := rev.value.revisionIdx, rev.value.coordinatorIdx;
        assert FromString(actionIds[n]) == Some(Revision(agent.policyId, currRev, currCoord));
      }
    }
    if !found {
      return None;
    }
    winner := Some(Update(agent.policyId, currRev, currCoord));
  }

  /** There is only one winner. */
  lemma WinnerUnique(agent: Agent, actionIds: seq<string>, a: Option<Update>, b: Option<Update>)
    requires IsWinner(agent, actionIds, a) && IsWinner(agent, actionIds, b)
    ensures a == b
  {
    if a.Some? {
      var x :| x in actionIds
               && FromString(x) == Some(Revision(a.value.policyId, a.value.revisionIdx, a.value.coordinatorIdx));
      assert Counts(agent, x);
    }
    if b.Some? {
      var y :| y in actionIds
               && FromString(y) == Some(Revision(b.value.policyId, b.value.revisionIdx, b.value.coordinatorIdx));
      assert Counts(agent, y);
    }
  }

  /** The update script: it writes only if the record still has the policy id it was made for. */
  function Apply(record: Agent, u: Update): Agent {
    if record.policyId == u.policyId then record.(revisionIdx := u.revisionIdx, coordinatorIdx := u.coordinatorIdx)
    else record
  }

  function ApplyWinner(record: Agent, winner: Option<Update>): Agent {
    if winner.Some? then Apply(record, winner.value) else record
  }

  // ---------------------------------------------------------------- delivered, acked, not redelivered

  lemma {:induction false} AckAmong(events: seq<Event>, n: nat)
    requires n < |events| && IsPolicyAck(events[n]) && events[n].error == ""
    ensures events[n].actionId in PolicyAcks(events)
  {
    if n < |events| - 1 {
      AckAmong(events[..|events| - 1], n);
    }
  }

  /** An error-free policy ack is acted on if and only if no event of its request is refused. */
  lemma AckCollected(agent: Agent, events: seq<Event>, st: Stores, h: Handled, n: nat)
    requires IsHandled(agent, events, st, h)
    requires n < |events| && IsPolicyAck(events[n]) && events[n].error == ""
    ensures events[n].actionId in h.policyAcks <==> h.refused.None?
  {
    AckAmong(events, n);
  }

  function RevisionOf(p: Policy): Revision {
    Revision(p.id, p.revisionIdx, p.coordinatorIdx)
  }

  lemma ActionIdIsPolicyAck(r: Revision)
    ensures POLICY_PREFIX <= String(r)
  {
    JoinFour("policy", r.policyId, Print(r.revisionIdx), Print(r.coordinatorIdx));
    assert "policy" + [SEPARATOR] == POLICY_PREFIX;
  }

  ghost predicate AllHandled(agent: Agent, events: seq<Event>, st: Stores) {
    forall n :: 0 <= n < |events| ==> Fine(agent, events[n], n, st)
  }

  /** Some error-free policy ack of the request is newer than the record. */
  ghost predicate Advances(agent: Agent, events: seq<Event>) {
    exists n :: 0 <= n < |events| && "policy:" <= events[n].actionId && events[n].error == ""
                && AckIsNewer(agent, events[n].actionId)
  }

  predicate AckIsNewer(agent: Agent, a: string) {
    && FromString(a).Some?
    && var r := FromString(a).value;
       && r.policyId == agent.policyId
       && (r.revisionIdx > agent.revisionIdx
           || (r.revisionIdx == agent.revisionIdx && r.coordinatorIdx > agent.coordinatorIdx))
  }

  /** Some event reports that an unenrolment went well. */
  ghost predicate Leaves(events: seq<Event>, st: Stores) {
    exists n :: 0 <= n < |events| && !("policy:" <= events[n].actionId) && events[n].error == ""
                && st.find(n) == Found(Unenroll)
  }

  lemma LeavesMeans(events: seq<Event>, st: Stores)
    ensures Leaves(events, st) <==> exists n :: 0 <= n < |events| && Unenrolls(events[n], n, st)
  {
    if n :| 0 <= n < |events| && !("policy:" <= events[n].actionId) && events[n].error == ""
            && st.find(n) == Found(Unenroll) {
      assert Unenrolls(events[n], n, st);
    }
  }

  lemma HandledMeans(agent: Agent, events: seq<Event>, st: Stores)
    ensures AllHandled(agent, events, st) <==>
              forall n :: 0 <= n < |events| ==> Refused(agent, events[n], n, st).None?
  {
    forall n | 0 <= n < |events|
      ensures Refused(agent, events[n], n, st) == None <==> Fine(agent, events[n], n, st)
    {
      RefusalMeans(agent, events[n], n, st);
    }
  }

  function IsAppliedAck(events: seq<Event>): nat -> bool {
    (n: nat) => n < |events| && "policy:" <= events[n].actionId && events[n].error == ""
  }

  function IsResult(events: seq<Event>): nat -> bool {
    (n: nat) => n < |events| && !("policy:" <= events[n].actionId)
  }

  /** `ids` are the action ids of the events at these positions. */
  predicate IdsAt(ids: seq<string>, events: seq<Event>, at: seq<nat>) {
    |ids| == |at| && forall j :: 0 <= j < |at| ==> at[j] < |events| && ids[j] == events[at[j]].actionId
  }

  ghost predicate Picked(ids: seq<string>, events: seq<Event>, n: nat, p: nat -> bool, at: seq<nat>) {
    IsPick(at, n, p) && IdsAt(ids, events, at)
  }

  lemma PickedNext(ids: seq<string>, events: seq<Event>, n: nat, p: nat -> bool, at: seq<nat>)
    requires n < |events| && Picked(ids, events, n, p, at)
    ensures if p(n) then Picked(ids + [events[n].actionId], events, n + 1, p, at + [n])
            else Picked(ids, events, n + 1, p, at)
  {
    PickNext(at, n, p);
  }

  /** The acks collected are the ids of the error-free policy acks, in order, each once. */
  lemma {:induction false} AcksPicked(events: seq<Event>, st: Stores, n: nat) returns (at: seq<nat>)
    requires n <= |events|
    ensures Picked(PolicyAcks(events[..n]), events, n, IsAppliedAck(events), at)
  {
    at := [];
    if n > 0 {
      at := AcksPicked(events, st, n - 1);
      at := AckStep(PolicyAcks(events[..n - 1]), PolicyAcks(events[..n]), events, st, n - 1, at);
    }
  }

  lemma AckStep(ids: seq<string>, ids': seq<string>, events: seq<Event>, st: Stores, n: nat, at: seq<nat>)
    returns (at': seq<nat>)
    requires n < |events| && ids == PolicyAcks(events[..n]) && ids' == PolicyAcks(events[..n + 1])
    requires Picked(ids, events, n, IsAppliedAck(events), at)
    ensures Picked(ids', events, n + 1, IsAppliedAck(events), at')
  {
    OneMoreEvent(events, st, n);
    PickedNext(ids, events, n, IsAppliedAck(events), at);
    at' := if IsAppliedAck(events)(n) then at + [n] else at;
  }

  /** The results stored are those of the other events, in order, each once. */
  lemma {:induction false} ResultsPicked(events: seq<Event>, st: Stores, n: nat) returns (at: seq<nat>)
    requires n <= |events|
    ensures Picked(ResultsOf(events[..n]), events, n, IsResult(events), at)
  {
    at := [];
    if n > 0 {
      at := ResultsPicked(events, st, n - 1);
      at := ResultStep(ResultsOf(events[..n - 1]), ResultsOf(events[..n]), events, st, n - 1, at);
    }
  }

  lemma ResultStep(ids: seq<string>, ids': seq<string>, events: seq<Event>, st: Stores, n: nat, at: seq<nat>)
    returns (at': seq<nat>)
    requires n < |events| && ids == ResultsOf(events[..n]) && ids' == ResultsOf(events[..n + 1])
    requires Picked(ids, events, n, IsResult(events), at)
    ensures Picked(ids', events, n + 1, IsResult(events), at')
  {
    OneMoreEvent(events, st, n);
    PickedNext(ids, events, n, IsResult(events), at);
    at' := if IsResult(events)(n) then at + [n] else at;
  }

  datatype Outcome = Outcome(refused: Option<Refusal>, results: seq<string>, record: Agent, unenrolled: bool)

  /** What a request leaves behind.  It succeeds if and only if every event is handled and each write
      it needs goes through; the record becomes that of the newest ack if and only if every event is
      handled, an ack is newer, and the write goes through; and it unenrols only after that. */
  ghost predicate IsOutcome(agent: Agent, events: seq<Event>, st: Stores, o: Outcome) {
    && (o.refused.None? <==>
          && AllHandled(agent, events, st)
          && (Advances(agent, events) ==> st.recordStored) && (Leaves(events, st) ==> st.unenrolStored))
    && (if AllHandled(agent, events, st) && Advances(agent, events) && st.recordStored
        then exists u :: IsWinner(agent, PolicyAcks(events), Some(u)) && o.record == ApplyWinner(agent, Some(u))
        else o.record == agent)
    && (o.unenrolled <==> o.refused.None? && Leaves(events, st))
    && (exists h :: IsHandled(agent, events, st, h) && Follows(o, h))
  }

  /** Results and refusal are those of the events; a write after them that fails is a store error. */
  predicate Follows(o: Outcome, h: Handled) {
    o.results == h.results && (o.refused.Some? ==> o.refused == if h.refused.Some? then h.refused else Some(StoreError))
  }

  lemma {:induction false} AckFrom(events: seq<Event>, a: string) returns (n: nat)
    requires a in PolicyAcks(events)
    ensures n < |events| && IsPolicyAck(events[n]) && events[n].error == "" && events[n].actionId == a
  {
    n := |events| - 1;
    if a in PolicyAcks(events[..n]) {
      n := AckFrom(events[..n], a);
    }
  }

  /** There is a winner if and only if some ack is newer. */
  lemma WinnerAdvances(agent: Agent, events: seq<Event>, winner: Option<Update>)
    requires IsWinner(agent, PolicyAcks(events), winner)
    ensures winner.Some? <==> Advances(agent, events)
  {
    if winner.Some? {
      var a :| a in PolicyAcks(events) && AckIsNewer(agent, a);
      var n := AckFrom(events, a);
      assert AckIsNewer(agent, events[n].actionId);
    } else if Advances(agent, events) {
      var n :| 0 <= n < |events| && IsPolicyAck(events[n]) && events[n].error == ""
               && AckIsNewer(agent, events[n].actionId);
      AckAmong(events, n);
    }
  }

  /** A request with its events: the acks are acted on once all events are handled, and the agent is
      unenrolled last. */
  method HandleAckEvents(agent: Agent, events: seq<Event>, st: Stores) returns (o: Outcome)
    ensures IsOutcome(agent, events, st, o)
  {
    var h := HandleEvents(agent, events, st);
    HandledMeans(agent, events, st);
    LeavesMeans(events, st);
    if h.refused.Some? {
      return Outcome(h.refused, h.results, agent, false);
    }
    var winner := PickWinner(agent, h.policyAcks);
    WinnerAdvances(agent, events, winner);
    if winner.Some? && !st.recordStored {
      return Outcome(Some(StoreError), h.results, agent, false);
    }
    var record := ApplyWinner(agent, winner);
    if h.unenroll && !st.unenrolStored {
      return Outcome(Some(StoreError), h.results, record, false);
    }
    o := Outcome(None, h.results, record, h.unenroll);
  }

  /** A policy delivered to a check-in is acked without error, in a request with any other events.
      After the request the policy is not delivered again, to a subscription with the recorded pair,
      if and only if its id has no colon, every event was handled and the record written, or the
      record was at or above the policy before; and in the first case only strictly newer policies
      are delivered. */
  lemma DeliveredAckedNotRedelivered(agent: Agent, p: Policy, events: seq<Event>, st: Stores, n: nat,
                                     o: Outcome, next: Sub)
    requires IsInt64(p.revisionIdx) && IsInt64(p.coordinatorIdx)
    requires p.id == agent.policyId && p.coordinatorIdx > 0
    requires n < |events| && events[n].actionId == String(RevisionOf(p)) && events[n].error == ""
    requires IsOutcome(agent, events, st, o)
    requires next.policyId == o.record.policyId && next.revIdx == o.record.revisionIdx
    requires next.coordIdx == o.record.coordinatorIdx
    ensures var acted := SEPARATOR !in p.id && AllHandled(agent, events, st) && st.recordStored;
            && (!Fires(p, next) <==>
                  acted || !Newer(p.revisionIdx, p.coordinatorIdx, agent.revisionIdx, agent.coordinatorIdx))
            && (acted ==> forall q :: Fires(q, next) ==> NewerPolicy(q, p))
  {
    ActionIdIsPolicyAck(RevisionOf(p));
    AckAmong(events, n);
    if SEPARATOR !in p.id {
      RoundTrip(RevisionOf(p));
      assert Counts(agent, events[n].actionId);
      assert Newer(p.revisionIdx, p.coordinatorIdx, agent.revisionIdx, agent.coordinatorIdx) ==>
          AckIsNewer(agent, events[n].actionId);
    } else {
      NothingCounts(agent, events);
    }
  }

  /** No ack is ever taken for one of a policy with a colon in its id. */
  lemma NothingCounts(agent: Agent, events: seq<Event>)
    requires SEPARATOR in agent.policyId
    ensures !Advances(agent, events)
  {
    forall n | 0 <= n < |events| && FromString(events[n].actionId).Some?
      ensures FromString(events[n].actionId).value.policyId != agent.policyId
    {
      AckShape(events[n].actionId);
    }
  }

  // ---------------------------------------------------------------- acks and reassignments in any order

  /** A request: it has read the agent record, has an update of it on its way, or is done. */
  datatype Request = Reading(from: Agent) | Writing(from: Agent, u: Update) | Finished

  /** The record, the requests, and every revision ever acked or given. */
  datatype State = State(record: Agent, requests: seq<Request>, acked: set<Revision>, given: set<Revision>)

  datatype Label =
    | Read
    | Decide(k: nat, actionIds: seq<string>, winner: Option<Update>)
    | Write(k: nat)
    | Assign(policyId: string, revisionIdx: int, coordinatorIdx: int)

  function Recorded(a: Agent): Revision {
    Revision(a.policyId, a.revisionIdx, a.coordinatorIdx)
  }

  function WellFormed(actionIds: seq<string>): set<Revision> {
    set a | a in actionIds && FromString(a).Some? :: FromString(a).value
  }

  ghost predicate Init(s: State) {
    s.requests == [] && s.acked == {} && s.given == {Recorded(s.record)}
  }

  function Decided(from: Agent, winner: Option<Update>): Request {
    if winner.Some? then Writing(from, winner.value) else Finished
  }

  ghost predicate Next(s: State, l: Label, s': State) {
    match l
    case Read => s' == s.(requests := s.requests + [Reading(s.record)])
    case Decide(k, actionIds, winner) =>
      && k < |s.requests| && s.requests[k].Reading? && IsWinner(s.requests[k].from, actionIds, winner)
      && s' == s.(acked := s.acked + WellFormed(actionIds),
                  requests := s.requests[k := Decided(s.requests[k].from, winner)])
    case Write(k) =>
      && k < |s.requests| && s.requests[k].Writing?
      && s' == s.(record := Apply(s.record, s.requests[k].u), requests := s.requests[k := Finished])
    case Assign(policyId, revisionIdx, coordinatorIdx) =>
      s' == s.(record := Agent(s.record.id, policyId, revisionIdx, coordinatorIdx),
               given := s.given + {Revision(policyId, revisionIdx, coordinatorIdx)})
  }

  datatype Run = Start(s: State) | Then(prev: Run, l: Label, s: State)

  ghost predicate IsRun(run: Run) {
    match run
    case Start(s) => Init(s)
    case Then(prev, l, s) => IsRun(prev) && Next(prev.s, l, s)
  }

  function Updated(u: Update): Revision {
    Revision(u.policyId, u.revisionIdx, u.coordinatorIdx)
  }

  predicate NewerRevision(r: Revision, than: Revision) {
    Newer(r.revisionIdx, r.coordinatorIdx, than.revisionIdx, than.coordinatorIdx)
  }

  /** An update on its way was acked, is of the policy read, and is newer than the pair read. */
  ghost predicate RequestInv(s: State, r: Request) {
    && (!r.Finished? ==> r.from.id == s.record.id)
    && (r.Writing? ==>
          && Updated(r.u) in s.acked && r.u.policyId == r.from.policyId
          && SEPARATOR !in r.u.policyId && IsNumbered(Updated(r.u)) && NewerRevision(Updated(r.u), Recorded(r.from)))
  }

  ghost predicate Inv(s: State) {
    && (Recorded(s.record) in s.acked || Recorded(s.record) in s.given)
    && (forall k :: 0 <= k < |s.requests| ==> RequestInv(s, s.requests[k]))
  }

  lemma AckShape(a: string)
    requires FromString(a).Some?
    ensures IsNumbered(FromString(a).value) && SEPARATOR !in FromString(a).value.policyId
  {
    Normalises(a);
    RoundTrip(FromString(a).value);
  }

  lemma WinnerShape(from: Agent, actionIds: seq<string>, u: Update)
    requires IsWinner(from, actionIds, Some(u))
    ensures Updated(u) in WellFormed(actionIds) && u.policyId == from.policyId
    ensures SEPARATOR !in u.policyId && IsNumbered(Updated(u)) && NewerRevision(Updated(u), Recorded(from))
  {
    var a :| a in actionIds && FromString(a) == Some(Revision(u.policyId, u.revisionIdx, u.coordinatorIdx));
    AckShape(a);
    assert FromString(a).value in WellFormed(actionIds);
  }

  lemma InvStep(s: State, l: Label, s': State)
    requires Inv(s) && Next(s, l, s')
    ensures Inv(s')
  {
    if l.Decide? && l.winner.Some? {
      WinnerShape(s.requests[l.k].from, l.actionIds, l.winner.value);
    }
    forall k | 0 <= k < |s'.requests|
      ensures RequestInv(s', s'.requests[k])
    {
      assert k < |s.requests| ==> RequestInv(s, s.requests[k]);
    }
  }

  lemma {:induction false} RunInv(run: Run)
    requires IsRun(run)
    ensures Inv(run.s)
  {
    if run.Then? {
      RunInv(run.prev);
      InvStep(run.prev.s, run.l, run.s);
    }
  }

  /** In every interleaving of acks and reassignments, away and back again included, the recorded
      pair was acked for the recorded policy id or came with the assignment of that policy. */
  lemma RecordedPairBelongs(run: Run)
    requires IsRun(run)
    ensures Recorded(run.s.record) in run.s.acked || Recorded(run.s.record) in run.s.given
  {
    RunInv(run);
  }

  // ---------------------------------------------------------------- when the recorded pair goes back

  /** The step leaves an older pair of the same policy recorded. */
  ghost predicate GoesBack(s: State, s': State) {
    s'.record.policyId == s.record.policyId && NewerRevision(Recorded(s.record), Recorded(s'.record))
  }

  /** No write in the run leaves an older pair recorded. */
  ghost predicate NeverBack(run: Run) {
    run.Then? ==> NeverBack(run.prev) && (run.l.Write? ==> !GoesBack(run.prev.s, run.s))
  }

  /** Every write finds a record that `ok(record read, record found)` lets it write to. */
  ghost predicate AlwaysWrites(run: Run, ok: (Agent, Agent) -> bool) {
    run.Then? ==>
      && AlwaysWrites(run.prev, ok)
      && (run.l.Write? && run.l.k < |run.prev.s.requests| && run.prev.s.requests[run.l.k].Writing? ==>
            ok(run.prev.s.requests[run.l.k].from, run.prev.s.record))
  }

  ghost predicate IsBetween(r: Revision, from: Agent, record: Agent) {
    && r.policyId == from.policyId && IsNumbered(r)
    && NewerRevision(r, Recorded(from)) && NewerRevision(Recorded(record), r)
  }

  /** The record has the policy read and a pair so much newer that an ack fits in between. */
  ghost predicate Outrun(from: Agent, record: Agent) {
    && from.id == record.id && from.policyId == record.policyId && SEPARATOR !in from.policyId
    && exists r :: IsBetween(r, from, record)
  }

  predicate NextPair(from: Agent, record: Agent) {
    if record.revisionIdx == from.revisionIdx then record.coordinatorIdx == from.coordinatorIdx + 1
    else
      && record.revisionIdx == from.revisionIdx + 1
      && from.coordinatorIdx == MAX_INT64 && record.coordinatorIdx == MIN_INT64
  }

  /** An ack fits in between unless the record has the very next pair. */
  lemma RoomBetween(from: Agent, record: Agent)
    requires IsNumbered(Recorded(from)) && IsNumbered(Recorded(record))
    ensures (exists r :: IsBetween(r, from, record))
            <==> NewerRevision(Recorded(record), Recorded(from)) && !NextPair(from, record)
  {
    if NewerRevision(Recorded(record), Recorded(from)) && !NextPair(from, record) {
      var r := if from.coordinatorIdx < MAX_INT64
               then Revision(from.policyId, from.revisionIdx, from.coordinatorIdx + 1)
               else if record.coordinatorIdx > MIN_INT64
               then Revision(from.policyId, record.revisionIdx, record.coordinatorIdx - 1)
               else Revision(from.policyId, from.revisionIdx + 1, 0);
      assert IsBetween(r, from, record);
    }
  }

  lemma {:induction false} KeptForward(run: Run, ok: (Agent, Agent) -> bool)
    requires IsRun(run) && AlwaysWrites(run, ok)
    requires forall from: Agent, record: Agent :: ok(from, record) ==> !Outrun(from, record)
    ensures NeverBack(run)
  {
    if run.Then? {
      KeptForward(run.prev, ok);
      RunInv(run.prev);
      if run.l.Write? {
        var s, w := run.prev.s, run.prev.s.requests[run.l.k];
        assert RequestInv(s, w) && ok(w.from, s.record);
        assert GoesBack(s, run.s) ==> IsBetween(Updated(w.u), w.from, s.record);
      }
    }
  }

  lemma SoleWinner(from: Agent, r: Revision)
    requires r.policyId == from.policyId && IsNumbered(r) && SEPARATOR !in r.policyId
             && NewerRevision(r, Recorded(from))
    ensures IsWinner(from, [String(r)], Some(Update(r.policyId, r.revisionIdx, r.coordinatorIdx)))
    ensures FromString(String(r)) == Some(r) && r in WellFormed([String(r)])
  {
    RoundTrip(r);
    assert String(r) in [String(r)];
  }

  /** A request reads `from` and decides on `r`. */
  lemma DecideOn(run: Run, r: Revision, ok: (Agent, Agent) -> bool) returns (run': Run)
    requires IsRun(run) && AlwaysWrites(run, ok)
    requires r.policyId == run.s.record.policyId && IsNumbered(r) && SEPARATOR !in r.policyId
    requires NewerRevision(r, Recorded(run.s.record))
    ensures IsRun(run') && AlwaysWrites(run', ok) && run'.s.record == run.s.record && r in run'.s.acked
    ensures run.s.acked <= run'.s.acked
    ensures run'.s.requests
            == run.s.requests + [Writing(run.s.record, Update(r.policyId, r.revisionIdx, r.coordinatorIdx))]
  {
    var s, k := run.s, |run.s.requests|;
    var u := Update(r.policyId, r.revisionIdx, r.coordinatorIdx);
    SoleWinner(s.record, r);
    var s1 := s.(requests := s.requests + [Reading(s.record)]);
    var s2 := s1.(acked := s.acked + WellFormed([String(r)]), requests := s.requests + [Writing(s.record, u)]);
    assert s1.requests[k := Decided(s.record, Some(u))] == s2.requests;
    run' := Then(Then(run, Read, s1), Decide(k, [String(r)], Some(u)), s2);
  }

  /** A request reads `from`, the record becomes `record`, and the request's update takes it back. */
  lemma OutrunGoesBack(from: Agent, record: Agent, ok: (Agent, Agent) -> bool) returns (run: Run)
    requires Outrun(from, record) && ok(from, record)
    ensures IsRun(run) && AlwaysWrites(run, ok) && !NeverBack(run)
  {
    var r :| IsBetween(r, from, record);
    run := DecideOn(Start(State(from, [], {}, {Recorded(from)})), r, ok);
    var s := run.s;
    var s' := s.(record := record, given := s.given + {Recorded(record)});
    run := Then(run, Assign(record.policyId, record.revisionIdx, record.coordinatorIdx), s');
    run := Then(run, Write(0), s'.(record := Apply(record, s'.requests[0].u), requests := s'.requests[0 := Finished]));
  }

  /** A rule on what a write may find keeps every run from leaving an older pair recorded if and only
      if it never lets a write find the same policy with a pair that an ack newer than what was read
      is older than. */
  lemma WriteRuleExact(ok: (Agent, Agent) -> bool)
    ensures (forall run: Run :: IsRun(run) && AlwaysWrites(run, ok) ==> NeverBack(run))
            <==> (forall from: Agent, record: Agent :: ok(from, record) ==> !Outrun(from, record))
  {
    if from: Agent, record: Agent :| ok(from, record) && Outrun(from, record) {
      var run := OutrunGoesBack(from, record, ok);
    } else {
      forall run: Run | IsRun(run) && AlwaysWrites(run, ok)
        ensures NeverBack(run)
      {
        KeptForward(run, ok);
      }
    }
  }

  /** Two requests that read the same record and whose updates arrive in the wrong order leave the
      older revision recorded. */
  lemma ConcurrentAcksMoveBack(record: Agent, newer: Revision, older: Revision) returns (run: Run)
    requires SEPARATOR !in record.policyId && newer.policyId == older.policyId == record.policyId
    requires IsNumbered(newer) && IsNumbered(older)
    requires NewerRevision(older, Recorded(record)) && NewerRevision(newer, older)
    ensures IsRun(run) && newer in run.s.acked && Recorded(run.s.record) == older
  {
    var ok := (a: Agent, b: Agent) => true;
    run := DecideOn(Start(State(record, [], {}, {Recorded(record)})), newer, ok);
    run := DecideOn(run, older, ok);
    var s := run.s;
    var s' := s.(record := Apply(record, s.requests[0].u), requests := s.requests[0 := Finished]);
    run := Then(run, Write(0), s');
    run := Then(run, Write(1),
      s'.(record := Apply(s'.record, s'.requests[1].u), requests := s'.requests[1 := Finished]));
  }

  // ---------------------------------------------------------------- one request at a time

  /** Every write finds the record its request read. */
  ghost predicate OneAtATime(run: Run) {
    AlwaysWrites(run, (from: Agent, record: Agent) => from == record)
  }

  ghost predicate Reaches(earlier: Run, run: Run) {
    earlier == run || (run.Then? && Reaches(earlier, run.prev))
  }

  function Writes(run: Run): nat {
    if run.Start? then 0 else Writes(run.prev) + if run.l.Write? then 1 else 0
  }

  function Assigns(run: Run): nat {
    if run.Start? then 0 else Assigns(run.prev) + if run.l.Assign? then 1 else 0
  }

  lemma {:induction false} CountsGrow(earlier: Run, run: Run)
    requires Reaches(earlier, run)
    ensures Writes(earlier) <= Writes(run) && Assigns(earlier) <= Assigns(run)
  {
    if earlier != run {
      CountsGrow(earlier, run.prev);
    }
  }

  /** While no write falls between a request's read and its own, the recorded pair strictly rises
      with every write until the policy is assigned anew, and does not change otherwise. */
  lemma {:induction false} PairRises(earlier: Run, run: Run)
    requires IsRun(run) && OneAtATime(run) && Reaches(earlier, run) && Assigns(earlier) == Assigns(run)
    ensures run.s.record.policyId == earlier.s.record.policyId
    ensures if Writes(run) == Writes(earlier) then run.s.record == earlier.s.record
            else NewerRevision(Recorded(run.s.record), Recorded(earlier.s.record))
  {
    if earlier != run {
      CountsGrow(earlier, run.prev);
      PairRises(earlier, run.prev);
      RunInv(run.prev);
      if run.l.Write? {
        assert RequestInv(run.prev.s, run.prev.s.requests[run.l.k]);
      }
    }
  }

  // ---------------------------------------------------------------- assignments

  /** The policy assigned last. */
  function LastAssigned(run: Run): string {
    match run
    case Start(s) => s.record.policyId
    case Then(prev, l, _) => if l.Assign? then l.policyId else LastAssigned(prev)
  }

  /** An agent has the policy it was assigned last, whatever acks arrive and whenever they are written;
      and a write decided on before the agent was assigned another policy changes nothing. */
  lemma {:induction false} AssignmentStands(run: Run)
    requires IsRun(run)
    ensures run.s.record.policyId == LastAssigned(run)
    ensures run.Then? && run.l.Write? && run.l.k < |run.prev.s.requests| && run.prev.s.requests[run.l.k].Writing?
              && run.prev.s.requests[run.l.k].from.policyId != LastAssigned(run.prev) ==>
              run.s.record == run.prev.s.record
    ensures run.Then? && run.l.Assign? ==>
              run.s.record == Agent(run.prev.s.record.id, run.l.policyId, run.l.revisionIdx, run.l.coordinatorIdx)
  {
    if run.Then? {
      AssignmentStands(run.prev);
      RunInv(run.prev);
      if run.l.Write? {
        assert RequestInv(run.prev.s, run.prev.s.requests[run.l.k]);
      }
    }
  }
}
