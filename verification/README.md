# Fleet Server, modelled in Dafny

Fleet Server sits between Elastic Agents and Elasticsearch. Agents check in and wait; actions and
policies written to Elasticsearch have to reach them, each once where that is promised, and none may
be passed over. This project models the parts of the server that make those promises and proves what
holds of them in every interleaving.

| file | what it models |
|---|---|
| `Index.dfy` | the action index and the windowed, sorted, size-limited search on it |
| `IndexMonitor.dfy` | the monitor that follows an index by sequence number |
| `Dispatcher.dfy` | regrouping a batch by agent and handing it out without waiting |
| `ActionDelivery.dfy` | monitor, dispatcher and check-ins interleaved, from the index to the ack token |
| `ActionInvariant.dfy` | what every step of that keeps, and that no action is skipped |
| `ActionAnswers.dfy` | what agents are given, by the pending query and while they wait |
| `ActionSkips.dfy` | runs that do skip one, and with them the exact conditions |
| `ActionCluster.dfy`, `ClusterSkips.dfy` | several servers over one index, and what two of them can skip between them |
| `PolicyMonitor.dfy`, `PolicyRollout.dfy` | the policy monitor as an object, and interleaved with its subscribers |
| `Revision.dfy` | decimal numbers and policy revision ids as text |
| `Ack.dfy` | acknowledgements, the newest-revision reduction and the guarded record update |
| `Throttle.dfy` | the token throttle with lazy eviction, against an eager specification |
| `Bulker.dfy`, `BulkFlush.dfy`, `BulkDelivery.dfy` | the bulk loop, one flush, and requests and answers interleaved |
| `Json.dfy`, `JsonText.dfy` | marshalling, and a reader of JSON text by the grammar of RFC 8259 |
| `Template.dfy`, `QueryTemplate.dfy` | compiling a query tree into a template, and rendering it |
| `QueryDsl.dfy`, `QueryWindows.dfy` | the query builder, and what the monitor's and the check-in's queries select |
| `Sets.dfy`, `Picks.dfy` | sizes of finite sets, and the positions a loop picks out of a list |

Objects that update fields are classes whose methods are tied to functions on values; concurrency is
a state machine over those same functions, and a run is any finite sequence of its steps.

`dafny verify dfyconfig.toml` checks everything.

## What the code does not keep

Some promises hold only under a condition. In each case the model follows the code and the condition
is proved exact.

- **A batch overtakes its checkpoint.** `notify` puts a batch on its output channel before it stores
  the checkpoint behind it (internal/pkg/monitor/monitor.go:270-282). If the dispatcher hands the
  batch out in between, a check-in that subscribes after that and reads the old checkpoint sees the
  batch neither in its channel nor in its pending query, and a later ack token passes over it
  (`OvertakenSkips`). This takes a checkpoint and a lower bound that are both behind the dispatcher's
  position. As long as no other server has answered an agent, a lower bound above the checkpoint is
  harmless, because it comes from the very batch; a token from another server is not
  (`TwoServersSkip`).
- **Check-ins are served before the monitor has started.** The monitor runs without a ready channel
  (cmd/fleet/main.go:574-582) and the HTTP server starts beside it (cmd/fleet/main.go:605-606). A
  check-in that reads the undefined checkpoint finds nothing; the monitor then starts at the global
  checkpoint, and what lies below is passed over (`EarlySkips`).
- **A document that cannot be unmarshalled cuts its batch.** The dispatcher stops regrouping at the
  first one (internal/pkg/action/dispatcher.go:91-97), so the documents behind it do not reach the
  check-ins that are polling. Nor does a document whose agents are not written as a list, which a
  pending query would deliver since it leaves them out (internal/pkg/dl/actions.go:54)
  (`CutSkips`).
- **These three are all.** A rule says which checkpoints may be read, when the monitor may start, and
  which batches the dispatcher may take. `RuleExact` shows of every rule that lets a single action
  through, and lets a check-in read before there is anything, that no action is ever skipped if and
  only if the rule shuts out these three cases. `ReadingRuleExact` does so for the first two without
  the second proviso. `NoSkippedActionAnywhere` carries this to any number of servers, and
  `NoSkippedActionInOrderlyCluster` shows that storing first, starting first and whole batches would
  be enough.
- **A request refused in part loses its policy acks.** The handler returns at the first event it
  cannot handle, before the acks it has collected are acted on (cmd/fleet/handleAck.go:125-160), and
  the policy is delivered again. So it is if the agent record cannot be written (`AckCollected`,
  `DeliveredAckedNotRedelivered`).
- **A policy whose id has a colon is delivered for ever.** No ack of it is ever taken for one
  (`NothingCounts`, `DeliveredAckedNotRedelivered`).
- **Concurrent acks move a record back.** The update script compares policy ids, not revisions
  (`ConcurrentAcksMoveBack`). `WriteRuleExact` has the exact condition on what a write may find, and
  `PairRises` what holds while no write falls between a request's read and its own.
- **A foreign prefix hangs Resolve.** A comment at internal/pkg/dsl/tmpl.go:96 says other strings
  with the prefix work; the branch below it makes no progress once the text starts with the prefix
  (`StuckForever`, `HangExact`, `DocumentHangs`).
- **An empty name is taken for no match.** A place holder bound to it is cut away twice, which loses
  text or slices out of range (`EmptyNameCrashes`, `UnnamedUnfaithful`, `FaithfulExact`).
- **An empty bulk element loses an answer.** A reply element without an entry is skipped, and its
  caller waits until its context ends (`PositionalAnswersAll`, `ExactlyOnePlace`).
- **A late Release can succeed.** An expired token whose entry was not needed yet is still found
  (`ReleaseRefines`).
- **Token ids come up again.** After 2^64 tokens a late release of an old one can take the entry of
  a token in force; histories are safe up to exactly 2^64 + 1 tokens (`ClashUnsafe`,
  `TokenBoundExact`).

A comment at cmd/fleet/handleCheckin.go:292 says that a token that is not found falls back on the
agent record; the code starts from nothing then, and so does the model.

## Model

| member | source | states |
|---|---|---|
| `Index.Search` | internal/pkg/monitor/monitor.go:306-340 | the answer is ascending, selected documents only, and leaves nothing out below a full page |
| `Index.SearchUnique` | internal/pkg/monitor/monitor.go:356-383 | window and index leave exactly one possible answer |
| `Index.SearchSettled` | internal/pkg/monitor/monitor.go:284-304 | documents that appear above the window, in any order, do not change the answer |
| `IndexMonitor.PublishedWhenLive` | internal/pkg/monitor/monitor.go:257-304 | a document is published if and only if it is in the index and was unexpired when the batch covering it was fetched |
| `IndexMonitor.PublishedExactlyOnce` | internal/pkg/monitor/monitor.go:257-304 | all batches together are strictly ascending, lie between start and checkpoint, and without expiration are exactly the documents there |
| `IndexMonitor.TilesExtend` | internal/pkg/monitor/monitor.go:270-282 | one more batch keeps the tiling and moves its end to the batch's last document |
| `IndexMonitor.ShortPageExhausts` | internal/pkg/monitor/monitor.go:257-267 | a page shorter than the fetch size leaves nothing to fetch in the window |
| `IndexMonitor.PageIsTile` | internal/pkg/monitor/monitor.go:284-304 | a non-empty page covers exactly the live documents up to its last one |
| `IndexMonitor.SimpleMonitor.constructor` | internal/pkg/monitor/monitor.go:117-149 | a new monitor has published nothing and has the undefined checkpoint |
| `IndexMonitor.SimpleMonitor.FetchHits` | internal/pkg/monitor/monitor.go:284-304 | the hits are the search from the stored to the new checkpoint, or none exactly if the search fails |
| `IndexMonitor.SimpleMonitor.Notify` | internal/pkg/monitor/monitor.go:270-282 | a non-empty batch is published whole and the checkpoint becomes its last document; an empty or cancelled one changes nothing |
| `IndexMonitor.SimpleMonitor.FetchPage` | internal/pkg/monitor/monitor.go:257-267 | one pass keeps the tiling; a full page moves the checkpoint on, a short one exhausts the window |
| `IndexMonitor.SimpleMonitor.FetchUpTo` | internal/pkg/monitor/monitor.go:257-267 | the loop ends; the checkpoint never goes back nor beyond the new one; without error nothing is left to fetch; below all documents nothing is published |
| `IndexMonitor.SimpleMonitor.Run` | internal/pkg/monitor/monitor.go:205-268 | the loop goes on through every round but one whose wait to try again is cut short; what is published tiles the index from the initial checkpoint; and after every round that is told a checkpoint and whose fetches neither fail nor are held up, every document up to that checkpoint is published that has not expired at a clock reading so far, or every one where expiration does not matter |
| `IndexMonitor.ExhaustedPublished` | internal/pkg/monitor/monitor.go:257-304 | once nothing is left to fetch below a checkpoint, every document up to it that was live at all readings is published |
| `Dispatcher.ActionsForMembers` | internal/pkg/action/dispatcher.go:86-110 | an agent's part holds exactly the actions that mention it |
| `Dispatcher.ActionsForOrdered` | internal/pkg/action/dispatcher.go:86-110 | an agent's part keeps the order of the batch |
| `Dispatcher.ActionsForCount` | internal/pkg/action/dispatcher.go:98-103 | an agent gets an action as often as the action mentions it |
| `Dispatcher.ReadablePrefix` | internal/pkg/action/dispatcher.go:91-97 | the hits kept are those in front of the first that cannot be unmarshalled |
| `Dispatcher.Dispatcher.constructor` | internal/pkg/action/dispatcher.go:36-41 | no subscriptions at first |
| `Dispatcher.Dispatcher.Subscribe` | internal/pkg/action/dispatcher.go:54-71 | a new empty channel replaces the agent's earlier subscription |
| `Dispatcher.Dispatcher.Unsubscribe` | internal/pkg/action/dispatcher.go:73-84 | removal is by agent id, whichever subscription that is |
| `Dispatcher.Dispatcher.Dispatch` | internal/pkg/action/dispatcher.go:112-133 | the actions go to the agent's channel if it is subscribed and the channel is empty, and are dropped otherwise |
| `Dispatcher.Dispatcher.Group` | internal/pkg/action/dispatcher.go:86-104 | the groups are exactly the agents mentioned up to the first hit that cannot be unmarshalled, each with its part in order |
| `Dispatcher.Dispatcher.Process` | internal/pkg/action/dispatcher.go:86-110 | whatever order agents are visited in, every subscribed agent whose channel was empty has its whole readable part, and every other channel is as before |
| `Dispatcher.ServeOne` | internal/pkg/action/dispatcher.go:107-133 | one agent served keeps that account |
| `ActionDelivery.PartCovers` | internal/pkg/action/dispatcher.go:86-110 | if every document that is not broken, and every one in front of it, lists its agents, an agent's part covers its actions in the stretch the batch covers, those included that only a pending query could unmarshal |
| `ActionDelivery.PendingCovers` | internal/pkg/dl/actions.go:47-73 | a pending query covers the agent's actions up to its last hit, or up to the bound if it finds none |
| `ActionInvariant.NoSkippedAction` | cmd/fleet/handleCheckin.go:161-236 | over every run of a server, restarts and answers and records of other servers included, in which no step leaves a gap, every action for an agent at or below a token it received has reached it or has expired |
| `ActionInvariant.NoSkippedActionWhenOrderly` | internal/pkg/monitor/monitor.go:217-282 | the same over every run in which a batch is taken only after its checkpoint is stored, check-ins read only after the monitor has started, and no batch is cut |
| `ActionInvariant.OrderlyIsCareful` | internal/pkg/monitor/monitor.go:217-282 | such runs leave no gap |
| `ActionSkips.OvertakenSkips` | internal/pkg/monitor/monitor.go:270-282 | for any checkpoint read and lower bound behind the dispatcher's position, the bound recorded by another server where it is above the checkpoint, a run that passes over an action |
| `ActionSkips.EarlySkips` | cmd/fleet/main.go:574-606 | for any lower bound below the checkpoint the monitor starts at, a run in which a check-in reads before that and an action is passed over |
| `ActionSkips.CutSkips` | internal/pkg/action/dispatcher.go:91-97 | for any batch with a document that is not broken, at or behind one that does not list its agents, a run that passes over it |
| `ActionSkips.ReadingRuleExact` | cmd/fleet/handleCheckin.go:314-323 | with whole batches, a rule on when check-ins read keeps every run from skipping if and only if it lets none read a checkpoint behind the dispatcher's position with a lower bound that does not make up for it, nor read before a start above its lower bound |
| `ActionSkips.RuleExact` | cmd/fleet/handleCheckin.go:161-323 | a rule on reading, starting and batches together keeps every run from skipping if and only if it rules out those gaps and cut batches |
| `ActionInvariant.CheckBridges` | cmd/fleet/handleCheckin.go:314-323 | between what a check-in has read, or already had, and the point the dispatcher serves it from, the agent has no action; a bound above the checkpoint helps only while there is no other server |
| `ActionInvariant.WorldKeeps` | cmd/fleet/handleCheckin.go:293-323 | documents, clock and global checkpoint moving on keep what check-ins rely on |
| `ActionInvariant.ReadyKeeps` | internal/pkg/monitor/monitor.go:217-224 | reading the first checkpoint, with check-ins already there, keeps the invariant |
| `ActionInvariant.RestartKeeps` | cmd/fleet/main.go:574-606 | a restart, which forgets everything but tokens and agent records, keeps the invariant |
| `ActionInvariant.PublishKeeps` | internal/pkg/monitor/monitor.go:270-274 | putting a batch on the channel keeps the invariant |
| `ActionInvariant.StoreKeeps` | internal/pkg/monitor/monitor.go:275-276 | storing the checkpoint keeps the invariant |
| `ActionInvariant.TakeKeeps` | internal/pkg/action/dispatcher.go:43-110 | taking and regrouping a batch that is not cut keeps the invariant |
| `ActionInvariant.LookKeeps` | internal/pkg/action/dispatcher.go:112-124 | looking up a subscription, with the send still to come, keeps the invariant |
| `ActionInvariant.HandKeeps` | internal/pkg/action/dispatcher.go:125-133 | the send, to a subscription that may be gone or replaced by then, keeps the invariant |
| `ActionInvariant.BeginKeeps` | cmd/fleet/handleCheckin.go:293-312 | a check-in that starts from its token, the agent record or nothing keeps the invariant |
| `ActionInvariant.CheckinKeeps` | cmd/fleet/handleCheckin.go:161-236 | subscribing, querying, receiving and answering keep the invariant, overlapping check-ins of one agent included |
| `ActionInvariant.PendingSound` | internal/pkg/dl/actions.go:86-107 | a token from the pending query accounts for everything up to it |
| `ActionInvariant.ChannelSound` | cmd/fleet/handleCheckin.go:203-213 | so does a token from the dispatcher |
| `ActionInvariant.HangUpKeeps` | internal/pkg/action/dispatcher.go:73-84 | the deferred unsubscribe, which may hit another check-in of the agent, keeps the invariant |
| `ActionInvariant.RecordKeeps` | cmd/fleet/bulkCheckin.go:42-99 | noting a sequence number and writing it to the agent record keeps the invariant |
| `ActionInvariant.ArriveKeeps` | cmd/fleet/handleCheckin.go:230-237 | a response that reaches its agent, late or never, keeps the invariant |
| `ActionAnswers.SearchIsLowest` | internal/pkg/dl/actions.go:47-58 | the pending query finds exactly the hundred lowest of the agent's unexpired documents in its window |
| `ActionAnswers.PendingAnswers` | cmd/fleet/handleCheckin.go:196-203 | a check-in with nothing due waits, one with a broken document among what it asks for fails, and any other is answered with exactly those documents, in order, and the highest as its token |
| `ActionAnswers.PendingDelivered` | cmd/fleet/handleCheckin.go:196-237 | once that answer arrives the agent has all of them |
| `ActionAnswers.FewDueAllWanted` | internal/pkg/dl/actions.go:47-58 | with no more than a hundred documents due, those are all that are due |
| `ActionAnswers.PublishedPage` | internal/pkg/monitor/monitor.go:257-304 | a batch is everything live above the checkpoint up to its last document |
| `ActionAnswers.WaitingDelivered` | internal/pkg/action/dispatcher.go:86-133 | a batch taken, looked up, sent, received and arrived gives the waiting agent exactly its part: the documents that mention it in front of the first that does not list its agents |
| `ActionAnswers.LongPollDelivers` | cmd/fleet/handleCheckin.go:167-237 | from subscribing to the answer, whatever is published while the check-in waits reaches the agent, up to the last document of the batch |
| `ActionAnswers.RecordedIsStart` | cmd/fleet/bulkCheckin.go:42-99 | a sequence number noted and written is where a check-in without a token may start, and no other agent's record changes |
| `ActionAnswers.RestartRemembers` | cmd/fleet/main.go:574-606 | after a restart an agent may start from exactly what it could start from before |
| `ActionAnswers.HungUpNotServed` | internal/pkg/action/dispatcher.go:73-84 | after a check-in has hung up, its agent's part of a batch is dropped |
| `ActionInvariant.ForeignKeeps` | cmd/fleet/bulkCheckin.go:80-123 | an answer or a record of another server keeps the invariant |
| `ActionCluster.Seen` | internal/pkg/action/token_resolver.go:36-54 | what one server does is to every other nothing, a step of the index, or an answer or record that accounts for everything up to it |
| `ActionCluster.ClusterKeeps` | internal/pkg/action/token_resolver.go:36-54 | a step of one server keeps the invariant of all |
| `ActionCluster.ServerRuns` | cmd/fleet/handleCheckin.go:161-236 | what any server of a careful cluster goes through is a careful run of the model of one server |
| `ActionCluster.NoSkippedActionAnywhere` | cmd/fleet/handleCheckin.go:161-236 | over every run of any number of servers that leave no gap, whichever an agent turns to, no action is skipped |
| `ActionCluster.OrderlyClusterIsCareful` | internal/pkg/monitor/monitor.go:217-282 | servers that each store before they dispatch, start before they answer and cut no batch leave no gap |
| `ActionCluster.NoSkippedActionInOrderlyCluster` | internal/pkg/monitor/monitor.go:217-282 | so such servers skip no action between them |
| `ClusterSkips.RuleKeepsClusters` | cmd/fleet/handleCheckin.go:161-323 | a rule without gaps and cuts keeps clusters of any size from skipping |
| `ClusterSkips.Lift` | cmd/fleet/handleCheckin.go:161-236 | what a server can do by itself it can do beside another |
| `ClusterSkips.TwoServersSkip` | internal/pkg/monitor/monitor.go:270-282 | for any token above the checkpoint read and below the dispatcher's position, a run of two servers that passes over an action |
| `PolicyMonitor.TestsAgree` | internal/pkg/policy/monitor.go:327-349 | Subscribe's test and updatePolicy's test agree on every policy if and only if the coordinator index is not negative |
| `PolicyMonitor.Monitor.constructor` | internal/pkg/policy/monitor.go:81-92 | no policies and no subscriptions at first |
| `PolicyMonitor.Monitor.GroupByLatest` | internal/pkg/policy/monitor.go:160-176 | for each id the first of its newest policies, and no other |
| `PolicyMonitor.Monitor.UpdatePolicy` | internal/pkg/policy/monitor.go:247-299 | the policy is stored, whatever it is; every subscription it wakes is taken out and returned once, all others stay |
| `PolicyMonitor.UpdateStores` | internal/pkg/policy/monitor.go:254-271 | an update stores its policy, takes out exactly the subscriptions it fires for, and changes nothing of any other id |
| `PolicyMonitor.Monitor.TakeOlder` | internal/pkg/policy/monitor.go:281-298 | the scan takes exactly the older subscriptions, in any iteration order |
| `PolicyMonitor.Monitor.Subscribe` | internal/pkg/policy/monitor.go:302-353 | negative indices are refused; a newer coordinated policy is delivered at once, otherwise the subscription is kept and an unknown policy kicks the loop |
| `PolicyMonitor.Monitor.Unsubscribe` | internal/pkg/policy/monitor.go:356-372 | exactly that subscription is removed, and nothing for one already answered |
| `PolicyMonitor.Monitor.Send` | internal/pkg/policy/monitor.go:215-237 | the send goes through if and only if the channel is empty |
| `PolicyMonitor.Monitor.SendAll` | internal/pkg/policy/monitor.go:215-237 | the sends before the context ends go through, the others do not, and no other channel changes |
| `PolicyMonitor.Monitor.Rollout` | internal/pkg/policy/monitor.go:178-245 | undisturbed, everyone woken receives the policy, nobody else does, and it succeeds if and only if the context lasts for all sends |
| `PolicyRollout.SubscribeKeeps` | internal/pkg/policy/monitor.go:302-353 | a subscription made during a rollout keeps the invariant |
| `PolicyRollout.UnsubscribeKeeps` | internal/pkg/policy/monitor.go:356-372 | unsubscribing during a rollout keeps the invariant |
| `PolicyRollout.UpdateKeeps` | internal/pkg/policy/monitor.go:247-299 | an update leaves no subscription waiting that the stored policy would wake |
| `PolicyRollout.SendKeeps` | internal/pkg/policy/monitor.go:215-237 | one send keeps the invariant |
| `PolicyRollout.ExactlyOnePlace` | internal/pkg/policy/monitor.go:215-237 | over every run a subscription is in exactly one of the map, the rollout under way, sent to, gone |
| `PolicyRollout.StoredIsLast` | internal/pkg/policy/monitor.go:247-299 | over every run what is stored for an id is the last update of it |
| `PolicyRollout.OneShotDelivery` | internal/pkg/policy/monitor.go:215-237 | at most one policy is ever sent to a subscription; it is the very policy of an update, of the subscribed id, coordinated and strictly newer; and what a subscriber finds in its channel is what was sent |
| `PolicyRollout.SendNeverBlocks` | internal/pkg/policy/monitor.go:227-235 | the branch for a full channel is unreachable |
| `PolicyRollout.NoLostWakeup` | internal/pkg/policy/monitor.go:281-349 | a wanted subscription for which the last update of its id is coordinated and strictly newer has been sent to or is in the rollout under way, whether it was made before that update or after |
| `PolicyRollout.NothingAfterUnsubscribe` | internal/pkg/policy/monitor.go:356-372 | a subscription taken back while it waits is never sent anything |
| `Decimal.ParsePrint` | internal/pkg/policy/revision.go:38-46 | every 64-bit integer, the least included, parses back from its text |
| `Decimal.PrintParse` | internal/pkg/policy/revision.go:38-46 | printing a parsed number gives the text back exactly for canonical text |
| `Revision.RoundTrip` | internal/pkg/policy/revision.go:32-58 | a revision prints as policy, id and the two numbers with colons between them, and parsing that gives it back if and only if the policy id has no colon |
| `Revision.Accepted` | internal/pkg/policy/revision.go:32-53 | a string is accepted if and only if it spells a revision in four parts with two 64-bit numbers, signs and leading zeros allowed |
| `Revision.Normalises` | internal/pkg/policy/revision.go:32-58 | an accepted string prints to one that parses to the same revision |
| `Ack.HandleAckEvents` | cmd/fleet/handleAck.go:121-226 | a request succeeds if and only if every event can be handled, each with its own lookup, and the record and the unenrolment are written where needed; the record moves, to the newest ack, if and only if every event is handled, an ack is newer and the write goes through |
| `Ack.HandleEvents` | cmd/fleet/handleAck.go:121-171 | nothing is refused if and only if every event can be handled; then exactly the error-free policy acks are collected, each other result stored, and unenrolment noticed; otherwise results stand up to the first refusal and nothing is collected |
| `Ack.RefusalMeans` | cmd/fleet/handleAck.go:125-170 | an event is refused if and only if it is another agent's, or is no policy ack and its action is not found, its result is not stored or its upgrade not noted; and which refusal it gets |
| `Ack.AcksPicked` | cmd/fleet/handleAck.go:128-134 | the acks collected are the ids of the error-free events whose action id starts with policy and a colon, in order, each once |
| `Ack.ResultsPicked` | cmd/fleet/handleAck.go:149-160 | the results stored are those of all other events, in order, each once |
| `Ack.WinnerAdvances` | cmd/fleet/handleAck.go:188-208 | there is something to write if and only if some error-free ack of the request is newer than the record |
| `Ack.PickWinner` | cmd/fleet/handleAck.go:188-216 | the newest of the record and all well-formed acks of its policy, found if and only if some ack is strictly newer |
| `Ack.WinnerUnique` | cmd/fleet/handleAck.go:188-216 | there is only one such winner |
| `Ack.ActionIdIsPolicyAck` | cmd/fleet/handleCheckin.go:432-439 | the id a policy is delivered under is recognised as a policy ack |
| `Ack.AckCollected` | cmd/fleet/handleAck.go:121-177 | an error-free policy ack is acted on if and only if no event of its request is refused |
| `Ack.DeliveredAckedNotRedelivered` | cmd/fleet/handleAck.go:121-226 | after a request with its ack, a delivered policy is not delivered again if and only if its id has no colon, every event was handled and the record written, or the record was at or above it; in the first case only strictly newer policies are |
| `Ack.NothingCounts` | cmd/fleet/handleAck.go:196-204 | no request advances an agent whose policy id has a colon |
| `Ack.InvStep` | cmd/fleet/handleAck.go:278-314 | reading, deciding, writing and reassigning each keep the recorded pair accounted for |
| `Ack.RecordedPairBelongs` | cmd/fleet/handleAck.go:278-314 | over every interleaving of acks and reassignments the recorded pair was acked for the recorded policy or came with its assignment |
| `Ack.WriteRuleExact` | cmd/fleet/handleAck.go:278-314 | a rule on what a write may find keeps every run from moving a record back if and only if it never lets one find the same policy with a pair beyond some newer ack than what was read |
| `Ack.PairRises` | cmd/fleet/handleAck.go:188-226 | while no write falls between a request's read and its own, the recorded pair strictly rises with every write until the policy is assigned anew, and changes with nothing else |
| `Ack.AssignmentStands` | cmd/fleet/handleAck.go:278-314 | over every run an agent has the policy assigned last, and a write decided on before the agent was assigned another policy changes nothing |
| `Ack.OutrunGoesBack` | cmd/fleet/handleAck.go:278-314 | for any record read and any record found with an ack in between, a run that moves the record back |
| `Ack.RoomBetween` | cmd/fleet/handleAck.go:198-199 | an ack fits in between if and only if the record is newer than what was read and not the very next pair |
| `Ack.ConcurrentAcksMoveBack` | cmd/fleet/handleAck.go:278-314 | for any two newer acks, a run that leaves the older one recorded |
| `Throttle.Throttle.constructor` | internal/pkg/throttle/throttle.go:35-40 | no tokens at first |
| `Throttle.Throttle.Acquire` | internal/pkg/throttle/throttle.go:42-93 | a token is issued if and only if the key has no unexpired token and fewer than max are unexpired, or max is 0; the map stays within capacity |
| `Throttle.Throttle.CheckAtMaxPending` | internal/pkg/throttle/throttle.go:96-130 | at capacity the key's own expired entry is ejected, else any expired one, else the throttle is full |
| `Throttle.Throttle.Release` | internal/pkg/throttle/throttle.go:132-150 | the entry goes if and only if it has the token's id |
| `Throttle.AcquireKeepsCapacity` | internal/pkg/throttle/throttle.go:42-93 | no acquisition takes the map above capacity |
| `Throttle.AcquireDecision` | internal/pkg/throttle/throttle.go:42-93 | whichever entry is ejected, the answer is what the unexpired tokens alone determine |
| `Throttle.AcquireRefines` | internal/pkg/throttle/throttle.go:42-130 | for every choice of ejected entry: same answer, same counter and same unexpired tokens as the eager specification |
| `Throttle.ReleaseRefines` | internal/pkg/throttle/throttle.go:132-150 | same unexpired tokens as the eager specification; the answer differs exactly for an expired token still in the map |
| `Throttle.LazyRefinesEager` | internal/pkg/throttle/throttle.go:42-150 | over every history the lazy throttle issues what the eager one issues and leaves the same tokens in force |
| `Throttle.IssueKeeps` | internal/pkg/throttle/throttle.go:57-86 | issuing a token for a key without one in force keeps the history invariant, ids that wrap around included |
| `Throttle.ReleaseKeeps` | internal/pkg/throttle/throttle.go:132-150 | any release, stale ones included, keeps the history invariant unless it takes the entry of another token with the same id |
| `Throttle.HistoriesSafe` | internal/pkg/throttle/throttle.go:42-150 | over every history without such a clash ids count the tokens modulo 2^64, a second token on a key comes only after the first was released or expired, and never more than max are in force |
| `Throttle.ReleaseRemovesOwnOnly` | internal/pkg/throttle/throttle.go:132-154 | a token in force can be released; one released or replaced removes nothing, unless it clashes |
| `Throttle.IssuesExactly` | internal/pkg/throttle/throttle.go:42-130 | over every history without a clash an acquisition issues a token if and only if no token of the key is in force and fewer than max are, or max is 0; the token lives for the time asked for |
| `Throttle.NoClashBefore` | internal/pkg/throttle/throttle.go:57-86 | nothing clashes within 2^64 tokens |
| `Throttle.ClashUnsafe` | internal/pkg/throttle/throttle.go:57-150 | a history of 2^64 + 2 tokens with two in force on one key |
| `Throttle.TokenBoundExact` | internal/pkg/throttle/throttle.go:42-150 | histories of up to n tokens are all safe if and only if n is at most 2^64 + 1 |
| `Throttle.StepIsThrottle` | internal/pkg/throttle/throttle.go:42-150 | histories are made of the throttle's own operations |
| `Bulker.FlushConserves` | internal/pkg/bulk/bulk.go:200-219 | flushing the first queues moves their requests to batches in order, losing and repeating none |
| `Bulker.BatchesWellFormed` | internal/pkg/bulk/bulk.go:200-219 | a batch is not empty and holds requests of one queue |
| `Bulker.QueueByKind` | internal/pkg/bulk/bulk.go:226-239 | reads go to the read queue, searches to the search queue, and of all others those that ask for a refresh to one queue and those that do not to another |
| `Bulker.BatchOfItsKind` | internal/pkg/bulk/bulk.go:174-195 | a batch is flushed as reads if and only if its requests are reads, as searches if and only if they are searches, and otherwise as writes that agree on the refresh |
| `Bulker.FlushInOrder` | internal/pkg/bulk/bulk.go:200-219 | of each kind, requests are handed over in the order they came |
| `Bulker.StepConserves` | internal/pkg/bulk/bulk.go:200-219 | a partial flush keeps the account of what was taken in |
| `Bulker.AcceptAccounts` | internal/pkg/bulk/bulk.go:226-263 | an arrival, with or without a flush, keeps the account |
| `Bulker.Loop.constructor` | internal/pkg/bulk/bulk.go:164-195 | empty queues, zero counters, a stopped timer |
| `Bulker.Loop.DoFlush` | internal/pkg/bulk/bulk.go:200-219 | the queues are flushed in order up to the first without a slot; a full flush empties all, zeroes the counters and stops the timer |
| `Bulker.Loop.Put` | internal/pkg/bulk/bulk.go:226-253 | the request joins its queue, both counters count it, and the first one arms the timer |
| `Bulker.Loop.Accept` | internal/pkg/bulk/bulk.go:226-263 | a flush happens if and only if the request brings a counter to its threshold |
| `Bulker.Loop.OnTimer` | internal/pkg/bulk/bulk.go:265-271 | a fired timer flushes |
| `Bulker.Loop.Wake` | internal/pkg/bulk/bulk.go:221-281 | each event keeps the loop invariant and the account |
| `Bulker.Loop.Run` | internal/pkg/bulk/bulk.go:164-282 | at every loop head the counters equal what is queued and are below their thresholds and the timer runs exactly while something is queued; every request taken in is queued or in one batch, in order within its kind; whatever had arrived when the timer fired has been handed over; and the loop ends only with its context or for want of a slot |
| `BulkFlush.BulkRequest` | internal/pkg/bulk/bulk.go:460-477 | the body is the items' data in order, and refresh is asked for if and only if some item asks |
| `BulkFlush.FlushBulk` | internal/pkg/bulk/bulk.go:460-533 | a failed or mismatched reply answers nobody; otherwise each item whose element has an entry is answered with the first entry of its own element, in order, and no other item is |
| `BulkFlush.FlushWrites` | internal/pkg/bulk/bulk.go:306-336 | a failed flush tells every item so; otherwise each is told its own entry, and all are answered if and only if no element is empty |
| `BulkFlush.AnswerReplies` | internal/pkg/bulk/bulk.go:384-398 | the i-th read or search is answered with the i-th reply, or none is on a length mismatch |
| `BulkFlush.ReadPayload` | internal/pkg/bulk/bulk.go:338-352 | the payload is the documents, whatever they are, with single commas between them, and if they are JSON texts it reads as an object with these documents in order |
| `BulkFlush.PositionalAnswersAll` | internal/pkg/bulk/bulk.go:510-533 | positional answers reach each item once, in order, if and only if no element is empty |
| `BulkFlush.RefreshAgrees` | internal/pkg/bulk/bulk.go:465-477 | the refresh flag of a write request is the refresh option of each of its items |
| `BulkDelivery.RoomForAnswer` | internal/pkg/bulk/bulk.go:514-530 | the channel of an item still to be answered has room |
| `BulkDelivery.SendKeeps` | internal/pkg/bulk/bulk.go:510-542 | answering one item, or skipping an empty element, keeps the invariant |
| `BulkDelivery.AcceptKeeps` | internal/pkg/bulk/multi.go:65-86 | taking in the caller's next operation keeps the invariant |
| `BulkDelivery.FlushKeeps` | internal/pkg/bulk/bulk.go:284-336 | handing a queue to a goroutine keeps the invariant |
| `BulkDelivery.ExactlyOnePlace` | internal/pkg/bulk/bulk.go:284-336 | over every run a request taken in is in exactly one of a queue, a flush, the answers, or lost to an empty element, and the panic is never reached |
| `BulkDelivery.NothingLost` | internal/pkg/bulk/bulk.go:510-533 | over every run without empty elements nothing is lost |
| `BulkDelivery.AnsweredExactlyOnce` | internal/pkg/bulk/bulk.go:510-542 | without empty elements a request is answered exactly once if and only if it is not under way any more |
| `BulkDelivery.ChannelNeverOverfull` | internal/pkg/bulk/bulk.go:761-772 | answers never outnumber a channel's capacity |
| `BulkDelivery.ToldOwnReply` | internal/pkg/bulk/bulk.go:510-542 | over every run whatever is answered is told what the flush that took it got back in its own position, or the failure of that flush |
| `BulkDelivery.AllHandedInAnswered` | internal/pkg/bulk/bulk.go:306-336 | once nothing is queued or in flight, and without empty elements, every operation handed in on a channel has been answered there |
| `BulkDelivery.AnswersPermute` | internal/pkg/bulk/multi.go:65-103 | over every run, once there are as many answers as operations they are those of operations 0 to n-1, each once, in whatever order |
| `BulkDelivery.MultiDispatchPermutation` | internal/pkg/bulk/multi.go:87-103 | the same for a caller that has taken out as many as it handed in |
| `BulkDelivery.ResponsesOwn` | internal/pkg/bulk/multi.go:87-103 | every response a caller receives carries the number of one of its operations and what that operation's own flush got back for it |
| `BulkDelivery.MultiWait` | internal/pkg/bulk/multi.go:87-103 | on the answers of any run the loop returns one response for each of the n operations, its own, in order of arrival, or none if and only if the context ends first |
| `Json.QuotesEscaped` | internal/pkg/dsl/node.go:23-37 | between quotes a quotation mark stands behind a backslash |
| `JsonText.ReadBack` | internal/pkg/dsl/node.go:23-37 | every document reads back from its text, whatever follows it that does not go on with a number |
| `JsonText.ReadMarshal` | internal/pkg/dsl/node.go:23-37 | a reader that follows the grammar of JSON, and knows nothing of the writer, reads every document back from its text |
| `Template.StuckForever` | internal/pkg/dsl/tmpl.go:79-104 | a scan whose text starts with the prefix unmatched repeats itself |
| `Template.EndsInTime` | internal/pkg/dsl/tmpl.go:79-104 | otherwise the loop ends after at most one pass more than the text is long |
| `Template.HangExact` | internal/pkg/dsl/tmpl.go:79-104 | the loop runs forever if and only if it comes upon a prefix that is not a bound, quoted place holder |
| `Template.MatchInString` | internal/pkg/dsl/tmpl.go:83-94 | a string is taken for a place holder exactly if it ends in a bound one right behind a quotation mark |
| `Template.DocumentHangs` | internal/pkg/dsl/tmpl.go:79-104 | scanning a document runs forever if and only if one of its keys or strings is foreign, and never slices out of range |
| `Template.EmptyNameCrashes` | internal/pkg/dsl/tmpl.go:83-100 | a document that is a place holder bound to the empty name is sliced out of range |
| `Template.ScanProper` | internal/pkg/dsl/tmpl.go:60-121 | pieces and matches of a proper document, and what rendering them gives, missing values included |
| `QueryTemplate.FillLexemes` | internal/pkg/dsl/node.go:23-37 | filling in the written document is writing the filled-in document |
| `QueryTemplate.ProperRenders` | internal/pkg/dsl/tmpl.go:60-190 | a proper document resolves to the place holders in it and renders to the document with the values, or fails exactly if one is missing |
| `QueryTemplate.FaithfulExact` | internal/pkg/dsl/tmpl.go:60-190 | rendering equals marshalling with the values in place, for all values, if and only if no key holds the prefix, no string does but the place holders, and none of these is bound to the empty name |
| `QueryTemplate.UnnamedUnfaithful` | internal/pkg/dsl/tmpl.go:83-100 | a place holder bound to the empty name makes some rendering differ |
| `QueryTemplate.TemplateCorrect` | internal/pkg/dsl/tmpl.go:60-190 | Resolve succeeds if and only if every bound place holder occurs, and Render then if and only if every bound name has a value |
| `QueryTemplate.RenderingReads` | internal/pkg/dsl/tmpl.go:60-190 | read as JSON, the rendered text is the document with the values in place; it is rendered if and only if every bound name has a value |
| `QueryTemplate.ScanText` | internal/pkg/dsl/tmpl.go:74-112 | the loop computes the scan |
| `QueryTemplate.Tmpl.constructor` | internal/pkg/dsl/tmpl.go:37-41 | nothing bound, nothing resolved |
| `QueryTemplate.Tmpl.Bind` | internal/pkg/dsl/tmpl.go:45-58 | the name has a new place holder, shared with no other name |
| `QueryTemplate.Tmpl.ReverseMap` | internal/pkg/dsl/tmpl.go:69-72 | from each bound place holder back to its name |
| `QueryTemplate.Tmpl.Resolve` | internal/pkg/dsl/tmpl.go:60-121 | the pieces are kept if every bound place holder matched; on any other outcome the template is unchanged |
| `QueryTemplate.Tmpl.Render` | internal/pkg/dsl/tmpl.go:142-158 | the rendering of the pieces, or the error for an unresolved template or a missing name |
| `QueryTemplate.Tmpl.RenderOne` | internal/pkg/dsl/tmpl.go:132-140 | the same with a single value |
| `QueryTemplate.Tmpl.RenderMarshalled` | internal/pkg/dsl/tmpl.go:168-190 | the same with marshalled values |
| `QueryDsl.SetSorted` | internal/pkg/dsl/node.go:23-37 | assigning to a key keeps the keys in marshalling order |
| `QueryDsl.LookupSet` | internal/pkg/dsl/node.go:67-87 | assigning to a key changes that key and no other |
| `QueryDsl.Node.constructor` | internal/pkg/dsl/node.go:16-21 | an empty node |
| `QueryDsl.Node.ListMode` | internal/pkg/dsl/filter.go:7-11 | Filter leaves its node with an empty list |
| `QueryDsl.Node.AppendOrSetChildNode` | internal/pkg/dsl/node.go:67-87 | a list takes the child as one more element, a map under its keyword |
| `QueryDsl.Node.Range` | internal/pkg/dsl/range.go:7-35 | the node takes one range clause with the bounds given |
| `QueryDsl.Node.Term` | internal/pkg/dsl/term.go:7-26 | the node takes one term clause, with the boost beside the value where there is one |
| `QueryDsl.Node.Terms` | internal/pkg/dsl/term.go:28-39 | the node takes one terms clause, with the boost beside the field where there is one |
| `QueryDsl.Node.MarshalJSON` | internal/pkg/dsl/node.go:23-37 | calls on a filter node marshal to a text that reads as the array of their clauses in order, calls on an empty node to one that reads as an object with ascending keys and the last call of each keyword, a leaf to one that reads as its value, and no calls to null or an empty object |
| `QueryDsl.RangeKeepsLast` | internal/pkg/dsl/range.go:7-35 | of several bounds of one kind in a call the last one counts |
| `QueryDsl.ClauseMeans` | internal/pkg/dsl/range.go:21-35 | a clause, boosted or not, holds of a document exactly if the document is what the call asks for |
| `QueryDsl.FilterIsConjunction` | internal/pkg/dsl/filter.go:7-11 | any calls on a filter node select exactly the documents that satisfy all of them, two ranges on one field included |
| `QueryDsl.MapModeKeepsLast` | internal/pkg/dsl/node.go:78-84 | outside list mode the last call with a keyword is the one kept |
| `QueryDsl.MapModeMarshals` | internal/pkg/dsl/node.go:23-37 | what calls outside list mode marshal to reads as an object with ascending keys and the last call of each keyword |
| `QueryDsl.MapModeKeepsAll` | internal/pkg/dsl/node.go:78-84 | outside list mode every call survives if and only if no two calls differ under one keyword |
| `QueryWindows.CallsSelectWindow` | internal/pkg/monitor/monitor.go:367-383 | the calls together ask for exactly the window: above lower, up to upper, unexpired and for the agent where asked |
| `QueryWindows.PreparedRenders` | internal/pkg/dl/actions.go:47-73 | a prepared query resolves and renders, for any window, to the text of that window's query |
| `QueryWindows.QueryIsWindow` | internal/pkg/monitor/monitor.go:356-383 | searching with that query is the windowed search, ascending and cut at the size |
| `QueryWindows.QueryServes` | internal/pkg/monitor/monitor.go:356-383 | the text of a window's query reads as a body that answers as the windowed search does, asks for sequence numbers, and leaves the agents out or not |
| `QueryWindows.PrepareRanges` | internal/pkg/monitor/monitor.go:367-383 | the range clauses of both queries, each with its own place holder |
| `QueryWindows.PrepareMonitorQuery` | internal/pkg/monitor/monitor.go:356-383 | the monitor's template resolves, and rendered for any window without an agent it reads as a body that answers as the windowed search does and asks for sequence numbers |
| `QueryWindows.PrepareAgentActions` | internal/pkg/dl/actions.go:47-73 | the pending-action template resolves, and rendered for any window with expiration and agent it reads as a body that answers as that search of a hundred does, asks for sequence numbers and leaves the agents out |

## Left out

- Elasticsearch itself: a search answers from one consistent view, and nothing changes at or below the global checkpoint any more; refresh delays and shard failures are not modelled.
- Ack tokens are sequence numbers here; finding a token's document, with its cache, is not modelled, and a token that is not found starts a check-in from nothing, as in the code.
- Expiration times are numbers of seconds; their RFC 3339 text is not modelled.
- JsonText.ReadMarshal: numbers are integers, and strings are of Unicode characters, so that what the encoder does with fractions and with invalid UTF-8 is not modelled.
- QueryWindows.PreparedRenders: the expiration is put in as a number.
- QueryWindows.PrepareMonitorQuery: the expiration is put in as a number, and the chain of nodes from the root to the filter is written as the document it marshals to.
- QueryWindows.PrepareAgentActions: the same holds of the pending-action query.
- PolicyMonitor.Monitor.Subscribe: the 64-bit subscription counter does not wrap around.
- ActionInvariant.NoSkippedAction: says nothing about documents that nobody can unmarshal, which no agent can be given; what they do to those behind them is part of the model.
- The clocks of several servers agree.
- Bulker.Loop.Run: request data is not empty, as the writers of request bodies guarantee.
- BulkFlush.ReadPayload: says nothing of the empty queue, which is never flushed, nor of items that are not a document and a comma, which no caller writes.
- BulkDelivery.AnswersPermute: says nothing about order, because `multiWaitBulkAction` returns items in order of arrival, not of operation.
- QueryTemplate.Tmpl.Bind: the UUID is a parameter, and a new one is assumed different from those before.
- Template.DocumentHangs: no string is taken for a place holder bound to the empty name, since such a scan drops text; `EmptyNameCrashes` and `FaithfulExact` are about that.
- Template.ScanProper: no place holder is bound to the empty name, for the same reason.
- QueryTemplate.ProperRenders: no place holder is bound to the empty name; `FaithfulExact` shows that it renders wrong.
- QueryTemplate.TemplateCorrect: no place holder is bound to the empty name; `FaithfulExact` shows that it renders wrong.
- QueryTemplate.Tmpl.Resolve: a loop that does not end is an outcome of its own, and a leaf that cannot be marshalled does not occur.
- QueryDsl.Node.AppendOrSetChildNode: children are held by value, as the JSON they marshal to, so a child changed after it was attached is not captured; `findOrCreateChildByName` and the chain from the root to the filter are written as the document they produce.
- QueryDsl.Node.Term: the child node it returns is not modelled.
- QueryDsl.Node.Terms: the child node it returns is not modelled.
- The monitor's check query, aggregations, top hits and the other clauses of the builder, which add only more members like these.
- Enrolment, authentication, API keys, output permissions, unenrolment and upgrade writes, HTTP, configuration, caching and leader election.
- Timing: time-outs, poll intervals and throttled ticks appear only as events that may happen at any point.
