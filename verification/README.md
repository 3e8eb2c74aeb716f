# Durable events and integration coordination: a verified model

This project models the parts of the repository whose guarantees hold over whole runs, and proves those guarantees.

The **durable event transport** is one system of stepping objects. A stream object keeps events, receipts and ingress
rows in SQL tables and appends, expires, sends, acknowledges, registers consumers, issues and revokes grants, resets and
follows binding moves. A source ledger keeps pending, committed and rejected publications. A publisher prepares, appends,
finalizes and repins. A browser acknowledges after its handler and keeps a bounded list of recent event IDs. Frames,
acknowledgements and messages may be lost, handlers may fail, attempts may be cut off anywhere, and bindings may move
between any two messages.

Around it stand the **integration coordinator** (an outbox of effects with leases, retries and dead letters), the
**binding outbox** (coalescing notifications to watchers), the **browser's state/event coordinator**, the **feature state**
calculation with the tables that apply it and the test runtime's map, and the **canonical forms** of payloads and prepared
requests.

Each stateful object appears twice: as values with step functions, about which the run-level theorems are stated, and as a
class whose methods change fields in place and are proved to do exactly what the step function says and to keep the
invariant the run-level theorems rest on. History that no
operation reads (acceptances, fates, attempts, notifications delivered or expired) is carried beside the state, so that "lost",
"twice" and "in order" can be said at all.

Beside the runs stands a second account of each operation: what it answers and what it leaves, for every input, said over
histories, rows and columns with the limits written out rather than through the queries and helpers the operation uses
(`StreamEffects`, `CoordinatorEffects`, and the lemmas named `...Leaves`, `...Answers` and `...Leads`).

| file | content |
|---|---|
| `Contract`, `Tables` | limits and codes; table rows as sequences |
| `EventLog`, `Stream`, `StreamSafety`, `StreamTheorems`, `StreamEffects`, `StreamBackend` | the stream: tables, steps, invariant, theorems over runs, what each step answers and leaves, class |
| `SourceLedger`, `Publication` | the ledger; ledger, streams and publication attempts together |
| `RecentIds`, `Delivery` | the browser's recent list; from the stream to the handler |
| `QueueReference`, `QueueRefinement` | the test runtime's queue; when the SQL stream refines it |
| `Reacceptance` | literal runs that outlast a receipt or a grant |
| `Coordinator`, `CoordinatorSafety`, `CoordinatorTheorems`, `CoordinatorEffects`, `CoordinatorBackend` | the integration coordinator |
| `BindingOutbox` | watchers and notifications |
| `StateEvents` | snapshots and events in the browser |
| `FeatureState` | calculation, tables and test runtime of one feature's state |
| `JsonData`, `CanonicalPayload`, `ArgumentSchema`, `PreparedRequest` | canonical data, payloads, arguments, prepared requests |

Findings. Four natural readings of the promises are false as stated, and the exact conditions are proved instead:

- Handler calls are not exactly once for every recent-list capacity: a stream may accept an event ID again once its receipt
  has expired, and a browser that still remembers the ID acknowledges the second acceptance without handling it
  (`Reacceptance.ReacceptedIdIsSkipped`, a run from the empty stream). They are exactly once, in order, if and only if no
  ID comes back within the list's reach (`Delivery.ExactlyOnceInOrder`), and so always within one receipt retention
  (`Delivery.ExactlyOnceWithinRetention`).
- The test runtime's queue is not what the SQL stream does in every gap-free run. The queue never forgets an event ID or an
  acknowledged cursor; the stream forgets both with their receipts: an ID published again after two hours is accepted by the
  stream and known to the queue (`Reacceptance.QueueKnowsForgottenId`), and an old cursor acknowledged again ends the stream's
  consumer and not the queue's (`Reacceptance.QueueKnowsForgottenCursor`). The queue knows of no grants either: once the
  connected consumer's grant has expired, and until an alarm closes its socket, the stream refuses a new event that the queue
  takes (`Reacceptance.QueueServesLapsedGrant`). In runs of any length the two show the same if and only if every step names
  only what the stream still recalls and every new publication to a connected consumer finds that consumer's grant active,
  unexpired, of its route and revision, and not passed by a binding the publication brings
  (`QueueRefinement.StreamRefinesQueue`).
- The tables and the test runtime's map do not always agree about presence: they part exactly at a zero increment of an
  absent value, at the reset of a stored counter, and at a new value for which the tables have no room
  (`FeatureState.PresenceOverRuns`; literal runs in `FeatureState.ZeroIncrementParts` and `FeatureState.ResetParts`). Within
  capacity and read through the descriptor's default they always agree (`FeatureState.ThreeAgree`).
- A notification need not stay until its watcher expires: a coalesced one keeps the expiry of the row it replaced. A run
  from the empty registry ends with a live watcher whose only notification expired unsent
  (`BindingOutbox.RenewedWatcherOutlivesNotice`). A notification lasts as long as its watcher if and only if there was no
  row to coalesce with or that row expired no sooner than the watcher (`BindingOutbox.NoticeOutlastsWatcher`); in any case it
  ends only by its own delivery or its own expiry (`BindingOutbox.AdvanceIsNotForgotten`).

## Model

| member | source | states |
|---|---|---|
| EventLog.PruneKeepsInv | src/durable-events/stream.js:343-378 | expiry takes the oldest rows only, records their range in the gap, and keeps counters, cursors, receipts and ingress consistent with the acceptance history |
| EventLog.InsertKeepsInv | src/durable-events/stream.js:1001-1046 | an admitted insertion keeps every table exact: retained rows, live receipts, rate window, at-most-once IDs, totals |
| EventLog.AcknowledgeKeepsInv | src/durable-events/stream.js:1226-1247 | acknowledging the oldest retained row removes that row alone and keeps the log exact |
| EventLog.ResetKeepsInv | src/durable-events/stream.js:731-747 | an operator reset gives every retained row a fate and moves the standing gap into the audit, losing nothing from the record |
| EventLog.WindowHoldsTen | src/durable-events/stream.js:963-978 | any 1000 ms window over the whole history holds at most ten acceptances |
| EventLog.ReceiptCapsUnreachable | src/durable-events/stream.js:986-1000 | after pruning there are at most 72,000 live receipts of 192 bytes, so the row and byte caps are out of reach |
| EventLog.FreshIdIsUntaken | src/durable-events/stream.js:1003-1037 | an event ID without a live receipt violates no UNIQUE constraint of any table |
| StreamSafety.NextKeeps | src/durable-events/stream.js:867-1346 | every request, socket message and alarm keeps the whole stream invariant: log, consumer columns, one active grant, distinct epochs, at most one outstanding event |
| StreamSafety.NextRowIsOldest | src/durable-events/stream.js:541-548 | without a gap the minimum-sequence query answers the acceptance right after the acknowledged one, or nothing exactly when all are acknowledged |
| StreamSafety.AcknowledgeMovesOne | src/durable-events/stream.js:1208-1247 | what a selected socket may acknowledge is the oldest retained event and no other |
| StreamSafety.EnrolledKeeps | src/durable-events/stream.js:1153-1192 | registration keeps epochs distinct and starts the new consumer at the acknowledged cursor |
| StreamSafety.GrantHistoryIsBounded | src/durable-events/stream.js:773-797 | however many grants are issued, at most a thousand rows are kept and the new grant is the only active one |
| StreamTheorems.RunKeeps | src/durable-events/stream.js:1518-1620 | the invariant holds after every run of steps with a monotone clock |
| StreamTheorems.NothingIsLost | src/durable-events/stream.js:343-378 | in every run each accepted sequence is retained or has exactly one fate; expired ones are exactly those in a recorded range; cursors and gap bound the retained range; counters equal the totals |
| StreamTheorems.GapFreezes | src/durable-events/stream.js:946-948 | while a gap stands nothing is accepted or acknowledged, and only an operator reset clears it |
| StreamTheorems.RunExtends | src/durable-events/stream.js:1001-1046 | acceptances and fates are never rewritten by any run |
| StreamTheorems.ReceiptCapsNeverBind | src/durable-events/stream.js:963-1000 | in every run every second admits at most ten events and the receipt caps never refuse an append |
| StreamTheorems.AcceptedAtMostOnce | src/durable-events/stream.js:873-888 | in every run a stream accepts an event ID again only once its receipt has expired |
| StreamTheorems.ReplayReturnsOriginal | src/durable-events/stream.js:873-888 | inside receipt retention a replay answers the original sequence and time, a different fingerprint is refused, and neither changes more than pruning does |
| StreamTheorems.ReadinessNeedsRegistration | src/durable-events/stream.js:207-341 | in each step epochs do not fall, stored bindings only advance, an advance leaves the stream without readiness, and only a registration restores it |
| StreamTheorems.ReadinessOverRuns | src/durable-events/stream.js:1153-1192 | over any run the epoch counts the registrations, bindings only advance, and readiness lost or overtaken by a binding comes back only with a registration |
| StreamTheorems.OnlyNewestAcknowledges | src/durable-events/stream.js:1208-1257 | a step other than a reset that moves the acknowledged sequence moves it by one, to the oldest event, on the socket of the newest registration |
| StreamTheorems.AckedCountsConfirmations | src/durable-events/stream.js:1208-1257 | over any run without a reset the acknowledged sequence rises by exactly the number of acknowledgements of an event outstanding on the newest registration |
| StreamTheorems.StaleSocketIsInert | src/durable-events/stream.js:482-492 | messages and closes of any older registration change nothing but the socket itself |
| StreamTheorems.AdmissionIsAuthorised | src/durable-events/stream.js:949-962 | every acceptance happens with a live socket of the newest registration under its active, unexpired grant for this route and revision, with no binding moved past it |
| StreamTheorems.ConsumerHoldsTheGrant | src/durable-events/stream.js:773-865 | in every run at most one grant is active and a recorded consumer's grant is that one |
| StreamTheorems.AcceptedAboveStored | src/durable-events/stream.js:207-255 | an accepted event carries its direction's stored revision, strictly above a revision recorded as moved |
| StreamTheorems.RunFences | src/durable-events/stream.js:893-926 | per direction, accepted revisions never decrease over any run and never exceed the stored one |
| StreamTheorems.MovesFence | src/durable-events/stream.js:257-341 | however notifications are ordered, duplicated or lost, once a revision is stored every later acceptance is at or above it, and strictly above if it had moved |
| StreamEffects.PruneLogLeaves | src/durable-events/stream.js:343-378 | pruning expires exactly the retained events accepted half an hour ago or earlier, which opens the gap, and rewrites nothing else of the history |
| StreamEffects.AppendAnswers | src/durable-events/stream.js:867-1060 | the one answer of every append, from the acceptance history and the columns: payload, binding, standing acceptance within two hours, lookup, route, gap, consumer, crowding, cursor, acceptance |
| StreamEffects.TransitionExactly | src/durable-events/stream.js:207-255 | an append is answered Transition if and only if its binding is not its own, or nothing of its ID stands and it is a lookup, on another route, of another local revision, below the stored revision, or at it with an inactive or different source |
| StreamEffects.AppendLeaves | src/durable-events/stream.js:893-1060 | what every append leaves: refused, the pruned log and the recorded route and binding; accepted, one more entry, route and local revision recorded, and the next event offered on the newest registration's socket |
| StreamEffects.NewBindingIsRecorded | src/durable-events/stream.js:225-254 | a publication with the first or a newer binding of its direction records it, clears readiness when it is newer, and is not answered Transition |
| StreamEffects.IssueLeaves | src/durable-events/stream.js:624-833 | when a grant request is refused, repeated or created, and every column and grant row it leaves: binding recorded, readiness lost to a newer one, backlog emptied by a reset, the active grant replaced, ended ones kept seven days and 999 deep |
| StreamEffects.RevokeLeaves | src/durable-events/stream.js:842-865 | a usable grant is revoked and its consumer ended; any other request changes nothing |
| StreamEffects.NotifyLeaves | src/durable-events/stream.js:257-341 | the stored row changes if and only if the notification names its exact revision and source, a higher revision, and this route and environment; then it is the announced row, active exactly for the stream's own realm, and the stream is not ready |
| StreamEffects.MovedRouteIsClosed | src/durable-events/stream.js:305-340 | after such a notification no later event of that direction carries an older revision in any run, nor the announced one when its source is another realm |
| StreamEffects.AcceptSocketLeaves | src/durable-events/stream.js:1083-1114 | a socket is added, unregistered, exactly for a usable grant |
| StreamEffects.RegisterLeaves | src/durable-events/stream.js:1130-1206 | when a socket may register, and then: the next epoch, readiness unless a binding lies past the grant, the acknowledged cursor, the next event offered |
| StreamEffects.AcknowledgeLeaves | src/durable-events/stream.js:1208-1268 | the outstanding event acknowledged leaves alone and the next is offered; an old cursor still known changes nothing; another cursor ends the consumer; a superseded socket changes nothing |
| StreamEffects.OtherMessageLeaves | src/durable-events/stream.js:1270-1342 | any other message ends the consumer of the newest registration and changes nothing otherwise |
| StreamEffects.CloseLeaves | src/durable-events/stream.js:1344-1346 | a close removes the socket and ends the consumer when it was the newest registration's |
| StreamEffects.AlarmLeaves | src/durable-events/stream.js:1586-1604 | the alarm expires what is due and ends a connected consumer if and only if something expired, events are disabled, its grant ended, or its stream moved and is drained |
| StreamBackend.DurableEventStream.PruneExpired | src/durable-events/stream.js:343-378 | the object's pruning is the log's pruning |
| StreamBackend.DurableEventStream.TerminateSockets | src/durable-events/stream.js:117-127 | the loop over sockets ends the consumer exactly when one of the closed sockets was the selected one |
| StreamBackend.DurableEventStream.FindCurrentSocket | src/durable-events/stream.js:471-480 | the loop finds the one socket of the newest registration, or none when no consumer is ready |
| StreamBackend.DurableEventStream.SendNextEvent | src/durable-events/stream.js:517-575 | sending does what the sending step says, in every branch |
| StreamBackend.DurableEventStream.AppendEvent | src/durable-events/stream.js:867-1060 | an append leaves the state, the answer and the frame of the append step, and keeps the stream invariant |
| StreamBackend.DurableEventStream.IssueGrant | src/durable-events/stream.js:624-833 | issuing leaves the state of the issuing step, and keeps the stream invariant |
| StreamBackend.DurableEventStream.RevokeGrant | src/durable-events/stream.js:842-865 | revoking leaves the state of the revoking step, and keeps the stream invariant |
| StreamBackend.DurableEventStream.RegisterSocket | src/durable-events/stream.js:1130-1206 | registering leaves the state and frame of the registration step |
| StreamBackend.DurableEventStream.AcknowledgeSocketEvent | src/durable-events/stream.js:1208-1268 | acknowledging leaves the state and next frame of the acknowledgement step |
| StreamBackend.DurableEventStream.HandleMessage | src/durable-events/stream.js:1270-1342 | a socket message leaves the state and frame of the message step, and keeps the stream invariant |
| StreamBackend.DurableEventStream.ApplyBindingNotification | src/durable-events/stream.js:257-341 | a notification applies only on the revision and source it was issued against |
| StreamBackend.DurableEventStream.Alarm | src/durable-events/stream.js:1586-1604 | the alarm leaves the state of the alarm step, and keeps the stream invariant |
| SourceLedger.SettledRowsAreFinal | src/durable-events/source-ledger.js:156-223 | a committed or rejected row never changes under any request until it is deleted |
| SourceLedger.SettledRowsStay | src/durable-events/source-ledger.js:95-272 | over any sequence of requests a committed or rejected row stays exactly as it is until a prepare comes at or after its expiry |
| SourceLedger.HandleFrames | src/durable-events/source-ledger.js:95-272 | a request about one event leaves every other event's row as pruning leaves it |
| SourceLedger.PrepareLeaves | src/durable-events/source-ledger.js:95-154 | a prepare tells a row still kept as it is, refuses another payload for it, refuses a new event at 100,000 rows, 100 pending or 512 KiB, and otherwise enters a pending row for two hours |
| SourceLedger.FinalizeLeaves | src/durable-events/source-ledger.js:156-223 | a finalize settles a pending row by its verdict; its reply is committed, rejected or pending exactly as the row then is |
| SourceLedger.RepinLeaves | src/durable-events/source-ledger.js:225-272 | a repin moves a pending row from the route it names, and tells any other row as it is |
| SourceLedger.Ledger.PreparePublication | src/durable-events/source-ledger.js:95-154 | preparing leaves the rows and the reply of the ledger's prepare |
| SourceLedger.Ledger.FinalizePublication | src/durable-events/source-ledger.js:156-223 | finalizing leaves the rows and the reply of the ledger's finalize |
| SourceLedger.Ledger.RepinPublication | src/durable-events/source-ledger.js:225-272 | repinning leaves the rows and the reply of the ledger's repin |
| Publication.AppendVerdict | src/durable-events/stream.js:873-891 | what an attempt may conclude from a stream's answer: an acceptance or replay names an acceptance; a payload refusal comes exactly for payloads the schema refuses; another refusal than a conflict means there is no live acceptance |
| Publication.CommittedRowsAreReceipts | src/durable-events/publisher.js:209-249 | with any number of overlapping publishers, a committed row, and every publisher told of an acceptance, names an acceptance of its event by some stream, with that sequence and time |
| Publication.PublishedAtMostOnce | src/durable-events/publisher.js:251-327 | for attempts one after another, each cut off anywhere, of valid and invalid payloads, with other traffic and moves between: at most one stream ever holds the event, once; a committed row names that acceptance; an event rejected through finalize, or whose payload the schema refuses, was accepted nowhere; all publishers told anything were told the same, that acceptance or a rejection of an event accepted nowhere |
| Publication.DoKeepsCoherent | src/durable-events/binding-authority.js:61-102 | every message of the protocol, fresh append or recovery lookup, keeps attempts and rows truthful about the streams |
| Publication.PrepareLeads | src/durable-events/publisher.js:270-284 | a settled row is told and starts no attempt; a pending one restarts from its pin; a new event is entered and pinned |
| Publication.AppendLeads | src/durable-events/publisher.js:209-249 | the pinned stream answers from its history; a receipt is carried on, a lasting refusal too, a transition on a shared route displaces the first append, anything else ends the attempt |
| Publication.UnmatchedOnlyLooks | src/durable-events/binding-authority.js:61-102 | a binding the registry no longer vouches for makes the append a lookup that accepts nothing |
| Publication.FinalizeLeads | src/durable-events/publisher.js:228-247 | the receipt or refusal settles the pending row, and the publisher is told it |
| Publication.RepinLeads | src/durable-events/publisher.js:297-327 | a displaced attempt moves the row to another route and appends there once, or ends when the route is the same |
| Publication.MessageTimes | src/durable-events/publisher.js:209-327 | every message takes the system to its time; crashes and other traffic tell nobody anything |
| Publication.PublicationCompletes | src/durable-events/publisher.js:251-327 | an undisturbed publication that its stream accepts is entered, accepted, committed with the stream's receipt and told |
| RecentIds.RememberWellKept | public/event-stream/client.js:91-96 | the recent list keeps distinct IDs within its capacity |
| RecentIds.RememberForgetsOldest | public/event-stream/client.js:91-96 | the remembered ID comes last and only the oldest is forgotten, when the list is full |
| RecentIds.Deduplicator.Handle | public/event-stream/client.js:103-108 | a known event is skipped; another is remembered exactly when its handler completed |
| Delivery.NextSockets | src/durable-events/stream.js:517-575 | a step changes only the socket it concerns, and a sent frame is exactly the acceptance after the acknowledged one |
| Delivery.DoKeeps | public/event-stream/client.js:290-325 | under lost frames and acknowledgements, reconnects, re-registrations and failing handlers the browser's view stays that of the acceptance history |
| Delivery.HandledInOrder | public/event-stream/client.js:91-108 | in every reset-free run the completed handler calls are those of going once, in order, through the events seen, and seen is acknowledged or one more |
| Delivery.ExactlyOnceInOrder | public/event-stream/client.js:103-108 | every event seen was handled exactly once and in order if and only if no ID was accepted again within the recent list's reach |
| Delivery.ExactlyOnceWithinRetention | public/event-stream/client.js:62-110 | within one receipt retention that condition holds for every capacity of at least one |
| Reacceptance.ReacceptedIdIsSkipped | public/event-stream/client.js:103-108 | a literal run from the empty stream, for every capacity: an event published, handled and acknowledged is accepted again two hours later and acknowledged without being handled |
| QueueReference.PublishAnswers | src/framework/testing.js:1114-1195 | the queue's answer to every publication, known, refused for gap, move, consumer or room, or taken, and the record it leaves |
| QueueReference.ConfirmAnswers | src/framework/testing.js:1055-1086 | only the outstanding head is removed and the pending read served; an acknowledged cursor repeats, any other is invalid |
| QueueReference.ExpireLeaves | src/framework/testing.js:1096-1112 | expiry removes the leading expired events and their bytes, opens the gap, frees the connection and serves its pending read |
| QueueReference.EventQueue.PublishTo | src/framework/testing.js:1114-1195 | the runtime's publish, in place, is the queue's publish |
| QueueReference.EventQueue.ExpireRecord | src/framework/testing.js:1096-1112 | the expiry loop removes exactly the leading expired events and their bytes |
| QueueReference.EventQueue.Confirm | src/framework/testing.js:1055-1086 | only the outstanding head is removed; an earlier cursor again changes nothing |
| QueueRefinement.NextMirrors | src/durable-events/stream.js:867-1268 | a stream step and the queue action it stands for show the same decision, acknowledgement and frame if and only if the stream still recalls the ID or cursor the step names and, for a new event, the connected consumer's grant holds; and then both stay alike |
| QueueRefinement.StreamRefinesQueue | src/framework/testing.js:977-993 | in every run without expiry, reset or move, however long, the SQL stream accepts, refuses, acknowledges and offers exactly what the FIFO queue does if and only if every republished ID was accepted within receipt retention, every repeated cursor is the last one or still has its receipt, and every new publication to a connected consumer finds its grant active, unexpired, of its route and revision and not passed by a binding the publication brings |
| Reacceptance.QueueKnowsForgottenId | src/framework/testing.js:1127-1133 | a literal calm run: the same ID published at 7,200,000 ms is accepted by the stream and known to the queue |
| Reacceptance.QueueKnowsForgottenCursor | src/framework/testing.js:1065 | a literal calm run: an old cursor acknowledged again at 7,200,000 ms ends the stream's consumer and is a repeat to the queue |
| Reacceptance.QueueServesLapsedGrant | src/durable-events/stream.js:949-962 | a literal calm run: the first publication, just after the connected consumer's grant expired, is refused by the stream and taken by the queue |
| CoordinatorSafety.EarliestIsFirst | src/integrations/coordinator-storage.js:153-165 | the due query answers a row exactly when some effect is scheduled, and none is due before it |
| CoordinatorSafety.UpdateKeeps | src/integrations/coordinator-storage.js:125-151 | changing one effect and refreshing its execution keeps every execution's status the derived one |
| CoordinatorSafety.NextKeeps | src/integrations/coordinator.js:365-602 | every submit, retry, claim, completion, failure, bulk dead-letter and prune keeps statuses derived and schedules exactly the effects still to deliver |
| CoordinatorSafety.SetNextAlarmCovers | src/integrations/coordinator-storage.js:167-181 | the alarm is set no later than any remaining effect is due, or now |
| CoordinatorSafety.RetryDelayBounds | src/integrations/coordinator-storage.js:50-55 | waits lie between 30 seconds and 30 minutes, and below five attempts double without reaching the cap |
| CoordinatorTheorems.StatusIsAlwaysDerived | src/integrations/coordinator-storage.js:125-151 | in every run an execution is open iff it has a nonterminal effect, else failed iff it has a dead letter, else completed; only nonterminal effects have a next attempt; retry_wait means one to four attempts |
| CoordinatorTheorems.NothingIsStranded | src/integrations/coordinator.js:614-678 | in every run, alarm runs cut off anywhere included, whenever none is in progress each effect still to deliver has an alarm by its due time, the present, or half a minute after a failed run |
| CoordinatorTheorems.CrashedClaimIsTakenUp | src/integrations/coordinator.js:499-508 | a delivery cut off leaves its row leased, and in every later run the row is still leased as it was or was claimed again after its lease ended with one more attempt, unless its integration became inactive |
| CoordinatorTheorems.NextAlarmRunClaims | src/integrations/coordinator.js:487-512 | the alarm run after a crash claims the abandoned row again, with one more attempt, as soon as it is the first due |
| CoordinatorTheorems.AlarmRunsAreBounded | src/alarm-drain.js:6-12 | one alarm run attempts at most twenty effects, none twice unless an operator re-opened it |
| CoordinatorTheorems.FinishSettles | src/integrations/coordinator.js:514-582 | the delivery in progress always ends in the row it claimed, in the state its outcome, membership, handler and attempts imply |
| CoordinatorTheorems.NextEffect | src/integrations/coordinator.js:435-602 | in each step delivered rows do not change, dead letters leave only by an explicit retry, and rows go only with their aged execution |
| CoordinatorTheorems.RowsArePermanent | src/integrations/coordinator-storage.js:183-198 | over any run a row keeps what was submitted, or was deleted at a step where it was settled and its execution had completed fourteen days before |
| CoordinatorTheorems.SettledForGood | src/integrations/coordinator.js:435-485 | over any run a delivered effect, or a dead letter nobody retries, stays as it is while it is kept |
| CoordinatorTheorems.ResubmissionChangesNothing | src/integrations/coordinator.js:337-363 | until fourteen days after its completion, resubmitting an execution answers from it and changes no row; another request under its source event is refused |
| CoordinatorEffects.KeptForFourteenDays | src/integrations/coordinator-storage.js:183-198 | over any run that ends within fourteen days of an execution's completion, or of any time it is open, it is kept throughout with its request and exactly its effects |
| CoordinatorEffects.ResubmittedWithinFourteenDays | src/integrations/coordinator.js:337-363 | in any such run a resubmission of the same request answers replayed and of another conflict, in both parts of a submission, and changes no row of the execution |
| CoordinatorEffects.StaleIsPruned | src/integrations/coordinator-storage.js:183-198 | a pruning more than fourteen days after completion removes the execution and all its rows |
| CoordinatorEffects.CheckLeaves | src/integrations/coordinator.js:365-376 | the first part of a submission prunes exactly what is stale and answers mismatch, replayed, conflict or go on |
| CoordinatorEffects.CommitLeaves | src/integrations/coordinator.js:377-431 | the second part enters the execution and one row per effect, field by field, due at once, or refuses a used key and changes nothing |
| CoordinatorEffects.RetryLeaves | src/integrations/coordinator.js:435-485 | a retry re-opens exactly the dead letter with its key and its execution, and names what it cannot |
| CoordinatorEffects.TickLeaves | src/integrations/coordinator.js:628-655 | a turn of the alarm's loop claims the first row due for thirty seconds while fewer than twenty were claimed and, after the first, five seconds have not passed; else it prunes, sets the alarm and ends |
| CoordinatorEffects.FinishLeaves | src/integrations/coordinator.js:514-582 | a delivery's end writes result, error, state, next attempt and execution exactly as membership, handler, outcome and attempts say |
| CoordinatorEffects.InactiveLeaves | src/integrations/coordinator.js:584-602 | an inactive integration turns every waiting row into a dead letter, settles their executions and changes nothing else |
| CoordinatorEffects.RunBegins | src/integrations/coordinator.js:614-631 | an alarm run begins without an alarm and with nothing attempted, retries half a minute on when the registry fails, and delivers to the members it is given |
| CoordinatorEffects.AlarmIsSet | src/integrations/coordinator-storage.js:167-181 | the alarm is exactly the earliest time a waiting row is due, or now; none waiting, none set |
| CoordinatorTheorems.ExecutionIsWhole | src/integrations/coordinator-storage.js:183-198 | in each step an execution keeps its request and exactly its effects, or is pruned together with all of them |
| CoordinatorTheorems.ExecutionStaysWhole | src/integrations/coordinator-storage.js:183-198 | over any run that keeps it an execution keeps its request and exactly its effects, and the step that prunes it prunes all of them, fourteen days after it completed |
| CoordinatorBackend.IntegrationCoordinator.Commit | src/integrations/coordinator.js:377-431 | the submitting transaction inserts the execution and all its effects, or nothing, and keeps statuses derived |
| CoordinatorBackend.IntegrationCoordinator.Retry | src/integrations/coordinator.js:435-485 | the retrying transaction re-opens the row with the given key, and keeps statuses derived |
| CoordinatorBackend.IntegrationCoordinator.DeadLetterAll | src/integrations/coordinator.js:584-602 | the loop over affected executions settles each of them and no other, and keeps statuses derived |
| CoordinatorBackend.IntegrationCoordinator.RunAlarm | src/integrations/coordinator.js:614-678 | the alarm's loop leaves the store that the machine's ticks and finishes leave, and keeps statuses derived |
| BindingOutbox.NextKeeps | src/durable-events/binding-notifications.js:189-326 | every registration, advance, claim and delivery end keeps one notice per route, deliveries in flight carry the notice of their ID, nothing is delivered, expired or in flight ahead of the newest revision, and no row waits more than thirty seconds |
| BindingOutbox.AdvanceIsNotForgotten | src/durable-events/binding-notifications.js:189-228 | once a binding advances, every watcher then live has a notification of that revision or later waiting until exactly such a one is delivered or expires after the advance, in every later run |
| BindingOutbox.NoticeOutlastsWatcher | src/durable-events/binding-notifications.js:209-217 | an affected watcher's notification lasts as long as the watcher if and only if there was no live row to coalesce with or that row expires no sooner than the watcher |
| BindingOutbox.RenewedWatcherOutlivesNotice | src/durable-events/binding-notifications.js:209-217 | a literal run from the empty registry: a renewed watcher is live, its binding moved on, and the only notification expired unsent |
| BindingOutbox.OvertakenDeliveryIsHarmless | src/durable-events/binding-notifications.js:256-326 | the end of an older delivery leaves a newer notification and a watcher renewed at another revision untouched |
| BindingOutbox.RegisterLeaves | src/durable-events/binding-notifications.js:113-187 | when a registration is refused, unmatched, full or entered, and the tables it leaves |
| BindingOutbox.AdvanceLeaves | src/durable-events/binding-notifications.js:189-228 | an advance leaves one notice for every live watcher of its direction that expects an older revision, field by field, coalesced over a live one, and no other |
| BindingOutbox.BatchIsTwenty | src/durable-events/binding-notifications.js:230-254 | a batch is all that is due or the twenty earliest of it |
| BindingOutbox.ClaimLeaves | src/durable-events/binding-notifications.js:230-254 | the taken rows are leased for thirty seconds and remembered as they were |
| BindingOutbox.EndLeaves | src/durable-events/binding-notifications.js:294-325 | a delivered row and the watcher it was issued against go; a failed row waits one to thirty seconds, doubling; nothing else changes |
| BindingOutbox.BindingRegistry.RegisterWatcher | src/durable-events/binding-notifications.js:113-187 | registration matches the current binding and keeps within capacity, and a full table rolls back |
| BindingOutbox.BindingRegistry.ClaimBatch | src/durable-events/binding-notifications.js:230-254 | the claimed rows are leased and returned as they were read |
| BindingOutbox.BindingRegistry.FinishDelivery | src/durable-events/binding-notifications.js:294-325 | a delivery's end touches only the row of its ID and the watcher it was issued against |
| StateEvents.NextKeeps | public/event-stream/state-event.js:8-72 | every call keeps shown snapshots forward, completed calls increasing and baselines below the newest snapshot |
| StateEvents.AnimatedOnceAboveBaseline | public/event-stream/state-event.js:23-33 | in every interleaving shown snapshots keep one scope with non-decreasing revision and watermark, and each operation's handler completes at most once, in order, above every baseline set before its call |
| StateEvents.HistoryIsNotAnimated | public/event-stream/state-event.js:47-70 | an operation a baseline included, or that was handled before, is never animated afterwards |
| StateEvents.NewEventsAreAnimated | public/event-stream/state-event.js:47-70 | while open and read, every new operation in order above the baseline whose handler returns is completed, in order: none is lost |
| StateEvents.FirstReadAnimates | public/event-stream/state-event.js:40-70 | a new coordinator, once read, completes every later operation of that scope in order |
| StateEvents.UpdateLeaves | public/event-stream/state-event.js:23-33 | a snapshot is shown exactly when it is of the shown scope and not behind; otherwise the fault it gives, if any |
| StateEvents.HandleLeaves | public/event-stream/state-event.js:47-70 | an event calls the handler unless it is known, handled or in the baseline, when it is only remembered; faults for closing, backpressure, correlation and scope |
| StateEvents.InitializeLeaves | public/event-stream/state-event.js:40-44 | a fresh read makes the newest shown watermark the baseline and lets a waiting event through |
| StateEvents.HandlerEndLeaves | public/event-stream/state-event.js:58-70 | a handler that returns completes its call and remembers it; one that throws leaves it to be sent again |
| StateEvents.EndingsLeave | public/event-stream/state-event.js:35-46 | pausing drops the baseline, closing it and the waiting event, a wait that runs out its event |
| StateEvents.StateEventCoordinator.HandleNow | public/event-stream/state-event.js:47-70 | the object's handling is the handling step, with its refusals |
| StateEvents.StateEventCoordinator.InitializeSnapshot | public/event-stream/state-event.js:40-44 | a fresh read sets the baseline and decides a waiting event |
| FeatureState.TablesAgree | src/framework/feature-storage.js:788-806 | the tables accept exactly what the calculation accepts, then hold the value it computed, one revision later, and touch no other key |
| FeatureState.MemoryAgrees | src/framework/testing.js:756-771 | so does the test runtime's map |
| FeatureState.StepsAlike | src/framework/state-event-operation.js:250-279 | on stores that read alike both sides calculate the same summary, decide the same and stay alike |
| FeatureState.CalculationLeaves | src/framework/state-event-operation.js:250-279 | when a mutation is accepted, and its summary: value read, value left, whether and by how much they differ; a step up stops at the maximum, one down at the minimum |
| FeatureState.TablesLeave | src/framework/feature-storage.js:574-643 | the tables, by their own arithmetic, refuse exactly for revisions, value or room, and hold the value left one revision later |
| FeatureState.MemoryLeaves | src/framework/testing.js:756-771 | the test runtime accepts exactly what fits and holds the value left |
| FeatureState.StepsAddUp | src/framework/feature-storage.js:596-608 | over any run whose partial sums stay within bounds, tables and test runtime hold the start plus the raises minus the lowerings |
| FeatureState.OnlySensible | src/framework/feature-storage.js:330-343 | the input checks admit exactly safe bounds, values within them, steps of one to a million and increments up to a million; the tables refuse the rest |
| FeatureState.SubjectIsRecorded | src/framework/feature-storage.js:574-643 | the first label a stored counter is given is kept, and no other subject changes |
| FeatureState.ThreeAgree | src/framework/state-event-operation.js:250-279 | after any sequence of combined operations of one descriptor, tables, map and pure calculation hold the same value, tables and runtime have advanced their revisions equally, and a counter stays in its bounds |
| FeatureState.PresenceAgrees | src/framework/feature-storage.js:574-643 | within capacity, exactly when one operation makes tables and map differ about presence |
| FeatureState.PresenceOverRuns | src/framework/feature-storage.js:574-643 | over any sequence of combined operations of any descriptors, tables and map hold the same values throughout if and only if no step is a zero increment of an absent value, the reset of a stored counter, or a new value without room |
| FeatureState.ZeroIncrementParts | src/framework/feature-storage.js:330-375 | a literal run from empty stores: a zero increment leaves the tables without the value and the map with a zero |
| FeatureState.ResetParts | src/framework/testing.js:756-771 | a literal run from empty stores: after a raise and a reset the tables hold the counter's start and the map nothing |
| FeatureState.RevisionDiscipline | src/framework/feature-storage.js:276-375 | an ordinary mutation advances the revision by one iff a value or subject row changed; a combined one always does |
| FeatureState.RevisionCountsChanges | src/framework/feature-storage.js:276-375 | over any run of ordinary and combined mutations the tables keep within capacity and the revision counts exactly the steps that changed a row or were accepted combined operations |
| FeatureState.FeatureStorage.Count | src/framework/feature-storage.js:574-643 | the counter operation in place leaves the tables and value its specification says, refusing without a change |
| FeatureState.FeatureStorage.Apply | src/framework/feature-storage.js:788-806 | the combined mutation in place, including the revision of a no-op |
| JsonData.SortedDecides | src/framework/state-event-operation.js:50-71 | two values hold the same data if and only if their key-sorted copies are equal |
| JsonData.SortedFixpoint | src/framework/state-event-operation.js:50-71 | a key-sorted copy is its own key-sorted copy |
| CanonicalPayload.CanonicalIsSorted | src/durable-events/contract.js:60-111 | whatever a schema accepts, its canonical form is the key-sorted copy: nothing is added, dropped or changed |
| CanonicalPayload.AcceptsWhatFits | src/durable-events/contract.js:60-111 | a payload has a canonical form if and only if it fits its schema to the eleventh level: kinds, limits, declared and required fields |
| CanonicalPayload.SerializesWhatFits | src/durable-events/contract.js:113-118 | a payload serialises, to its key-sorted copy, if and only if it fits and that takes at most 4,096 bytes |
| CanonicalPayload.SerializedPassesRecheck | src/durable-events/stream.js:182-191 | a serialised payload always passes the stream's re-check, which accepts exactly payloads in canonical form |
| CanonicalPayload.SerializationDecides | src/durable-events/contract.js:113-118 | payloads serialise alike if and only if they hold the same data |
| ArgumentSchema.DefinedIsWellDefined | src/framework/argument-schema.js:81-92 | a defined default is a value its own parser returns unchanged |
| ArgumentSchema.DefineLeaves | src/framework/argument-schema.js:71-92 | a definition with a default must be optional and admit it, as parsed |
| ArgumentSchema.TrimTakesOff | src/framework/argument-schema.js:112-130 | trimming takes off the white space at both ends and nothing else |
| ArgumentSchema.PrimitiveParses | src/framework/argument-schema.js:94-200 | when a primitive argument parses, to what, and what one left out parses to |
| ArgumentSchema.ParsedObject | src/framework/argument-schema.js:201-244 | when an object parses and what the result holds at every key |
| ArgumentSchema.ParseIsIdempotent | src/framework/argument-schema.js:94-244 | parsing what a parse gave gives the same data |
| ArgumentSchema.ParseRespects | src/framework/argument-schema.js:201-244 | reordering fields changes neither whether an argument parses nor what data it parses to |
| PreparedRequest.ArgumentsFixpoint | src/framework/state-event-operation.js:204-207 | prepared arguments prepare to themselves |
| PreparedRequest.PreparedHolds | src/framework/state-event-operation.js:204-241 | a request is prepared exactly when its arguments parse, everything it selects is there and the mutation is accepted; then it holds the operation, the arguments and every entry resolved |
| PreparedRequest.ResolvedOnce | src/framework/state-event-operation.js:204-241 | the resolved entries of given arguments and configuration are the only ones |
| PreparedRequest.PreparedRevalidates | src/framework/state-event-operation.js:283-301 | a prepared request revalidates to itself without live configuration |
| PreparedRequest.RevalidationIsExact | src/framework/state-event-operation.js:283-301 | revalidation accepts a stored request if and only if some arguments and configuration prepare to it |
| PreparedRequest.ValidatePrepared | src/framework/state-event-operation.js:283-301 | the nested loops that gather configuration compute the revalidation |

## Left out

- Combined state/event streams: the combined mode of append, its hooks, gap and destination budget, and the modules it needs; event-only publication is modelled and the combined gap is taken as absent.
- Credentials, secrets, HMAC, digests, regular expressions and byte encodings: identifiers, fingerprints, cursors and counter keys are opaque and equal exactly when their inputs are; payload and request sizes are a given measure or absent.
- Request shape validation of the HTTP routes, HTTP itself, sockets beyond send success or failure, logging and diagnostics.
- The stream's own alarm scheduling and producer wake-up, and the trimming of its reset audit, which the history keeps whole.
- Watcher capacity as seen by the publisher: a full registry answers before the stream is asked, which can happen only when a route is first watched.
- Overlapping publishers: that at most one stream accepts an event is not promised for them; the per-stream guarantee and the truth of committed rows are proved for any overlap.
- Pending rows that expire into rejected are outside the claim that a rejected event was accepted nowhere.
- That a move eventually reaches its stream: a coalesced row keeps its first previous revision and the stream ignores one that does not match, so only safety is claimed.
- The publisher as one sequential function: it is a machine of the messages it exchanges with the ledger and the streams, so that being cut off between any two of them is an ordinary run.
- Several browsers at one stream, and a browser whose handler completes but whose recent list is not persisted: one browser is modelled, with handler and remembering as one step.
- Clocks: each synchronous piece of code reads one time, and times never decrease; a clock set back is not covered.
- The race between pausing and an event handler that was just woken: waking a waiting handler is part of initializing.
- Callbacks that throw while a snapshot is shown, and the watch helper that reconnects clients around the coordinator.
- Deployment-time schema changes: whether a payload is valid is fixed by its fingerprint.
- The number of nesting levels and serialised bytes allowed in arguments and prepared requests; both are unchanged by sorting and parsing again.
- Negative zero and numbers beyond exact integers: JSON numbers are reals, state counters are integers with the source's safe range.
- Counter subjects in the test runtime: its combined path records none and deletes one on reset, which the tables do not; only values are compared.
- Object keys that look like array indices, which engines list first; key order is a fixed total order.
- Feature-state migration, cooldowns, configuration values, integration registry lookups, membership management, dead-letter listing and status pages.
- CoordinatorTheorems.NothingIsStranded: says nothing while an alarm run is in progress, because the alarm is unset then; that the platform runs an interrupted alarm again at once is taken from the platform, and that an alarm run ends is not claimed.
- QueueRefinement.StreamRefinesQueue: compares runs in which no retained event expires, nothing is reset, no stored binding of any direction advances or lies past an active grant, and publications address this stream, because the runtime treats the rest differently from the stream by design; clocks stay within exact integers and fresh cursors do not repeat. That the stream ends its consumer (an invalid acknowledgement, a failed send, a revoked or ended grant, a closed socket) is taken as the environment disconnecting the queue's connection: the runtime itself stays connected after an invalid acknowledgement and only throws.
