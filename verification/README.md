# Transit: a verified model

Transit is a durable message mesh: daemons on hosts spool messages, Durable Objects
queue, dispatch and acknowledge them, and connectors turn outside conversations into
deliveries. This project models the protocols that must not lose a message, send it
too often or let two indexes disagree, and proves what they keep over whole runs.

| files | what they model |
|---|---|
| HubModel, HubInvariant, HubRename, HubRoster, RosterExact, HubRuns | the delivery queue of one host: entries, per-recipient markers, the nine operations, the roster |
| HubDispatch, HubClaims, HubStale | a dispatch pass and its alarm; re-entrant passes on stale listings |
| HubSends, HubWire, HubExact | what a pass sends and buries, what goes over the wire, and what acks, naks and requeues change, told by the stored fields |
| HubListings, HostHub | the hub as an object, its loops over storage listings, and sending |
| SendPath | one send frame from the sender's spool through its hub to a hub or room, with a stop or a failing call at every await |
| SendRaces | attempts of one frame under way at once |
| RefusedMail | a message between the outbox and a hub that has refused it |
| RoomModel, RoomFanOut, RoomExact, Room | the ordered ledger of a room, its fan-out, and the room as an object |
| AlarmBudget | the hourly budget every wake-up passes through, and its stored transaction |
| IntegrationModel, IntegrationLaws, IntegrationExact, Integration | delivery, settlement and redelivery of a connector, its wake-ups, and the object |
| Awaits, Redelivery, SessionHold, Reposts | its operations taken apart at their awaits, together with the target's hub: when a settlement, a hold and a posted reply stand |
| RegistryModel, RegistryLaws, RegistryRecords, RegistryBindings, RegistryIdentity, Registry | the daemon's native identities: four mutually indexed maps over shared adapter objects |
| SpoolModel, SpoolExact, Spool | the outbox directories and the driver that flushes them |
| Flights | single-flight delivery in the daemon |
| TokenBucketModel | the token bucket |
| Address | the address grammar, as the Worker and as the daemon parse it |
| Storage, Common | ordered listings and small vocabulary |

Each protocol appears twice. A state machine over values gives every operation as a
function, and the laws are proved about it and its runs. The source's own form, a class
whose methods loop over listings and overwrite fields, is proved method by method to do
what the functions say, so the laws hold of it. A Durable Object serialises its storage
awaits and the daemon holds a lock, so one such stretch is one atomic step; HubClaims,
HubStale, Awaits, SendPath, SendRaces, RoomFanOut and Flights model what happens in between.

What comes from outside is a parameter: the clock, D1 (declared names, connections,
enrolled hosts), what a socket or connector answers, generated tokens and names, and
whether a save succeeds. Listings are taken by the objects themselves; where a law
speaks of a run, it holds for every listing that is true of the state.

## Where the code and its documentation part

- `resolveQueuedMarker` says it falls back to the oldest queued entry of a message
  (src/do/host-hub.ts:1364-1365). It sorts keys that begin with the recipient, so it takes
  the alphabetically first recipient. The model follows the code.
- The reserved names are an object literal (src/lib/transit/addr.ts:4), which also answers
  for `constructor`; the daemon's map does not (`Address.ParsersDisagreeExactly`).
- A refusal the daemon retries, rate_limited or plan_limit, is stored by the hub and given
  to every retry (`RefusedMail.LeavesOnlyByExpiry`).
- A room call that fails is stored as not_member, which the daemon takes for permanent,
  though the room may have committed (`SendPath.RefusedThoughPosted`).
- A dispatch run that records a death from an old listing can leave one message under two
  names, or revive one that was injected (`HubInvariant.StaleDeathKeepsExact`,
  `HubStale.StaleDeathAfterRename`, `HubStale.StaleDeathAfterAck`).
- A rename keeps the queue's correspondence only when no two entries of one message meet
  under a name (`HubRename.RenameExact`), and overwrites a finished pair it lands on
  (`HubRuns.FinishedKeptExact`).
- A nak overwrites the hub's alarm (`HubDispatch.NakAlarmExact`).
- A room message whose commit was not followed by its fan-out is never fanned out
  (`RoomFanOut.CommittingAttemptDecides`).
- A registration that fails after absorbing records does not put them back
  (`RegistryLaws.LateFailureExact`), and a name it took over can stay bound for good
  (`RegistryBindings.StrandedForGood`).
- Resuming an integration does not re-arm what is not yet due
  (`IntegrationLaws.ResumeDoesNotRearm`), and a dispatch, a read through a
  room or a reply that was awaiting an answer can undo a settlement
  (`Redelivery.SettlementSurvivesExact`), or a session's hold
  (`SessionHold.HoldSurvivesExact`).
- Draining the hub's queue does not end a settled delivery for good: a call on its way, or
  a dispatch run with an old copy, can queue it again (`Redelivery.NeverQueuedAgainExact`).
- Attempts of one frame under way at once can replace a stored answer by another
  (`SendRaces.AnswerStandsExact`).
- A reply can be posted again, or lost to a second one, while a post or a check of it is
  under way (`Reposts.PostedStandsExact`).
- The same copy of a queue entry can be sent twice after a draft hold
  (`HubClaims.SameCopyNeedsHold`).

## Model

| member | source | states |
|---|---|---|
| HubInvariant.QueueDeliveryKeeps | src/do/host-hub.ts:413-448 | accepting a message, whether it is new, a duplicate or a redelivery, keeps queue entries and queued markers in one-to-one correspondence and sequence numbers unique |
| HubInvariant.AckKeeps | src/do/host-hub.ts:1241-1255 | so does an ack, whichever marker it resolves to |
| HubInvariant.MarkDeadKeeps | src/do/host-hub.ts:1403-1413 | so does the death of a stored entry |
| HubInvariant.StaleDeathExact | src/do/host-hub.ts:1136-1149 | a death recorded from a stale snapshot keeps the correspondence if and only if the key, where still stored, still holds that message and recipient and a re-queued marker still points at it |
| HubInvariant.StaleDeathKeepsExact | src/do/host-hub.ts:1136-1149 | and the whole invariant, numbers and dead letters included, if and only if the key is still stored for that message, or its marker is done with it and its number is used nowhere else |
| HubInvariant.NakKeeps | src/do/host-hub.ts:1309-1359 | so does a nak: final, held for a draft, or retryable |
| HubInvariant.CancelKeeps | src/do/host-hub.ts:496-513 | so does a cancellation of every queued recipient of a message |
| HubInvariant.CancelExact | src/do/host-hub.ts:496-513 | a cancellation removes exactly the entries of that message, leaves no marker of it queued and changes no other marker |
| HubInvariant.RequeueKeeps | src/do/host-hub.ts:465-487 | so does bringing a dead letter back under its old key |
| HubInvariant.DispatchKeeps | src/do/host-hub.ts:1136-1198 | so does one dispatch iteration on an entry as it is stored |
| HubInvariant.InboxExact | src/do/host-hub.ts:373-389 | an inbox listing holds a message if and only if it is queued for the reader, each once, in sequence order |
| HubInvariant.SettleExact | src/do/host-hub.ts:397-404 | settling removes exactly the one entry of that message and reader when it reports settled and changes nothing otherwise |
| HubExact.EchoMeans | src/do/host-hub.ts:1368-1388 | an ack or nak means the echoed recipient's own entry while it is queued, otherwise some queued one of the message, and nothing exactly if none is |
| HubExact.FallbackExact | src/do/host-hub.ts:1368-1388 | otherwise it is the first by the agents' names in collation order: hyphens, then the separator, then digits, then letters |
| HubExact.AckExact | src/do/host-hub.ts:1241-1255 | an ack removes that entry, marks its pair injected and touches nothing else |
| HubExact.NakExact | src/do/host-hub.ts:1309-1359 | a final nak buries the entry with its code, a draft hold gives one attempt back, any other leaves the attempts; the last two note the code and keep the rest of the message |
| HubExact.NakWakesExact | src/do/host-hub.ts:1324-1358 | a retryable nak wakes the hub in five minutes for a hold and otherwise after the delay of the sends so far, or at the end of the hour with the budget spent |
| HubExact.RequeueExact | src/do/host-hub.ts:465-480 | a requeued dead letter is queued under its old key with no attempts, no failure and a full day to live, the message and its address unchanged |
| HubExact.SettleInboxExact | src/do/host-hub.ts:397-404 | settling takes the reader's own entry exactly if it is queued |
| HubExact.RetryDelayExact | src/do/host-hub.ts:1162 | the delay is 5 s up to the first send and then doubles up to 5 minutes |
| HubExact.BatchExact | src/do/host-hub.ts:1129-1132 | a batch is everything queued, or the first 128 entries by recipient and number |
| HubExact.PassWakesExact | src/do/host-hub.ts:1230-1239 | with budget left a full batch wakes the hub again at once, any other at the earliest instant the pass noted |
| HubSends.VisitExact | src/do/host-hub.ts:1110-1198 | a visited copy is buried exactly if it has had forty sends, a day in the queue or a connection that is no more; it is sent exactly if, besides, a daemon is connected that has published its agent, its retry is due and the stored attempts are still the copied ones; then it counts one more, and else nothing changes |
| HubSends.DeathReason | src/do/host-hub.ts:1136-1149 | what it is buried with: the last failure if it ran out, the revocation otherwise |
| HubSends.PassExact | src/do/host-hub.ts:1128-1198 | of a batch a pass sends exactly the entries that go out, each once and as it reads with its count, buries exactly the spent ones and leaves every other |
| HubWire.NumberBearsInput | src/do/host-hub.ts:413-448 | whatever the storage permits after an acceptance, every entry, dead letter and listed copy of its number has the message, organization, room and connection the caller gave, the caller's address until a rename and the caller's instant until a requeue |
| HubWire.WireCarriesInput | src/do/host-hub.ts:1177-1184 | and whatever is sent for it is the caller's envelope, or its rendering with the counter raised by the sends so far |
| HubWire.PairCarriesInput | src/do/host-hub.ts:1177-1184 | the same by pair, followed through renames, until it is accepted again |
| HubWire.AckReportsInput | src/do/host-hub.ts:1276-1293 | its ack reports to the caller's room under the caller's number and, by a transport, to the integration whose delivery it is |
| HubWire.InboxShowsInput | src/do/host-hub.ts:373-389 | and its reader is shown the caller's message as it would be sent |
| HubRename.RenameExact | src/do/host-hub.ts:763-783 | a rename over the whole queue keeps the correspondence if and only if no entry is moved while another entry of the same message has, or still has, its new name |
| HubRename.RenameKeeps | src/do/host-hub.ts:763-783 | under that condition the whole invariant is kept |
| HubRename.SwapBreaks | src/do/host-hub.ts:763-783 | the condition is needed: two agents that swap names while one message is queued for both leave an entry whose marker is gone |
| HubRuns.StepKeeps | src/do/host-hub.ts:406-513 | every operation of the hub, a rename under the condition of HubRename.RenameExact, keeps the invariant |
| HubRuns.StepConserves | src/do/host-hub.ts:413-448 | after any operation an accepted pair still has a marker, under its own or its new name, and until injected the hub still holds the very message accepted for it |
| HubRuns.OneEntryPerPair | src/do/host-hub.ts:413-448 | a pair is queued if and only if it has a queue entry, and it never has two |
| HubRuns.EntryReaches | src/do/host-hub.ts:763-783 | a renamed entry is the same message under the new agent and that agent's address, and keeps its number; every other entry is unchanged |
| HubRuns.FinishedKeptExact | src/do/host-hub.ts:763-783 | an injected pair or a dead letter survives a rename if and only if no queued entry of its message is renamed onto it |
| HubRuns.RenameRevivesInjected | src/do/host-hub.ts:763-783 | it does happen: one recipient acks, the other is renamed onto it, and the message is queued for it again |
| HubStale.ReachableSound | src/do/host-hub.ts:1128-1198 | with any number of dispatch runs on listings taken at any time, every reachable state satisfies the invariant as long as deaths recorded from copies are safe, and each number means one message for ever |
| HubStale.StepCarried | src/do/host-hub.ts:1128-1198 | no step the hub's storage permits, unsafe deaths and colliding renames included, makes a number mean another message, or files a dead letter under another pair |
| HubStale.UnsafeVisitBreaks | src/do/host-hub.ts:1136-1149 | the safety of those deaths is exactly what the invariant needs |
| HubStale.StaleCopySendsItsOwn | src/do/host-hub.ts:1162-1198 | a stale copy is only ever sent as the message stored under its key, to the recipient it is stored for |
| HubStale.StaleDeathConservesExact | src/do/host-hub.ts:1403-1413 | such a death loses or revives nothing if and only if the entry is still stored, or has no marker or the same dead letter |
| HubStale.StaleRunConserves | src/do/host-hub.ts:1128-1198 | nothing accepted is lost over any run with such dispatch runs in between |
| HubStale.StaleDeathAfterRename | src/do/host-hub.ts:1128-1149 | an unsafe death does happen: listed, renamed, expired, and the requeued dead letter stands in the queue under both names |
| HubStale.StaleDeathAfterAck | src/do/host-hub.ts:1403-1413 | so does a harmful one: listed, acked, expired, and an injected message can be queued again |
| HubClaims.VisitPaid | src/do/host-hub.ts:1169-1181 | a dispatch iteration with a stale copy claims only if the stored attempt count is still the one copied, so every claim is paid for by an attempt or a hold |
| HubClaims.NakPaid | src/do/host-hub.ts:1324-1329 | a draft hold gives back one attempt, which the count of holds pays for |
| HubClaims.RunPaid | src/do/host-hub.ts:1128-1181 | that account balances under any interleaving of dispatch runs on stale listings with every other operation, renames included |
| HubClaims.SendsBounded | src/do/host-hub.ts:1128-1181 | hence the stored attempt count never exceeds 40 and one queue life is claimed for sending at most 40 plus the number of accepted draft holds times |
| HubClaims.SameCopyNeedsHold | src/do/host-hub.ts:1169-1181 | whatever happens in between, the same copy of an entry is sent twice in one queue life only if a draft hold of the entry was accepted after the first time |
| HubClaims.HoldAllowsSameCopy | src/do/host-hub.ts:1324-1329 | and then it can be: two runs list a new entry, the first sends it, the hold gives the attempt back, and the second sends its copy |
| HubDispatch.SendAgreesWithDue | src/do/host-hub.ts:1162-1198 | the retry time noted when sending is the due time a later pass recomputes |
| HubDispatch.PassEarliest | src/do/host-hub.ts:1136-1198 | the wake-up a pass notes is the earliest instant any listed entry still queued becomes due or, without a sink accepting it, expires; unlisted entries are untouched |
| HubDispatch.PassKeeps | src/do/host-hub.ts:1136-1198 | a pass over a fresh listing keeps the hub invariant |
| HubDispatch.PassSetsAlarm | src/do/host-hub.ts:1128-1239 | after a pass that saw fewer than 128 entries with budget left, the alarm is exactly that instant, over every entry that remains |
| HubDispatch.NakAlarmExact | src/do/host-hub.ts:1309-1359 | a nak overwrites the alarm, granted or refused by the budget: every other stored entry whose wake-up was covered stays covered if and only if no alarm is written or the one written is no later than that entry is due, and all of them if and only if it is no later than the earliest of them is due |
| HubDispatch.NakPostponesAnother | src/do/host-hub.ts:1352-1353 | it does happen: two messages are sent, and holding one for a draft moves the other's retry from 5 s to 5 minutes, or to the end of the hour when the budget is spent |
| HubModel.RetryDelayShape | src/do/host-hub.ts:1162 | delays are 5 s doubling with each send, at most 5 minutes, and never shrink |
| HubModel.ResolvesUnique | src/do/host-hub.ts:1368-1388 | an ack or nak resolves to one marker, determined by the stored state |
| HubModel.AckSettlesAnother | src/do/host-hub.ts:1372-1387 | an ack echoing an agent settles another recipient if and only if that agent has no queued entry and another recipient of the message has |
| HubRoster.AddressOutlivesDeparture | src/do/host-hub.ts:335-342 | a name a publish no longer lists stays routable, until listed again, exactly for the queue time to live, and not at all if that publish renamed it |
| HubRoster.GraceLasts | src/do/host-hub.ts:724-761 | sweeps and other departures in between neither shorten nor extend the grace of a name |
| HubRoster.NoGrace | src/do/host-hub.ts:740-744 | a name that was followed to another one leaves no grace behind |
| HubRoster.PublishApart | src/do/host-hub.ts:745-751 | no name is both listed and departed |
| HubRoster.ClearExact | src/do/host-hub.ts:731-744 | the loop over the old roster computes, in whatever order it visits, the renames, departures and graces of a publish |
| RosterExact.RenamesExact | src/do/host-hub.ts:724-736 | a listed name moves exactly if the publish shows another one last in its pane, and to that one |
| RosterExact.PublishExact | src/do/host-hub.ts:724-761 | a publish lists exactly its agents, dates the departure of each name it drops, spends the grace of each it lists, keeps any other departure, and forgets those a day old exactly when it drops a name |
| HubRoster.PublishKeepsExact | src/do/host-hub.ts:724-783 | a publish keeps the queue's invariant if and only if the renames it finds in the roster collide nowhere in its listing |
| HostHub.HostHub.CanReceive | src/do/host-hub.ts:335-359 | answers whether a message can be queued for a name: listed, within its grace, or declared |
| HostHub.HostHub.QueueDelivery | src/do/host-hub.ts:406-448 | refuses an unroutable recipient, answers a duplicate, or stores entry, marker and next sequence number together |
| HostHub.HostHub.ResolveQueuedMarker | src/do/host-hub.ts:1368-1388 | returns the echoed recipient when it is queued, otherwise the queued marker whose key sorts first, or nothing when none is queued |
| HostHub.HostHub.FindDeadMarker | src/do/host-hub.ts:1390-1401 | returns the first dead marker of the message in key order, or nothing if there is none |
| HostHub.HostHub.HandleDeliveryAck | src/do/host-hub.ts:1241-1307 | settles the resolved entry and nothing else, then reports a room message to its room under its number and an arrival to the integration whose delivery it is |
| HostHub.HostHub.HandleDeliveryNak | src/do/host-hub.ts:1309-1359 | buries, gives back one attempt, or keeps the resolved entry, and asks the budget for the matching wake-up |
| HostHub.HostHub.MarkDead | src/do/host-hub.ts:1403-1413 | removes the entry and files the item as a dead letter |
| HostHub.HostHub.SettleInbox | src/do/host-hub.ts:397-404 | settles the reader's own queued entry or reports that there is none |
| HostHub.HostHub.ReadInbox | src/do/host-hub.ts:373-389 | returns the reader's entries in sequence order, rendered as they would be sent, and changes nothing |
| HostHub.HostHub.CancelDelivery | src/do/host-hub.ts:496-513 | drops every queued entry of the message and counts them |
| HostHub.HostHub.Requeue | src/do/host-hub.ts:465-480 | puts the first dead letter back under its key with its attempts and times reset |
| HostHub.HostHub.ReplaceRoster | src/do/host-hub.ts:724-761 | replaces the roster, opens and spends graces, and finds the renames |
| HostHub.HostHub.ApplyRoster | src/do/host-hub.ts:724-783 | does that and then moves every entry of a renamed agent, in storage order, keeping the queue's invariant exactly when no two collide |
| HostHub.HostHub.OldestEntries | src/do/host-hub.ts:1129-1132 | lists the first 128 entries in storage order |
| HostHub.HostHub.DispatchOne | src/do/host-hub.ts:1136-1198 | one iteration on the snapshot's copy: buried exactly if spent, sent exactly if the daemon takes its agent, it is due and no other run was faster, and otherwise left |
| HostHub.HostHub.DispatchQueued | src/do/host-hub.ts:1128-1239 | the pass over the listing: what it sends, buries and leaves of every entry of the batch, and the one wake-up it asks for |
| HostHub.HostHub.DispatchListed | src/do/host-hub.ts:1136-1198 | the loop over one listing, and what it hands to the socket |
| HostHub.HostHub.AdmitSend | src/do/host-hub.ts:866-1061 | one attempt of a send frame to an agent, of this hub or another, or to a room, stopping wherever it is told to |
| HostHub.HostHub.FailCall | src/do/host-hub.ts:946-958 | a call that throws is stored as not_member for a room and leaves an agent frame processing |
| HubListings.CancelListedExact | src/do/host-hub.ts:498-511 | cancelling a listing taken beforehand removes exactly the keys its queued markers hold |
| HubListings.EntriesOrdered | src/do/host-hub.ts:1129-1132 | queue keys are listed by recipient, then by number, in a total order |
| SendPath.AtMostOneEntry | src/do/host-hub.ts:866-1061 | however often a frame is retried, wherever each attempt stops, and whatever else happens at the target, its target hub gets at most one queue entry for it, and one more for each rename of the recipient in between |
| SendPath.RenameAllowsSecondEntry | src/do/host-hub.ts:1012-1033 | that one more does happen: queued, renamed before the outcome is stored, queued again under the old name |
| SendPath.AnswerIsFinal | src/do/host-hub.ts:871-876 | once an outcome is stored every later retry gets it and changes nothing, attempts following each other |
| SendRaces.PartsMakeAttempt | src/do/host-hub.ts:866-1061 | an attempt is taken apart at its awaits: with nothing in between its parts are the attempt |
| SendRaces.AnswerStandsExact | src/do/host-hub.ts:871-877 | with attempts of one frame under way at once, a stored answer stands in every continuation if and only if none of them can still store another: none still being checked or called, and none answered otherwise, or by a room, whose failed call is stored as not_member |
| SendRaces.AckReplaced | src/do/host-hub.ts:1012-1033 | it does happen: two attempts start, the first is acked and the second's refusal replaces the ack over a queued message |
| SendRaces.NakReplaced | src/do/host-hub.ts:1012-1033 | and the reverse |
| SendRaces.AtMostOneEntryRacing | src/do/host-hub.ts:866-1061 | however many attempts race, and whatever calls outlive them, the target gets at most one entry, and one more for each rename of the recipient in between |
| SendPath.AckMeansAccepted | src/do/host-hub.ts:1012-1033 | an ack is never stored without the target having accepted the message |
| SendPath.NakOverAccepted | src/do/host-hub.ts:866-1061 | an attempt answers nak over an accepted message if and only if an earlier attempt got through and this one's checks or the target refuse |
| SendPath.RefusedExact | src/do/host-hub.ts:871-1010 | a frame touches its target only if its addresses parse, its sender is an agent of the host, it has a token, its body fits, its plan allows it, the organizations are connected and the target exists; otherwise it is refused with the code of the first of these that fails, in that order |
| SendPath.AdmittedExact | src/do/host-hub.ts:871-1061 | it is acked exactly if all of them hold and the target takes it |
| SendPath.EffectExact | src/do/host-hub.ts:946-1033 | and what reaches the target then is the frame's own message or post |
| SendPath.NakDespiteDelivery | src/do/host-hub.ts:900-909 | it does happen: stop after queueing, then be rate limited on the retry |
| SendPath.RoomPostOnce | src/do/host-hub.ts:946-958 | a room answers a retried frame from its ledger, and an ack means it has the message |
| SendPath.RoomNakOverEntry | src/do/host-hub.ts:946-958 | an attempt ends refused over an entry of the ledger if and only if the room already has the message and a check, the call or the room fails, or the checks pass, the room accepts and the call fails on its way back |
| SendPath.RefusedThoughPosted | src/do/host-hub.ts:946-958 | it does happen: the room commits, the call fails, and the sender is told for good that it is no member |
| SendPath.AtMostOneLedgerEntry | src/do/host-hub.ts:946-958 | over any run of retries and room operations the room gets at most one ledger entry for the frame while that entry is not pruned |
| SendPath.RoomAnswerIsFinal | src/do/host-hub.ts:871-876 | a stored outcome is final for room frames too |
| RefusedMail.LeavesOnlyByExpiry | src/do/host-hub.ts:871-876 | from a stored rate_limited or plan_limit refusal on, over any run of flushes, expiries and whatever else happens at the hubs and in the spool, the message is never sent: it stays in the outbox if and only if no expiry it is too old for has come, and otherwise is a dead letter |
| SendPath.AnswerRetiresExact | daemon/client.go:300-325 | of the codes a hub answers, exactly ack and the four permanent refusals retire a message |
| AlarmBudget.ArmKeeps | src/lib/transit/alarm-budget.ts:18-57 | one call keeps the counters sound and a refusal leaves an alarm at the end of the hour |
| AlarmBudget.ArmExact | src/lib/transit/alarm-budget.ts:18-57 | a call is granted exactly while its clock hour has had fewer than the limit; then it is counted and arms the alarm for its instant, and otherwise the end of the hour is armed and noted as the time the budget resumes |
| AlarmBudget.WritesPerHourBounded | src/lib/transit/alarm-budget.ts:18-57 | over any run with a nondecreasing clock the alarm is written at most limit + 1 times in any clock hour |
| AlarmBudget.RefusalArmsEndOfHour | src/lib/transit/alarm-budget.ts:43-51 | every refused call of any run leaves an alarm pending exactly at the end of its hour |
| AlarmBudget.CountersForOneHour | src/lib/transit/alarm-budget.ts:30-40 | at most one hour's counters are ever stored |
| AlarmBudget.AlarmStorage.BudgetedAlarm | src/lib/transit/alarm-budget.ts:18-57 | the transaction that rolls the hour, counts, and arms or refuses |
| IntegrationLaws.RunQuiet | src/do/integration.ts:1032-1041 | in every run of whole operations a settled delivery stays settled, and a settled or session-held one carries no retry time |
| IntegrationLaws.QuietNeverDispatched | src/do/integration.ts:740-750 | so the due scan passes it by, and requeue, open to dead deliveries only, never succeeds |
| IntegrationLaws.DueScanLeaves | src/do/integration.ts:1248-1262 | the due scan leaves what is not due exactly as it was |
| IntegrationExact.DispatchExact | src/do/integration.ts:940-1010 | a dispatch of an active integration gives every open delivery one attempt more, or its target's error, and dates the next try unless a session holds it; any other changes nothing |
| IntegrationExact.DueScanExact | src/do/integration.ts:1248-1262 | the scan redelivers exactly the listed deliveries that are open and due, each once |
| IntegrationExact.RetriesExact | src/do/integration.ts:1264-1284 | the retries post exactly the replies that are due and that the connector takes, settling their deliveries, and date the other due ones a minute on |
| IntegrationExact.AlarmExact | src/do/integration.ts:789-809 | the handler does both, in that order, for everything stored |
| IntegrationExact.NothingLeftDue | src/do/integration.ts:789-809 | so it leaves no open delivery and no unposted reply still due |
| IntegrationExact.LastWakeExact | src/do/integration.ts:1223-1246 | and asks last for the earliest instant anything waits for, or the next health ping |
| IntegrationExact.ClockExact | src/do/integration.ts:1043-1055 | a dispatch and a first read ask for the delivery's new date, and an unposted reply for a minute on, and the alarm moves there only if it was later, or to the end of the hour with the budget spent |
| IntegrationExact.ConnectorWakes | src/do/integration.ts:717-809 | every instant a connector asks for while resuming or in the handler is covered |
| IntegrationExact.DrainedExact | src/do/integration.ts:698-715 | the host is asked to drop exactly the open deliveries of a settled conversation, and those whose reply a retry posts |
| IntegrationExact.IngestExact | src/do/integration.ts:366-432 | an event is taken in exactly if the integration is active, its rate allows it and its key is new, and its delivery is to the event's own target and conversation |
| IntegrationExact.ReadExact | src/do/integration.ts:451-482 | only the target, or a member of the target room, reads, and the first read of an open delivery marks it and dates it anew |
| IntegrationExact.HandledExact | src/do/integration.ts:667-696 | they, or an operator, settle it once |
| IntegrationExact.InjectionExact | src/do/integration.ts:644-665 | a report counts for an open delivery at that very address and suspends redelivery exactly when an agent's adapter has it |
| IntegrationExact.SettleExact | src/do/integration.ts:698-715 | a conversation settles its own open deliveries and no others |
| IntegrationExact.ReplyExact | src/do/integration.ts:560-630 | a reply is refused for the first reason that holds, or recorded as the caller's own text and posted, or kept for another try in a minute |
| IntegrationExact.RequeueExact | src/do/integration.ts:740-750 | a dead delivery, and no other, starts over and is dispatched at once |
| IntegrationExact.ResumeExact | src/do/integration.ts:717-731 | resuming redelivers exactly what is due |
| Awaits.PartsMakeIngest | src/do/integration.ts:366-432 | operations are taken apart at their awaits: with nothing in between, the parts of an ingest store what the operation stores |
| Awaits.PartsMakeRead | src/do/integration.ts:451-467 | and so do those of a read through a room |
| Awaits.PartsMakeHandled | src/do/integration.ts:667-696 | of marking handled |
| Awaits.PartsMakeReply | src/do/integration.ts:560-630 | and of a reply, its check, its recording and its post |
| Awaits.RunSound | src/do/integration.ts:940-1041 | over any interleaving of those parts, restarts and calls that outlive them included, no delivery is dead, and what is settled or held by a session has no retry time |
| Awaits.RunKeepsHub | src/do/host-hub.ts:406-513 | and the hub's invariant holds throughout as long as its own dispatch runs and renames keep it |
| Redelivery.SettlementSurvivesExact | src/do/integration.ts:679-696 | a stored settlement survives every interleaving if and only if nothing that holds an unsettled copy of the delivery is under way when it is stored: no dispatch, no first read through a room, no reply not yet recorded |
| Redelivery.LateDispatchUnsettles | src/do/integration.ts:984-1002 | it does happen: ingested, handled while the dispatch awaits its target, and unsettled again with a redelivery due |
| Redelivery.LateReadUnsettles | src/do/integration.ts:451-467 | it does happen with no dispatch anywhere: a member's read of a room message awaits the room, an operator marks it handled, and the read puts it back with a redelivery due |
| Redelivery.LateReplyUnsettles | src/do/integration.ts:579-608 | and with a reply: marked handled before it is recorded, and then it cannot be posted |
| Redelivery.NeverQueuedAgainExact | src/do/integration.ts:689-715 | a settled delivery is queued for its agent in no continuation, whatever the hub's storage permits, if and only if the hub is done with it (no entry, no marker but injected ones, no dispatch run with a copy that expired or can be revoked) and nothing under way can wake it: no first read, no unrecorded reply to what is unread, no dispatch but one whose copy is read and held by the session, none of these at all where a dispatch has been called for, and no call on its way but a first one to an agent the hub has a marker of |
| Redelivery.StaleRunQueuesAgain | src/do/host-hub.ts:1128-1149 | a dispatch run of the hub does bring it back: it lists the expired entry, the message is handled and drained, and it buries its copy, which can be requeued |
| Redelivery.LateCallQueues | src/do/integration.ts:968-990 | so does a call: the dispatch gives up on it, the message is handled and drained, and then the hub runs it |
| Redelivery.DrainInjects | src/do/integration.ts:1329-1350 | the cancellation after a settlement leaves every marker injected if and only if no recipient of it had died |
| Redelivery.DrainIsDoneExact | src/do/integration.ts:1329-1350 | and in a hub that keeps its invariant leaves it done with the message if and only if, besides that, no dispatch run has a copy that can die |
| SessionHold.HoldSurvivesExact | src/do/integration.ts:644-665 | a hold an injection recorded survives every continuation without a report from another transport if and only if nothing under way will write back a copy without it |
| SessionHold.LateDispatchDropsHold | src/do/integration.ts:984-1009 | it does happen: the adapter's ack is reported while the dispatch awaits its target, its end takes the hold away and dates a redelivery, and the message can be queued a second time |
| IntegrationLaws.RunDrains | src/do/integration.ts:1329-1350 | over any run a delivery becomes settled if and only if the queue of its host is asked to drop it |
| IntegrationLaws.StepCovers | src/do/integration.ts:1043-1055 | while active, every operation keeps each due time covered by the pending alarm |
| IntegrationLaws.RunCovers | src/do/integration.ts:1223-1246 | over every active run each unsettled delivery and unposted reply with a due time has an alarm no later than that time or the end of the current clock hour, whatever the budget |
| IntegrationLaws.ConfiguredRunCovers | src/do/integration.ts:1223-1246 | in particular from configuration on |
| IntegrationLaws.AlarmCovers | src/do/integration.ts:789-809 | the handler covers everything again, whatever alarm there was |
| IntegrationLaws.PausedStepCovers | src/do/integration.ts:717-738 | pausing, and work done while paused, keeps the cover until the handler runs |
| IntegrationLaws.PausedAlarmExact | src/do/integration.ts:789-791 | the handler of a paused integration keeps the cover if and only if nothing was waiting |
| IntegrationLaws.ResumeDoesNotRearm | src/do/integration.ts:726-731 | resuming does not restore it: retries not yet due are left without an alarm unless the connector asks for one |
| IntegrationLaws.PausedOverAnAlarmStrands | src/do/integration.ts:717-731 | it does happen: two retries, paused over the first alarm, resumed, and the second has no alarm |
| IntegrationLaws.OneDeliveryPerEvent | src/do/integration.ts:366-426 | over any run an event key gets at most one delivery, and every repetition is answered with that one |
| IntegrationLaws.FirstReplyStands | src/do/integration.ts:560-630 | over any run of whole operations a delivery keeps the first reply recorded for it, and a posted reply is never touched or posted again |
| Reposts.PostedStandsExact | src/do/integration.ts:1264-1303 | with posts under way, a posted reply is neither changed nor posted again in any continuation if and only if no other post of it is: no answer being checked, no post awaiting the connector, no listing of a retry that shows it unposted and due at the instant of the listing |
| Reposts.PostedTwice | src/do/integration.ts:594-618 | it does happen: the alarm posts a reply whose first post is under way, that one fails and puts back a copy that reads unposted, and the alarm posts it again |
| Reposts.SecondAnswerOverwrites | src/do/integration.ts:567-608 | and two answers checked at once are both posted, the second overwriting the first |
| IntegrationLaws.ReplyAnswers | src/do/integration.ts:560-630 | a reply is accepted if and only if one is recorded already or plan, owner, conversation and connector allow it, and asking again, by whomever, returns what is recorded and changes nothing |
| IntegrationLaws.RedeliveryDelayShape | src/do/integration.ts:1012-1019 | redelivery backs off from 5 minutes, from 20 once read, never shrinks and stays within 30 |
| Integration.Integration.IngestEvent | src/do/integration.ts:366-432 | dedupes by event key, records the delivery and dispatches it |
| Integration.Integration.DispatchDelivery | src/do/integration.ts:940-1010 | skips paused, settled and dead; counts the attempt, re-arms and schedules |
| Integration.Integration.ReadMessage | src/do/integration.ts:451-482 | refuses whoever is neither the target nor a member of the target room, and postpones redelivery on the first read of an unsettled delivery |
| Integration.Integration.RecordInjection | src/do/integration.ts:644-665 | counts the arrival and suspends redelivery when the agent's session holds the message |
| Integration.Integration.MarkHandled | src/do/integration.ts:667-677 | refuses an unknown delivery and a caller that does not own it, then settles it |
| Integration.Integration.FinishHandled | src/do/integration.ts:679-696 | settles once, draining the host's queue, and answers duplicate afterwards |
| Integration.Integration.SettleConversation | src/do/integration.ts:698-715 | settles exactly the unsettled deliveries of the conversation and drains the host's queue of each, in key order |
| Integration.Integration.ChatReply | src/do/integration.ts:560-630 | answers with a recorded reply, refuses in the order plan, delivery, owner, conversation, connector, or records one and posts it or schedules its retry |
| Integration.Integration.RetryReplies | src/do/integration.ts:1264-1284 | posts every due reply of the listing, or dates its next try |
| Integration.Integration.PostRecordedReply | src/do/integration.ts:1286-1316 | a posted reply settles its delivery in the same transaction and drains the host's queue |
| Integration.Integration.DispatchDue | src/do/integration.ts:1248-1262 | dispatches exactly the deliveries the listing shows as due |
| Integration.Integration.NextWake | src/do/integration.ts:1223-1238 | the earliest instant anything unsettled or unposted waits for |
| Integration.Integration.ScheduleAt | src/do/integration.ts:1051-1055 | asks the budget only for an instant earlier than the pending alarm |
| Integration.Integration.ScheduleNext | src/do/integration.ts:1223-1246 | schedules the earliest of that and the next health ping |
| Integration.Integration.Alarm | src/do/integration.ts:789-809 | replies, due deliveries, connector wake-ups, then the next alarm; nothing when paused |
| Integration.Integration.Pause | src/do/integration.ts:717-725 | stores the paused status and touches no delivery |
| Integration.Integration.Resume | src/do/integration.ts:717-731 | stores the active status, dispatches what is due and takes the connector's wake-ups |
| Integration.Integration.Requeue | src/do/integration.ts:740-750 | refuses every delivery that is not dead |
| RegistryLaws.AbsorbOrderIrrelevant | daemon/adapter.go:579-600 | with unique names the order in which the map is visited cannot show in what absorption does |
| RegistryLaws.RegisterKeeps | daemon/adapter.go:602-742 | a registration that succeeds keeps names unique, tokens inverse and bindings exact, and the last name_taken refusal never happens |
| RegistryIdentity.MalformedExact | daemon/adapter.go:602-621 | a malformed frame is refused for the first of harness, session, name and organization that fails |
| RegistryIdentity.HeldByPaneExact | daemon/adapter.go:626-647 | a well-formed frame is told its name is taken by another pane exactly if no token of its organization resolves, it declares a name bound to an adapter of another session in another pane, and its own pane shows no other name |
| RegistryIdentity.RegisteredAs | daemon/adapter.go:531-742 | a registration makes its connection the live adapter of its token's identity, else of its declared name's unless that is elsewhere, else of its session's, with record, token and binding to match |
| RegistryIdentity.OtherPaneRefused | daemon/adapter.go:637-647 | another session in another pane is refused the name |
| RegistryIdentity.SamePaneResumes | daemon/adapter.go:637-647 | another session in the same pane is let in and inherits the token |
| RegistryIdentity.SameSessionReconnects | daemon/adapter.go:637-647 | and so is the same session from anywhere |
| RegistryIdentity.NamedExact | daemon/adapter.go:648-701 | a registration ends under its declared name, else its recorded one unless that is an invented one and the pane shows another, else the pane's, else the generator's |
| RegistryIdentity.RenameExact | daemon/adapter.go:364-425 | a live adapter is renamed exactly if no other record of its organization has the name, nobody else is bound under it and it is saved |
| RegistryIdentity.RenamedExact | daemon/adapter.go:397-425 | and then record, adapter and binding carry the name, by whose choice it is, and the next generation |
| RegistryIdentity.ReconcileExact | daemon/adapter.go:429-457 | a pane's new name is followed exactly by an adapter that has its name from the pane |
| RegistryIdentity.DepartureExact | daemon/adapter.go:753-762 | a departure takes its identity and its own binding off the live indexes exactly while it is the live one |
| RegistryLaws.HolderDisplaced | daemon/adapter.go:723-725 | whoever is bound under the decided name is among the displaced, which is why that refusal is unreachable |
| RegistryLaws.EarlyRefusalChangesNothing | daemon/adapter.go:603-698 | a refusal before a name is decided leaves the registry as it was |
| RegistryLaws.LateFailureExact | daemon/adapter.go:703-730 | a late failure does not undo absorption: without a credential the indexes stay exact if and only if no other identity's live adapter was taken over, without a save if and only if nobody was displaced |
| RegistryLaws.ReconnectWithFailedSave | daemon/adapter.go:716-730 | it does happen: an agent reconnects, the save fails, and its live adapter is a generation behind its record |
| RegistryLaws.RegisterSupersedes | daemon/adapter.go:714-715 | the new generation is strictly above every record the registration supersedes |
| RegistryLaws.RegisterKeepsTokens | daemon/adapter.go:594-600 | a record's token never changes while the record exists, whatever the outcome |
| RegistryLaws.ChosenNamesStand | daemon/adapter.go:648-701 | a declared name counts as chosen, a chosen one stands until another is declared, and an invented one remains only while the pane shows no other |
| RegistryRecords.DisplacedDepartureStaysSilent | daemon/adapter.go:731-762 | a connection displaced by a registration changes nothing when it closes, at whatever later point of any run, late failures included |
| RegistryLaws.DeregisterExact | daemon/adapter.go:753-762 | a departure is felt if and only if the connection is still the live one of its identity |
| RegistryLaws.DeregisterKeeps | daemon/adapter.go:753-762 | and keeps the invariant |
| RegistryLaws.RenameKeeps | daemon/adapter.go:397-425 | a rename keeps every index exact, raises the generation by one and leaves the token; refused or unsaved it changes nothing |
| RegistryLaws.RenameTakenExact | daemon/adapter.go:364-379 | a claim is refused as taken if and only if another record of the organization has the name |
| RegistryLaws.RegisterIsolated | daemon/adapter.go:602-742 | a registration for one organization, with whatever token and however it ends, leaves every other organization's records, tokens, adapters and bindings as they were |
| RegistryLaws.RenameIsolated | daemon/adapter.go:397-425 | so does a claim |
| RegistryLaws.DeregisterIsolated | daemon/adapter.go:753-762 | and a departure |
| RegistryLaws.ForeignTokenIgnored | daemon/adapter.go:531-545 | a token of another organization identifies nobody: the frame is treated as presenting none |
| RegistryRecords.RunKeepsExact | daemon/adapter.go:602-762 | over any run of registrations, renames, reconciliations and departures, whatever fails in it, every index stays exact throughout if and only if no registration fails late after taking a live adapter out |
| RegistryRecords.ReachableExact | daemon/adapter.go:602-762 | in particular from the empty registry |
| RegistryRecords.RecordsStayExact | daemon/adapter.go:602-762 | over every run, late failures included, names stay unique, the token index stays the inverse of the records and whoever is live has one |
| RegistryRecords.ReachableRecords | daemon/adapter.go:602-762 | in particular in every reachable registry |
| RegistryBindings.RefusableExact | daemon/adapter.go:723-725 | a registration can be refused by the last name_taken check if and only if some binding is not backed by the live adapter of a record with that name |
| RegistryBindings.StepBackedExact | daemon/adapter.go:602-762 | from a registry with every binding backed, a step leaves one unbacked if and only if it is a registration that fails late after taking over a bound name, or fails to save a name other than the bound one |
| RegistryBindings.RefusedOnlyAfterStranding | daemon/adapter.go:723-730 | so over any run that refusal becomes possible if and only if such a failure happens |
| RegistryBindings.TakingOverStrands | daemon/adapter.go:579-600 | a bound name taken over by a registration that then fails stays bound to an adapter that is live nowhere |
| RegistryBindings.StrandedForGood | daemon/adapter.go:753-762 | and stays so over any run: no departure frees it, and every registration that decides that name is refused |
| RegistryBindings.ClemStranded | daemon/adapter.go:703-708 | it does happen: an agent is registered, a session in a pane of its name follows, and its capability cannot be drawn |
| Registry.Daemon.BindName | daemon/adapter.go:39-46 | binds a name to an adapter |
| Registry.Daemon.UnbindName | daemon/adapter.go:48-57 | unbinds a name only from the adapter that holds it |
| Registry.Daemon.AdapterKey | daemon/adapter.go:531-545 | resolves token, then declared name, then session |
| Registry.Daemon.NameClaimError | daemon/adapter.go:364-379 | finds a live mismatch, a same-named record or another bound adapter |
| Registry.Daemon.TakeName | daemon/adapter.go:401-424 | writes adapter, record and binding, or puts adapter and record back when the save fails |
| Registry.Daemon.RenameNativeAdapter | daemon/adapter.go:397-425 | the claim check and the renaming together |
| Registry.Daemon.Candidates | daemon/adapter.go:429-443 | finds exactly the live pane-named adapters whose pane shows another name |
| Registry.Daemon.ReconcileHerdrAdapterNames | daemon/adapter.go:429-457 | renames the candidates one by one, rechecking each |
| Registry.Daemon.AbsorbName | daemon/adapter.go:579-600 | folds every same-named record of the organization into the identity while scanning |
| Registry.Daemon.IdentifyFrame | daemon/adapter.go:626-647 | which identity a frame speaks for, or that its name is held by another pane |
| Registry.Daemon.NameIdentity | daemon/adapter.go:648-701 | declared, stored, pane or generated name, in that order of authority |
| Registry.Daemon.CommitIdentity | daemon/adapter.go:716-742 | record, token and save first, then the live indexes and the displaced bindings |
| Registry.Daemon.FinishRegistration | daemon/adapter.go:703-715 | draws capability and, where the identity has none, a token, and raises the generation before committing |
| Registry.Daemon.RegisterAgentAdapter | daemon/adapter.go:602-742 | the registration from frame to live adapter, with every refusal |
| Registry.Daemon.DeregisterAgentAdapter | daemon/adapter.go:753-762 | removes the adapter from both live indexes only while it is the live one |
| SpoolModel.RunConserves | daemon/spool.go:159-352 | across any run every enqueued id is in exactly one of outbox, sent and dead, once, and the outbox never exceeds 10,000 files |
| SpoolModel.StepWithinLimit | daemon/spool.go:168-180 | only an enqueue adds a file, and it refuses at the limit |
| SpoolModel.EnqueueConserves | daemon/spool.go:159-184 | an id already spooled is not stored again |
| SpoolModel.ClaimConserves | daemon/spool.go:186-216 | a claim moves a file, losing nothing, and hands out what was stored |
| SpoolModel.ReleaseExact | daemon/spool.go:299-317 | a release keeps the spool conserved if and only if the message is still in the outbox |
| SpoolModel.AckExact | daemon/spool.go:283-297 | an ack keeps it conserved if and only if the claim is current or the id was acked before |
| SpoolModel.KillExact | daemon/spool.go:319-333 | a kill keeps it conserved if and only if the claim is current or the id was dead before |
| SpoolModel.ExpireConserves | daemon/spool.go:244-281 | expiry moves exactly the stale files, claimed or not, to the dead letters |
| SpoolModel.ReclaimConserves | daemon/spool.go:335-352 | a restart turns every abandoned claim back into a waiting message |
| SpoolModel.FlushSettles | daemon/client.go:268-316 | however a send went, its claim ends sent, dead, or waiting with one more attempt and the reason |
| SpoolModel.WaitShape | daemon/spool.go:218-227 | a failed message waits 1 s doubling, at most 30 s |
| SpoolExact.EnqueueExact | daemon/spool.go:159-184 | an enqueue refuses what lacks sender, recipient or text, ignores a known id, refuses the 10,001st file, and stores anything else as it is under its time and id |
| SpoolExact.ClaimableExact | daemon/spool.go:186-216 | a file may be claimed exactly if it is not claimed and its wait is over |
| SpoolExact.ClaimedFirst | daemon/spool.go:186-216 | and what is claimed is the earliest of those by time, then by id |
| SpoolExact.WaitExact | daemon/spool.go:218-227 | one second after the first failure, doubling up to thirty |
| SpoolExact.TakenExact | daemon/spool.go:186-216 | a claim hands out the stored message and renames its file |
| SpoolExact.ReleaseFields | daemon/spool.go:299-317 | a release stores that message with one more attempt, the instant and the reason, under its waiting name |
| SpoolExact.SettleExact | daemon/client.go:268-325 | an ack retires a message as sent, the four permanent refusals as dead, and anything else releases it with its reason |
| SpoolExact.ExpireExact | daemon/spool.go:244-281 | expiry buries exactly the listed files spooled before the cutoff and reports exactly those |
| Spool.Store.Enqueue | daemon/spool.go:159-184 | refuses the incomplete and the surplus, ignores an id already spooled, stores the rest |
| Spool.Store.Claim | daemon/spool.go:186-216 | takes the earliest eligible message by time then id, or nothing if and only if none is eligible |
| Spool.Store.Release | daemon/spool.go:299-317 | rewrites the claim with one more attempt and gives it its waiting name back |
| Spool.Store.Ack | daemon/spool.go:283-297 | removes the claim and records the id as sent |
| Spool.Store.Kill | daemon/spool.go:319-333 | removes the claim and files a dead letter |
| Spool.Store.Expire | daemon/spool.go:244-281 | buries every stale file in directory order and reports each |
| Spool.Store.ReclaimOrphans | daemon/spool.go:335-352 | renames every claim back |
| Spool.Store.FlushOne | daemon/client.go:268-316 | claims, sends and settles by the outcome |
| Spool.Store.ReapExpired | daemon/client.go:248-266 | expires what outlived 24 hours and hands back what to tell each sender |
| RoomModel.StepKeeps | src/do/room.ts:154-612 | every room operation keeps store and id index inverse, the ledger contiguous, acks within it and members at most 64 |
| RoomModel.RunKeeps | src/do/room.ts:154-612 | and so does every run |
| RoomModel.DoomedIsPrefix | src/do/room.ts:592-602 | with a clock that never went back a sweep deletes an initial run of the ledger |
| RoomModel.PruneKeeps | src/do/room.ts:592-602 | so pruning leaves a contiguous run ending at the current sequence |
| RoomModel.PostKeeps | src/do/room.ts:236-293 | a post, new or replayed, keeps the invariant |
| RoomModel.IssuedInOrder | src/do/room.ts:280-291 | numbers are issued as the successors of the current sequence, without gap or repetition |
| RoomModel.AckGrowsOverRuns | src/do/room.ts:420-430 | over any run in which a member stays, its acknowledged number only grows |
| RoomModel.AckWithinLedgerExact | src/do/room.ts:420-430 | an ack is recorded unchecked: it stays within the ledger if and only if its number was issued |
| RoomModel.OneEntryPerId | src/do/room.ts:270-278 | however often an id is posted the ledger gets one entry for it while that entry is retained, and keeps it unchanged |
| RoomExact.JoinExact | src/do/room.ts:154-212 | who joins: not by an agent where invitation is required, connected, not a member yet, and below 64 members |
| RoomExact.LeaveExact | src/do/room.ts:214-229 | a leave removes that member only |
| RoomExact.PostExact | src/do/room.ts:236-293 | a post is refused exactly for its size or a sender that is neither the operator nor a member of the room's or a connected organization; else it is answered with the retained entry of its id or stored as the next, with the sender's own text |
| RoomExact.PruneExact | src/do/room.ts:592-602 | a sweep deletes of the oldest 256 exactly what is older than seven days |
| RoomExact.AcknowledgeExact | src/do/room.ts:420-430 | an ack stores a higher number for that member and ignores any other |
| RoomFanOut.FanOutReaches | src/do/room.ts:297-376 | fan-out reaches exactly the recipients that are connected and can receive |
| RoomExact.AskedExact | src/do/room.ts:330-355 | what a member's hub is asked to queue is the entry's id, text and number for that member's agent, address and connection |
| RoomExact.DeliveredExact | src/do/room.ts:330-355 | and that is what the hub then has queued |
| RoomExact.MembersReached | src/do/room.ts:297-376 | every member but the sender is reached by the attempt that commits, if it is connected and can receive |
| RoomFanOut.CommittingAttemptDecides | src/do/room.ts:259-382 | over any retries of a post the attempt that commits decides for good whom it reaches; if the room stops right after the commit nobody is, though every retry is answered with the entry |
| RoomFanOut.AckCarriesIssuedNumber | src/do/host-hub.ts:1241-1307 | from the moment a hub accepts a fanned-out message, over any run, renames and stale dispatch runs included, its ack names its room and the number the room gave it |
| Room.Room.Join | src/do/room.ts:154-212 | policy, connection, membership and the limit of 64, in that order |
| Room.Room.Leave | src/do/room.ts:214-229 | removes a member and says whether there was one |
| Room.Room.Post | src/do/room.ts:236-293 | checks size and membership, answers a known id, commits anything else |
| Room.Room.Acknowledge | src/do/room.ts:420-430 | records a higher number for a member |
| Room.Room.Oldest | src/do/room.ts:593-597 | lists the first 256 messages in key order |
| Room.Room.PruneLedger | src/do/room.ts:592-602 | deletes the expired among them with their index keys |
| Flights.RunKeeps | daemon/deliver.go:32-59 | every interleaving keeps table, flights and calls consistent |
| Flights.OneAttemptAtATime | daemon/deliver.go:32-59 | at most one attempt per enrollment, message and agent runs at a time |
| Flights.ReturnsFlightOutcome | daemon/deliver.go:35-42 | whoever returns uncancelled returns the outcome of the flight it was on |
| Flights.TableEmptiesOut | daemon/deliver.go:52-57 | the table is empty once every call has returned or been cancelled |
| Flights.EnterLeadsExactlyWhenIdle | daemon/deliver.go:35-48 | a call leads if and only if no attempt for its key is running or landing |
| TokenBucketModel.StaysInRange | src/lib/transit/token-bucket.ts:6-21 | tokens stay between 0 and the capacity |
| TokenBucketModel.AdmittedByForwardTime | src/lib/transit/token-bucket.ts:6-21 | whatever the clock does, at most capacity plus rate times the sum of its forward movements calls are admitted |
| TokenBucketModel.AdmittedBounded | src/lib/transit/token-bucket.ts:6-21 | hence in any window with a nondecreasing clock at most capacity plus rate times elapsed time |
| TokenBucketModel.SpacedNeverRefusedExact | src/lib/transit/token-bucket.ts:6-21 | a fresh bucket never refuses a caller spaced one refill period apart if and only if its capacity is at least 1 |
| TokenBucketModel.UnusedIsFull | src/lib/transit/token-bucket.ts:23-44 | a key never used admits its first call exactly if its capacity is at least one, and counts from then |
| TokenBucketModel.ClockBackRefillsTwice | src/lib/transit/token-bucket.ts:12-17 | elapsed time is not enough for a clock that goes back: one that gains the same second three times admits more |
| TokenBucketModel.TokenBucket.Create | src/lib/transit/token-bucket.ts:49-58 | rates that are not positive are refused, any other bucket starts full |
| TokenBucketModel.TokenBucket.Take | src/lib/transit/token-bucket.ts:60-67 | refills, then takes a whole token or refuses, keeping the range |
| TokenBucketModel.ConsumeToken | src/lib/transit/token-bucket.ts:6-21 | refills by the elapsed time up to the capacity and takes a whole token if there is one |
| TokenBucketModel.StoredTokens.ConsumeStoredToken | src/lib/transit/token-bucket.ts:23-44 | the same on stored state, a key never used counting as full and other keys untouched |
| Address.ParseCanonical | src/lib/transit/addr.ts:114-154 | every accepted address is canonical: formatting its parse gives back the input |
| Address.AgentRoundTrip | src/lib/transit/addr.ts:76-86 | parsing a formatted agent address gives back its parts |
| Address.RoomRoundTrip | src/lib/transit/addr.ts:88-92 | parsing a formatted room address, strictly or leniently, gives back its parts |
| Address.RoomTargetIdempotent | src/lib/transit/addr.ts:102-112 | the lenient room parser accepts only rooms and is idempotent on its own output |
| Address.ParsersAgree | daemon/wire.go:75-114 | for one shared reserved set the daemon accepts exactly the strings the Worker accepts, with the same name and host |
| Address.ReservingMore | src/lib/transit/addr.ts:39-61 | reserving one more name refuses exactly the addresses that mention it |
| Address.ParsersDisagreeExactly | src/lib/transit/addr.ts:46-48 | as they stand the Worker accepts what the daemon accepts except where a name, host or room is `constructor` |
| Address.ConstructorDiffers | daemon/wire.go:107-113 | for instance the daemon routes to `constructor@host`, which the Worker calls reserved |
| Storage.List | src/do/host-hub.ts:1129-1132 | listing a store gives every key once, ascending |
| Storage.ListingUnique | src/do/host-hub.ts:1129-1132 | and a listing is determined by the keys stored |

## Left out

- Viewers, WebSockets, D1 mirror writes, logging and the metering hooks: they change none of the modelled state.
- Authentication, enrollment, encryption, MCP and HTTP routing, connectors, retention, attachments and the CLI.
- Terminal screens, composers and transcripts: heuristics over text without an exact specification.
- Markers without a recipient and flat history records, kept for older daemons.
- Envelope text: an envelope is its inputs and its redelivery count.
- HostHub.HostHub.QueueDelivery: the dispatch that follows an accepted message, a requeue or a publish is a separate step, as any other hub operation may come first.
- HubModel.ResolvesUnique: `localeCompare` is modelled on the characters names can have (hyphen, digits, lower-case letters, then the separator), and the padded sequence number as a number below 10^16.
- HubDispatch.PassSetsAlarm: nothing is claimed for entries beyond a blocked first batch of 128.
- HubStale.StaleRunConserves: renames onto a finished pair and deaths that are not harmless are excluded; `HubRuns.FinishedKeptExact` and `HubStale.StaleDeathConservesExact` say what they do.
- SendPath.AckMeansAccepted: nothing is claimed across a rename of the recipient while the frame is retried, when the pair moves with it.
- IntegrationLaws.RunCovers: each operation is one atomic step, so nothing is claimed for instants within an alarm or a post, nor for an object restarted there, and the budget limit is fixed; a poll cycle is the events it ingests and the wake-ups it asks for.
- IntegrationLaws.FirstReplyStands: each operation, a post included, is one atomic step; `Reposts.PostedStandsExact` has posts under way.
- Awaits.RunSound: the integration is not destroyed and its target is not reconfigured.
- Reposts.PostedStandsExact: a post counts once its answer is back; one the connector accepts for an integration that has restarted meanwhile is not counted.
- Integration.Integration.ReadMessage: of what is shown, the status, the first read and the settlement are modelled, the text is not.
- Integration.Integration.ChatReply: what the connector is sent beside the message is left out, and a connector's failure to open its configuration.
- Registry.Daemon.RenameNativeAdapter: requires a record for a live identity, true in every reachable registry; generations are unbounded, not 64-bit.
- Registry.Daemon.BindName: the two-level map of names is one map keyed by organization and name; an inner map that becomes empty is not visible.
- SpoolModel.RunConserves: ids are new when enqueued and each claim is settled while it is current; without that the exact conditions are `SpoolModel.ReleaseExact`, `SpoolModel.AckExact` and `SpoolModel.KillExact`. File contents always parse, and a file name is its state, time and id.
- Flights.RunKeeps: the three parts of a key are kept apart instead of joined by a zero byte; what one delivery attempt does is not part of this model.
- TokenBucketModel.AdmittedBounded: arithmetic is over the reals.
- RoomModel.RunKeeps: members' acks carry issued numbers; `RoomModel.AckWithinLedgerExact` says what happens otherwise.
- RoomFanOut.AckCarriesIssuedNumber: the runs are those of `HubStale.StaleRunConserves`, and a room message is never queued as a redelivery.
- RoomFanOut.CommittingAttemptDecides: the room stops either right after its commit or not at all; recipients are the members' routes at that moment.
- A daemon treats two recipients of one message on one host as one delivery, because it remembers message ids alone (daemon/deliver.go:70-72).
