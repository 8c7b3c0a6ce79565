# HandLive relay: a verified model

The relay server of HandLive forwards frames between paired devices. A device
keeps one WebSocket connection to any of several relay instances; the instances
share PostgreSQL (devices and pairs) and Redis (publish/subscribe, presence keys,
counters). This project models the logic that has to be right in every
interleaving and proves it in Dafny 4.11. `dafny verify dfyconfig.toml` checks
everything.

## How it is organised

The cluster is one state machine. `Store` holds the tables, `Messages`, `Hub`,
`Connection` and `Presence` the parts of an instance, and `Cluster` the events: what
one task does between two awaits. A run is any sequence of enabled events over any
number of instances, connections, devices and request handlers, so a statement about
every run is one about every interleaving. On top of it:

- `Subscription`: who is subscribed to which channel, also across reconnects.
- `Takeover`, `Overlap` and `Handover`: a device keeps at most one connection, which one
  when two opens overlap, and what a replaced connection may still do to presence.
- `Renewal`: who holds a presence key over whole runs, and which connections its renewal
  ends when messages were lost.
- `Cache`: the peer cache against the database.
- `Cutoff`: revocation over whole runs.
- `Order` and `Passage`: end-to-end order of frames.
- `Tasks`: the same steps as objects that are updated in place.

Beside the cluster there are machines of their own for what it abstracts from:
`Inbound`, `Bandwidth`, `Throughput`, `Burst` and `Sender` (the sending loop and its
token buckets), `Queue` and `QueueRace` (the byte-bounded receive queue at the granularity
of its atomic operations), `Calendar` and `Salt` (the month formula and the salt that
rests on it), `Usage` and `TallyStore` (usage counters), `Limits` and `Minutes`
(fixed windows), `Revocations` (signed statements and delete-all). `Wire`,
`Utf8`, `BusCodec`, `Signed`, `TextForms` and `Notice` are the byte and text formats.

## What turned out not to hold as stated

Paths are relative to `crates/relay-server/src`.

- `relay/hub.rs`, line 39: over the limit the connection is dropped. It can still take
  the message after the one left out: the bus task counts, compares and only then
  sets the kill, and a receiver that empties the channel in between and polls the
  kill just before it is set goes on. The processed messages are then not a prefix of
  the dispatched ones. `QueueRace.OrderIff` gives the exact condition on message
  lengths, `QueueRace.FiveIsSkipped` a small instance, and
  `Queue.PromptKillKeepsOrder` the promise when nothing comes in between.
- `store/pairs.rs`, lines 159 and 160: the first statement stays. A revoked row can
  become active again when a member deletes itself, registers again and the pair is
  written anew (`Store.DeletedRowCanReturn`). `Store.FirstStatementStays` says exactly
  how long the promise holds.
- `relay/presence.rs`, lines 6 and 7, and `relay/connection.rs`, lines 119 and 120: a
  replaced connection leaves the newer one's presence alone. That is promised, and
  holds, across instances. On one instance it can delete that presence, because it
  unregisters first and releases later (`Handover.LateReleaseDeletes`);
  `Handover.ReleaseTakesPresenceIff` says exactly when.
- `relay/presence.rs`, line 44: a new connection always wins. It does win the presence
  key, but two opens that overlap can evict each other (`Overlap.OverlappingOpensDoomBoth`). `Overlap.OverlapDoomsBothIff`
  says exactly when: the second was registered and its instance held the device's
  channel when the first announced itself. Being confirmed is not needed for that, as
  an older connection may still hold the channel.
- `relay/hub.rs`, line 126: a device is unsubscribed unless another local connection
  serves it. A channel can stay subscribed for nobody: registering and queueing the
  subscribe request are two steps, and a displaced connection may queue its request
  after the newer one came and went (`Subscription.LateSubscribeLeaks`,
  `Subscription.LeaksIffLate`).
- `routes/devices.rs`, lines 266 and 267: presence goes first, so the closing connection
  of a deleted device announces no "offline". It does announce it when it renews its
  presence between the two (`Renewal.DeletedYetAnnounced`), and exactly then
  (`Renewal.ClearedIsSilentIff`).
- `usage.rs`, line 101: one salt for the current month. Flushes of one month can get
  different salts when one of them sends its commands more than nine days after it
  read the clock (`Salt.OneSaltIff`).

The documentation of `verify_revocations` (revocation.rs, lines 87 to 91) asks for exactly one
statement per held pair; the code also refuses two statements for a pair the relay
does not hold. The model follows the code.

Handlers that are a single assignment or one branch (`Presence.PresenceStore.Claim`,
`Tasks.HubTask.Register`, `TallyStore.Counters.TakeAll` and the like) have no row below;
their contracts tie them to the step functions the results are about.

## Model

| member | source | states |
|---|---|---|
| `Subscription.EveryRun` | crates/relay-server/src/relay/hub.rs:89-129 | over every run of the cluster, with registering and queueing the subscribe as separate steps and reconnects included, a registered connection whose subscribe was confirmed is subscribed or being re-subscribed |
| `Subscription.ConfirmedStaysSubscribed` | crates/relay-server/src/relay/hub.rs:89-129 | in every reachable state a registered connection whose subscribe was confirmed is in `subscribed` and in the channels Redis holds, unless its instance is just re-subscribing after a loss |
| `Subscription.NothingLeaks` | crates/relay-server/src/relay/hub.rs:170-225 | over every run in which no subscribe request is queued after its device left the registry, every subscription belongs to a registered device or has an unsubscribe still to come |
| `Subscription.LeaksIffLate` | crates/relay-server/src/relay/connection.rs:84-114 | queueing a subscribe request leaks a channel if and only if nobody serves the device any more |
| `Subscription.LateSubscribeLeaks` | crates/relay-server/src/relay/connection.rs:84-114 | a run in which that happens: a displaced connection queues its request after the newer one came and went, and an idle instance that serves nobody stays subscribed |
| `Subscription.SettledInstance` | crates/relay-server/src/relay/hub.rs:181-201 | in such runs an instance with an empty request queue is subscribed to devices it serves only, and to each one that was confirmed |
| `Takeover.AtMostOneSurvivor` | crates/relay-server/src/relay/connection.rs:84-132 | in every reachable state without a lost pub/sub connection, of two un-ended connections of one device that both published `Replace`, on any instances, one is killed or has an evicting `Replace` in its queue or in the stream bound for its registry slot |
| `Takeover.DrainedMeansOne` | crates/relay-server/src/relay/outbound.rs:40-43 | once streams and queues have drained, a device has at most one open connection in the cluster that has announced itself |
| `Takeover.DoomIsFinal` | crates/relay-server/src/relay/hub.rs:143-157 | no event other than a lost pub/sub connection saves a doomed connection: it stays doomed or ends |
| `Takeover.AnnounceDooms` | crates/relay-server/src/relay/connection.rs:119-128 | publishing `Replace` dooms every other confirmed connection of the device |
| `Handover.NeverEvicted` | crates/relay-server/src/relay/connection.rs:84-135 | from every reachable state: a connection that opens with no rival under way and meets no later one is never evicted, holds presence from its claim on, and the connections it replaced announce no offline |
| `Handover.DisplacedNeverReleases` | crates/relay-server/src/relay/connection.rs:320-329 | in every run, with losses, expiries and rivals, a connection displaced from the registry never releases presence |
| `Handover.ReleaseTakesPresenceIff` | crates/relay-server/src/relay/connection.rs:320-329 | at any later state of any run, the release of an older connection takes away the presence of the instance on which the newer one opened, and announces offline, if and only if it is on the same instance, had unregistered before the newer one opened and has not released since |
| `Handover.LateReleaseDeletes` | crates/relay-server/src/relay/connection.rs:322-325 | a run in which that happens: unregister, new open and claim on the same instance, then the old release |
| `Overlap.OverlappingOpensDoomBoth` | crates/relay-server/src/relay/connection.rs:110-132 | a run in which two overlapping opens doom each other: at most one survives, not always one |
| `Overlap.AnnounceDoomsIff` | crates/relay-server/src/relay/connection.rs:119-128 | an announcement dooms another connection of the device exactly when its instance holds the channel and it is registered, or it was doomed before; it never dooms its own connection |
| `Overlap.OverlapDoomsBothIff` | crates/relay-server/src/relay/connection.rs:110-132 | the first of two overlapping opens announces itself; after any run that is quiet for the second, which then announces itself, the second is doomed if and only if the first announcement reached its slot (it was registered and its instance held the channel) or it was doomed before, and the first is doomed in any case |
| `Overlap.QuietDoom` | crates/relay-server/src/relay/hub.rs:143-157 | over every run without a loss, another announcement, another open on its instance or an overflow of its queue, an open connection is doomed at the end if and only if it was at the start |
| `Presence.OneRefresher` | crates/relay-server/src/relay/presence.rs:45-84 | between claims, expiries and deleting releases, refresh succeeds for at most one instance, for every interleaving |
| `Presence.PresenceStore.Refresh` | crates/relay-server/src/relay/presence.rs:52-68 | succeeds if and only if no other instance held the key, missing keys included; then the key is set, otherwise nothing changes |
| `Presence.PresenceStore.Release` | crates/relay-server/src/relay/presence.rs:70-84 | deletes if and only if the key was its own, and says so; otherwise nothing changes |
| `Renewal.RefreshKeepsIff` | crates/relay-server/src/relay/connection.rs:230-241 | a renewal keeps its connection if and only if no other instance holds the key before it; then the key names its instance, otherwise the connection ends and the key stays |
| `Renewal.ResyncKeepsIff` | crates/relay-server/src/relay/outbound.rs:69-76 | the same for a resync, after which a connection that stays reads its pairs anew |
| `Renewal.ResyncAsksRegistered` | crates/relay-server/src/relay/hub.rs:210-221 | in every reachable state, after a lost pub/sub connection exactly the connections registered at that instance are asked to resync, once each |
| `Renewal.OneOutlastsRenewal` | crates/relay-server/src/relay/connection.rs:230-241 | over every run, lost pub/sub connections included: two connections of a device on different instances that have both renewed, with no claim by a third, expiry, release or clearing that takes the key from its holder in between, do not both go on |
| `Renewal.RenewedAreSeated` | crates/relay-server/src/relay/connection.rs:173-200 | over every run in which the holder of a key is not unseated, every connection of the device that renews and still serves at the end is on the instance of the holder |
| `Renewal.RenewalYieldsToNewcomer` | crates/relay-server/src/relay/presence.rs:44-50 | after a claim, a connection of the device on another instance ends with its next renewal, unless the newcomer lost the key before |
| `Renewal.KeyOverRun` | crates/relay-server/src/relay/presence.rs:44-84 | over every run an instance holds a presence key at the end if and only if it held it and was never unseated, or some claim, renewal or resync gave it the key and nothing unseated it since |
| `Renewal.ClearedIsSilentIff` | crates/relay-server/src/routes/devices.rs:266-282 | after the handler of a deletion cleared the presence, at any later state of any run a release for the device announces offline if and only if its instance was given the key anew since |
| `Renewal.DeletedYetAnnounced` | crates/relay-server/src/routes/devices.rs:266-268 | a run from the start in which that happens: the connection renews between the clearing and its close |
| `Cache.CacheAgreement` | crates/relay-server/src/relay/connection.rs:244-257 | in every reachable state, reconnects included, a serving connection whose last reload for a notice did not fail caches exactly what `active_peers` returns now, or a notice that makes it reload or end is pending in a handler, stream, queue or resync, or it is killed |
| `Cache.DrainedCacheIsExact` | crates/relay-server/src/store/pairs.rs:194-214 | with nothing pending, the cache lists a pair and a device if and only if that row has this device and that one as its two members, is unrevoked, and the other device is not locked; frames are accepted from exactly those devices |
| `Cache.CommitOwes` | crates/relay-server/src/routes/pairs.rs:107-117 | every commit that changes the routes of a device leaves a notice to it in the committing handler |
| `Cache.PendingKept` | crates/relay-server/src/relay/outbound.rs:35-39 | a pending notice stays pending, through every event, until the connection has reloaded or ended |
| `Cache.DeleteTellsInOrder` | crates/relay-server/src/routes/devices.rs:253-282 | the handler of a deletion tells the other member of every pair it took along, with its statement or silently, then clears the presence, and closes the connection last |
| `Cache.RefusedReload` | crates/relay-server/src/relay/connection.rs:133-135 | a reload the database refuses ends a connection that is still opening; a serving one goes on with its old cache and writes nothing |
| `Store.FirstStatementStays` | crates/relay-server/src/store/pairs.rs:160-180 | a revoked row keeps its first statement and never routes again, over any sequence of commits, exactly as long as both members stay registered |
| `Store.DeletedRowCanReturn` | crates/relay-server/src/store/devices.rs:175-180 | a sequence of commits in which a member deletes itself, registers again and the revoked pair is written anew |
| `Store.ActivePeersExactly` | crates/relay-server/src/store/pairs.rs:194-214 | for every sound database and all pairs and devices, the query for `x` lists `y` with pair `p` if and only if the row has the members `x` and `y`, is unrevoked, and `y` is not locked |
| `Store.RoutesBothWays` | crates/relay-server/src/store/pairs.rs:194-214 | of two devices that are not locked each routes to the other by a pair, or neither does |
| `Store.InsertedForBoth` | crates/relay-server/src/store/pairs.rs:72-90 | after an insert each member has the pair with the other one, unless that one is locked, and no other entry of any device changes |
| `Store.RevokedForNeither` | crates/relay-server/src/store/pairs.rs:162-180 | after a revocation by a member nobody has the pair, and no other entry of any device changes |
| `Store.InsertChangesOnlyMembers` | crates/relay-server/src/store/pairs.rs:72-90 | an insert changes the routes of the two members only |
| `Store.RevokeChangesOnlyMembers` | crates/relay-server/src/store/pairs.rs:162-180 | a revocation changes the routes of the two members only |
| `Store.DeleteChangesOnlyPeers` | crates/relay-server/src/store/devices.rs:140-181 | a cascading delete changes the routes of peers with an unrevoked pair only, which are the ones told |
| `Cutoff.CutOff` | crates/relay-server/src/relay/outbound.rs:22-38 | after a connection took the notice of a revocation and reloaded, the revocation is a commit no newer than the notice, and each frame written later rests on a pair row active at a version no older than it, also if the sender published the frame from `pending` without a new check; from the revoking device that row is another pair, unless the revoked one was written anew |
| `Cutoff.SettledCutOff` | crates/relay-server/src/relay/connection.rs:244-257 | the same for either member, the signer included, which is told without a statement: once nothing is pending for a connection |
| `Cutoff.NoticeCommitted` | crates/relay-server/src/routes/pairs.rs:207-214 | a revocation notice in any queue names a committed version: the pair was unrevoked before it, its members were the signer and the device of that queue, and it stored the statement or deleted the signer |
| `Cutoff.ReachableSourced` | crates/relay-server/src/relay/inbound.rs:38-66 | in every reachable state each notice anywhere follows its commit and is on its way to the member that did not sign, and each frame names the device of the connection that published it |
| `Cutoff.AfterReload` | crates/relay-server/src/relay/connection.rs:261-274 | frames written after a reload are justified by versions from the start of that reload on |
| `Cutoff.NotTheRevokedRow` | crates/relay-server/src/store/pairs.rs:194-212 | while neither member was deleted, the row that justifies a later frame is not the revoked one |
| `Order.NothingLostOrDoubled` | crates/relay-server/src/relay/hub.rs:202-209 | while the receiver stays up and Redis is not lost, log, hand, queue and stream of a receiver hold, in order, exactly what the sender published |
| `Passage.NeverDoubledOrSwapped` | crates/relay-server/src/relay/hub.rs:143-157 | in every reachable state, losses and overflows included, what a registered connection took, holds or has on its way from a sender is a subsequence of what that sender published for it |
| `Passage.EndToEndOrder` | crates/relay-server/src/relay/connection.rs:173-200 | without a lost pub/sub connection, what a receiver took from a sender is a prefix of a subsequence of what was published before its confirmation and of everything published since, and of all that the sender published if it started later |
| `Passage.WrittenInOrder` | crates/relay-server/src/relay/outbound.rs:22-34 | while the sender's device stays in the receiver's cache, the frames written to the device are that prefix, in order and without gaps or duplicates |
| `Tasks.HubTask.Unregister` | crates/relay-server/src/relay/hub.rs:94-104 | only the current connection leaves the registry |
| `Tasks.HubTask.HandleRequest` | crates/relay-server/src/relay/hub.rs:181-201 | one turn of the bus loop on a request is the take, acknowledge, remove and drop steps of the model; a confirmation means the device is subscribed |
| `Tasks.HubTask.Reconnect` | crates/relay-server/src/relay/hub.rs:210-220 | after a reconnect exactly the registered devices that Redis accepted are subscribed |
| `Tasks.ConnTask.ReloadPeers` | crates/relay-server/src/relay/connection.rs:244-257 | a reload replaces pairs and peers together; a database error keeps both |
| `Tasks.ConnTask.IsPeer` | crates/relay-server/src/relay/connection.rs:261-274 | the answer is membership in the cache after at most one reload a second |
| `Tasks.ConnTask.OnDelivered` | crates/relay-server/src/relay/outbound.rs:14-48 | handling a delivery is the model's take, read and store; a frame is written if and only if its sender is a peer in the end, and is logged as what was done with it; a revocation is written in any case; `PairsChanged`, an own `Replace` and a held resync write nothing; the rest ends the connection |
| `Tasks.ConnTask.Serve` | crates/relay-server/src/relay/connection.rs:173-186 | over any sequence of deliveries: one reaction each until one ends the connection, every revocation answered by its notice, and the frames written are, in order, the ones logged as written; cache, log and the last reload for an unknown sender are those of the model after the same deliveries |
| `Tasks.DeliveryInSteps` | crates/relay-server/src/relay/outbound.rs:14-48 | the whole handling equals up to three steps of the cluster model |
| `Tasks.PairTable.Insert` | crates/relay-server/src/store/pairs.rs:72-107 | creates the row as given exactly when the id is free and both members exist and differ, otherwise returns the stored row and changes nothing |
| `Tasks.PairTable.Revoke` | crates/relay-server/src/store/pairs.rs:162-180 | sets the statement, and nothing else, exactly when the signer is a member of an unrevoked row, and then returns the other member |
| `Tasks.PairTable.ReadActivePeers` | crates/relay-server/src/store/pairs.rs:194-214 | returns a pair and a device if and only if the unrevoked row has this device and that one as its members and that one is not locked |
| `Inbound.EveryFrameOnce` | crates/relay-server/src/relay/inbound.rs:51-108 | over every run of the sending loop the frames read are, in order, the answered and published ones followed by the waiting one; a frame is published only to a peer, once at most, counted exactly when somebody received it, and the waiting one is never overwritten |
| `Inbound.FrameFate` | crates/relay-server/src/relay/inbound.rs:19-72 | over every run, by the bytes of the frame: `BAD_REQUEST` if and only if it is malformed or names no device, `PAYLOAD_TOO_LARGE` if and only if it is well formed and over 262144 bytes, `NOT_PAIRED` if and only if it fits and the device is no peer; otherwise it is published to that device, naming this one as its source |
| `Inbound.PublishedHr` | crates/relay-server/src/relay/inbound.rs:51-66 | every published binary frame reaches the other end of the bus naming this device and otherwise unchanged, with its own length counted in the queue |
| `Throughput.BandwidthBound` | crates/relay-server/src/relay/inbound.rs:72-90 | from any state of a connection, for a peer that stays paired, the bytes published between any two frames are at most rate times the time, one bucket and one frame |
| `Throughput.WaitNeverAccumulates` | crates/relay-server/src/relay/connection.rs:174-200 | after any run from the start of a connection, a frame waits at most its own size divided by the rate |
| `Burst.WaitExactly` | crates/relay-server/src/relay/bandwidth.rs:20-41 | for every sequence of takes from a new bucket: nothing waits if and only if every stretch that ends with the last take fits rate times its time and one burst; otherwise the wait is the largest excess divided by the rate |
| `Burst.ParkedIff` | crates/relay-server/src/relay/inbound.rs:68-91 | after any run from the start of a connection, a frame to a peer is parked if and only if, with the frames charged to that peer before, some stretch that ends with it exceeds that bound, and then for the largest excess divided by the rate |
| `Bandwidth.WaitIsBounded` | crates/relay-server/src/relay/bandwidth.rs:31-41 | a take from a bucket without debt waits between zero and cost over rate |
| `Bandwidth.WaitRepays` | crates/relay-server/src/relay/bandwidth.rs:31-41 | after the returned wait the debt is repaid |
| `Bandwidth.TokenBucket.constructor` | crates/relay-server/src/relay/bandwidth.rs:20-28 | a new bucket is full at the configured rate, at least one byte a second |
| `Bandwidth.TokenBucket.TakeBytes` | crates/relay-server/src/relay/bandwidth.rs:31-41 | updates the bucket in place as the specification function does and returns the wait that repays its debt |
| `Sender.Sending.HandleFrame` | crates/relay-server/src/relay/inbound.rs:51-66 | reading a frame is one event of the sending loop; the error sent back is the one its outcome calls for |
| `Sender.Sending.ForwardFrame` | crates/relay-server/src/relay/inbound.rs:68-91 | checks the pair, charges the bucket, publishes now or parks the frame |
| `Sender.Sending.OnDeadline` | crates/relay-server/src/relay/connection.rs:187-192 | the deadline publishes the waiting frame and frees the slot |
| `Queue.CounterExact` | crates/relay-server/src/relay/hub.rs:143-157 | in every interleaving from the start the counter equals channel, received-not-subtracted, left-out and undecided bytes, is never negative, and waiting bytes never exceed the limit |
| `Queue.PromptKillKeepsOrder` | crates/relay-server/src/relay/connection.rs:173-186 | when the receiver takes no step between an overflow and its kill, the processed messages are a prefix of the dispatched ones |
| `QueueRace.OrderIff` | crates/relay-server/src/relay/hub.rs:148-153 | for given message lengths every interleaving processes a prefix if and only if no message that can be the first to overflow fits into the limit together with its successor |
| `QueueRace.FiveIsSkipped` | crates/relay-server/src/relay/hub.rs:149-152 | lengths 6, 5, 3 with limit 10 have a run in which the second message is left out and the third is processed |
| `Calendar.YearMonthIsTheCalendarMonth` | crates/relay-server/src/usage.rs:83-94 | for every integer time, negative included, the formula gives year and month if and only if the Gregorian calendar, by counting days, puts that day into that month |
| `Calendar.MonthIsUnique` | crates/relay-server/src/usage.rs:83-94 | a day lies in one month of the reference calendar only |
| `Calendar.MonthSpan` | crates/relay-server/src/usage.rs:22 | two times in one month are less than 31 days apart |
| `Salt.OneSaltPerMonth` | crates/relay-server/src/usage.rs:102-125 | over every run of set-if-absent and get by any number of callers that send their commands within nine days of the clock read, all finished flushes of a month got the same salt, the whole value one of them had brought along, and none found it missing |
| `Salt.OneSaltIff` | crates/relay-server/src/usage.rs:22 | all flushes of a month agree in every run if and only if the commands follow the clock read within nine days |
| `Salt.SaltNeverChanges` | crates/relay-server/src/usage.rs:96-125 | a month's salt, once created, is never replaced |
| `Salt.SaltDies` | crates/relay-server/src/usage.rs:22 | the salt can be read for 40 days from the clock reading that created it; 49 days after it no longer can, and nothing brings it back |
| `Salt.SaltKeys.MonthlySalt` | crates/relay-server/src/usage.rs:102-125 | one uninterrupted call returns the live salt, or stores and returns the new one for 40 days, and is the model's two commands |
| `Usage.UsageConserved` | crates/relay-server/src/usage.rs:129-155 | from the start of any number of instances, over every interleaving of counting, taking, writing and putting back, stored plus in-memory plus in-flight equals the sum of all counting events, for each device and counter |
| `Usage.WriteAdds` | crates/relay-server/src/store/usage.rs:10-34 | a batch adds each device's tally to its row of that day and salt and changes no other row |
| `TallyStore.Counters.Restore` | crates/relay-server/src/usage.rs:55-63 | the loop adds every tally back on top of what was counted meanwhile |
| `TallyStore.Daily.AddBatch` | crates/relay-server/src/store/usage.rs:10-34 | adds all rows or, on failure, none |
| `TallyStore.FlushAll` | crates/relay-server/src/usage.rs:129-155 | fails exactly when there is something to write and salt or write fails, and then changes nothing; otherwise empties the counters into the rows of that day and salt |
| `Limits.HourlyCaps` | crates/relay-server/src/limits.rs:184-200 | over every run, no hour accepts more registrations than the relay-wide or the per-client cap |
| `Limits.NextDecision` | crates/relay-server/src/limits.rs:202-235 | in every reachable state a request is accepted exactly when the acceptances of the hour are below both caps and below 2^53; counters equal acceptances and a refusal changes nothing |
| `Limits.LiveInOwnHour` | crates/relay-server/src/limits.rs:30-31 | no key expires inside its own window, and none lives longer than an hour |
| `Limits.RetryAfterIsLeast` | crates/relay-server/src/limits.rs:232-234 | waiting n whole seconds reaches the next window if and only if n is at least `Retry-After` |
| `Limits.Script.Eval` | crates/relay-server/src/limits.rs:184-196 | the two loops of the script: refused exactly when some counter is used up, and then nothing is counted |
| `Limits.CheckRegistration` | crates/relay-server/src/limits.rs:202-235 | taken exactly when the counters of the hour are below the caps; a refusal changes nothing and names the least number of seconds that reaches the next hour |
| `Minutes.MinuteQuota` | crates/relay-server/src/challenge.rs:45-57 | over every run a call passes if and only if fewer calls than the quota came before it in its minute |
| `Minutes.CountMinute` | crates/relay-server/src/limits.rs:105-112 | counts the call for two minutes, takes it exactly when fewer than the limit were counted in its minute, and otherwise names the least number of seconds that reaches the next minute |
| `BusCodec.DecodeEncoded` | crates/relay-server/src/relay/bus.rs:93-125 | decoding an encoded message gives it back, for every message |
| `BusCodec.EncodeDecoded` | crates/relay-server/src/relay/bus.rs:93-125 | re-encoding an accepted byte string gives the same bytes |
| `BusCodec.Encode` | crates/relay-server/src/relay/bus.rs:56-91 | the buffer built by appending has every field at its place, byte by byte, and decodes to the message |
| `BusCodec.HrEndToEnd` | crates/relay-server/src/relay/bus.rs:128-134 | a rewritten, encoded and decoded HR frame names the source and keeps every other byte |
| `Wire.RewriteHr` | crates/relay-server/src/relay/wire.rs:78-82 | the overwritten copy equals the frame with its device id replaced |
| `Wire.RewriteKeepsTheRest` | crates/relay-server/src/relay/wire.rs:66-82 | a rewritten frame parses to the source, keeps all other bytes, and rewriting back restores it |
| `Signed.JointlyInjective` | crates/relay-server/src/signatures.rs:20-50 | the bytes to sign determine kind and every field, across registration, auth, revocation and attestation |
| `Signed.ParseInverts` | crates/relay-server/src/attestation.rs:31-59 | parsing the bytes of an attestation gives it back |
| `Signed.ParseAcceptsOnlyImages` | crates/relay-server/src/attestation.rs:44-59 | every accepted byte string is the image of the attestation it parses to |
| `Signed.Build` | crates/relay-server/src/signatures.rs:20-50 | the appended buffer has the domain text, every field and the time, weighed as eight bytes of two's complement, at their places |
| `Wire.TimeWeighs` | crates/relay-server/src/signatures.rs:31 | the eight bytes of a time weigh, most significant first, the time itself or, when it is negative, the time plus 2^64 |
| `Utf8.ValidIffCoded` | crates/relay-server/src/relay/bus.rs:93-125 | bytes are accepted as text if and only if they are the UTF-8 encoding (section 3 of RFC 3629) of some sequence of scalar values |
| `TextForms.Decode64Encoded` | crates/relay-server/src/b64u.rs:8-29 | unpadded base64url (section 5 of RFC 4648) decodes to what was encoded |
| `TextForms.Encode64Decoded` | crates/relay-server/src/b64u.rs:27-29 | strict decoding has a single reading: an accepted text is the encoding of its bytes |
| `TextForms.UuidRoundTrip` | crates/relay-server/src/relay/presence.rs:110-119 | hyphenated UUID text parses back |
| `TextForms.DecimalRoundTrip` | crates/relay-server/src/relay/presence.rs:110-119 | signed decimal text parses back, for every 64-bit value |
| `TextForms.DigitsWorth` | crates/relay-server/src/relay/presence.rs:98-106 | printed digits are worth the number by the weights of their places, without a needless leading zero |
| `Notice.NoticeRoundTrip` | crates/relay-server/src/relay/presence.rs:98-119 | parsing the printed notice returns the statement, for every statement |
| `Notice.SplitMember` | crates/relay-server/src/relay/presence.rs:98-106 | a member splits at the bars into pair, signer, time and signature, as printed |
| `Notice.MemberInjective` | crates/relay-server/src/relay/presence.rs:98-106 | different statements are different set members |
| `Revocations.AcceptsWhatItVouches` | crates/relay-server/src/revocation.rs:62-85 | a statement is accepted if and only if it repeats the item, is non-negative, within ten minutes and signed, and its signature text has one reading |
| `Revocations.IndexByPair` | crates/relay-server/src/revocation.rs:99-104 | fails exactly on two statements for one pair |
| `Revocations.VerifyRevocations` | crates/relay-server/src/revocation.rs:92-119 | succeeds if and only if the pair ids are distinct and every held pair has a valid statement; then lists one per held pair in order with its peer |
| `Revocations.Tables.DeleteWithPeers` | crates/relay-server/src/store/devices.rs:140-181 | succeeds under exactly that condition for all unrevoked pairs of the device and then deletes the device with its pairs; otherwise the store is unchanged |

## Left out

- Passage.EndToEndOrder: assumes no lost pub/sub connection, because messages published meanwhile are lost by design and answered by a resync; `Passage.NeverDoubledOrSwapped` holds with losses.
- Takeover.AtMostOneSurvivor: assumes no lost pub/sub connection; a `Replace` published while an instance reconnects never reaches it. `Renewal.RenewalYieldsToNewcomer` and `Renewal.OneOutlastsRenewal` say, with losses, how the renewal of presence ends the older connection then.
- Subscription.EveryRun: re-subscribes after a reconnect succeed (`Tasks.HubTask.Reconnect` covers refusals for one instance); registering with the notice to the displaced connection is one step, and so is unregistering with the queued unsubscribe.
- Handover.NeverEvicted: assumes no expiry of the presence key, no lost pub/sub connection, no deletion of the device and no failed first load; a failed reload of a serving connection is allowed.
- Cache.CacheAgreement: says nothing about a connection whose last reload for a notice the database refused, which keeps its old cache until the next notice.
- Salt.OneSaltPerMonth: assumes one clock, no Redis data loss, and commands within nine days of the clock read, which `Salt.OneSaltIff` shows to be exactly the bound.
- Usage.UsageConserved: a digest is assumed injective in device and salt, a failed batch writes nothing, counters are unbounded, an instance does not crash; the 30-day cleanup of the table is not modelled.
- Throughput.BandwidthBound: real arithmetic instead of 64-bit floating point; a peer that leaves the cache and returns starts with a full bucket, so the bound is for a peer that stays paired.
- Queue.CounterExact: the counter is unbounded, so 64-bit wrap-around is not modelled; a channel refuses messages as soon as its receiver stops, while the relay keeps the receiver until the connection has finished, so messages sent in between stay counted there and nobody reads them.
- Limits.HourlyCaps: reading the clock and running the script is one step; addresses are opaque numbers.
- Revocations.VerifyRevocations: signature verification over the revocation message is a parameter, identifiers are opaque numbers.
- Cluster: `Control` texts (presence messages, rendezvous) carry no routing state and are left out; a failed publish by a request handler or by an opening connection is not modelled; the receive-queue overflow kills in one step there and is refined in `Queue`; a presence refresh that Redis answers with an error, after which a connection goes on and a resync still reloads, is not modelled.
- Cluster: deletion of devices inactive for 180 days and the `revoked_at` column of devices, which no statement of the relay sets, are left out; rows revoked before signed statements existed too.
- HTTP routing, JSON wrappers, tokens, configuration and logging are not modelled.
- Rendezvous join, push delivery and its clients, forwarded-address parsing and the storage of challenges are not modelled.
- Ed25519, SHA-256 and random numbers are parameters where they matter.
