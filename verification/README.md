# OTF bookkeeping, modelled and verified

A Dafny model of the parts of OTF whose correctness is a matter of whole runs: the event
broker and the consumers that combine a snapshot with a stream of events, the pipeline that
stores and follows run logs, repository connections and their webhooks, the VCS status
reporter, and a few smaller loops and round trips. `dafny verify dfyconfig.toml` checks it.

State that the program updates in place is a class whose methods are proved against
functions on values; the theorems are about those functions. Interleavings are sequences of
atomic steps, and a theorem "over every run" quantifies over all such sequences. Whatever
the outside world answers (the network, the VCS host, the client factory, clocks, random
numbers) is a parameter, failures included. A transaction either commits or rolls back as a
whole; what was done on the VCS host is not rolled back.

## Files

| file | models |
|---|---|
| `Broker.dfy`, `BrokerObject.dfy` | the broker as interleaved steps, and as an object |
| `SnapshotReplay.dfy`, `LiveView.dfy` | why subscribe, snapshot, replay is sound; table, listener, broker and consumer as one system |
| `Metrics.dfy` | run status gauges |
| `NotificationConfig.dfy`, `ConfigHistory.dfy`, `NotificationCache.dfy`, `Notifier.dfy` | notification configurations, what the service does to them, the client cache, the notifier |
| `Chunks.dfy`, `PostgresHex.dfy`, `LogStore.dfy`, `PhaseWriter.dfy`, `Tailer.dfy`, `LogPipeline.dfy` | run logs, from writing to following |
| `Repohooks.dfy`, `Connections.dfy`, `Overlaps.dfy`, `ConnectionService.dfy` | webhooks and repository connections |
| `Reporter.dfy` | VCS statuses |
| `Paging.dfy`, `ModuleRegistry.dfy`, `TfeId.dfy`, `Lineage.dfy`, `EngineVersions.dfy` | pagination, module versions, identifiers, resource ancestry, engine versions |
| `Prelude.dfy`, `Semver.dfy`, `RunStatus.dfy` | shared definitions |

## What the proofs found

- The listener does not relay everything while subscribers stay attached. When it fails to look
  up an announced change it stops and is started again without disabling the broker
  (internal/sql/listener.go:104-108, internal/daemon/subsystem.go:106-114), and the broker
  ignores records that it cannot decode. A consumer then can be subscribed, level with the
  listener and wrong (`LiveView.DrainedButStale`). Its stream is the history exactly when no
  change since its subscription was missed (`LiveView.ReceivedIsHistoryIff`); only rows with
  missed changes can be wrong, and `LiveView.ConvergedIff` says exactly when they are. For the
  run gauges the next relayed change puts a run right (`Metrics.StatusesRightIff`); the notifier
  never gets to know a configuration whose creation it missed
  (`Notifier.MissedCreationStaysMissed`).
- Convergence of the notifier needs neither that IDs are never reused nor that there are no
  email configurations: the cache ends up with exactly the non-email ones
  (`Notifier.NotifierConverges`). It does need every client that is called for to be made
  (`Notifier.FromRowsAdds` and `Notifier.UpToDateIffClientAvailable` give the exact conditions).
- A gauge is the true count exactly when it was zero before bootstrap; a restart counts twice
  (`Metrics.GaugesAreCountsIffStartedAtZero`, `Metrics.RestartCountsTwice`).
- A write whose payload ends in the end marker completes the log early, after which closing
  fails (`PhaseWriter.CloseSucceedsIff`). Writing on after that, or after a close, leaves two
  rows for one phase, and nothing else does (`PhaseWriter.SplitIffWrittenAfterEnd`).
- A failed upload leaves a hole, because the writer's position has already moved on, and one
  that the client repeats because its answer was lost is stored twice
  (internal/http/client.go:82-105, internal/run/chunk.go:83): `PhaseWriter.LostWriteLeavesAHole`,
  `PhaseWriter.RepeatedWriteIsStoredTwice`. Reads are the framed log at every point exactly when
  every write or close with something to upload is stored exactly once, before the log has ended
  (`PhaseWriter.LogIsWhatWasWritten`), and only then can every follower rely on what it is sent
  (`LogPipeline.EveryTailIsRightIff`). A close that is repeated completes the log and reports
  failure (`PhaseWriter.CloseSucceedsIff`).
- Someone who follows a log is sent again what is deleted of it before it is complete, and lacks
  what the listener passes over; nothing else is ever missing or repeated
  (`Tailer.TailAccounts`, `Tailer.TailIsExactIff`, `Tailer.TailLacksIff`).
- An empty write after the first is refused but harmless.
- Following a log that is already complete never closes the relay: it stops by itself exactly
  when the end marker lies beyond both the snapshot and the requested offset
  (`Tailer.TailIsExact`).
- `Cut` and `getChunk` differ only for an unlimited read of more than 2147483647 bytes
  (`PhaseWriter.CutAgreesWithQuery`).
- Two overlapping `Forward` calls could hand a subscriber an event past one it missed
  (`Broker.OverlappingForwardsLeaveAHole`, exact condition in `Broker.PublishBreaksStreamsIff`);
  the listener does not overlap them.
- Disconnecting lists the unreferenced hooks before it deletes them, and sees nothing of what
  other transactions have yet to commit. If another resource connects to the repository of a
  listed hook in between, its connection is left without a hook
  (`Overlaps.StaleListingUncovers`, exact condition in `Overlaps.ConnectMeanwhileKeepsInvIff`).
  If the last two resources that share a hook are disconnected at the same time, the hook stays
  (`Overlaps.BothGoneKeepsInvIff`) until the next disconnection (`Overlaps.NextDisconnectHeals`).
  In runs with overlaps of these two kinds nothing else goes wrong
  (`Overlaps.ConsistentIffOverlapsHarmless`).
- The engine version checker runs on every node of a cluster (internal/daemon/daemon.go:952-959)
  and writes whatever it fetched if that is no older than what it read. Checks that overlap can
  lower a version and come within seconds of each other (`EngineVersions.OverlappingChecksLower`);
  `EngineVersions.VersionsNeverGoDownIff` and `EngineVersions.CheckpointsADayApartIff` say
  exactly when they do.
- A connection refused after its hook was synchronised leaves a webhook behind on the host
  (`Connections.RefusedConnectLeavesWebhook`, exact condition in
  `Connections.FailedConnectLeavesWebhookIff`).

## Model

| member | source | states |
|---|---|---|
| Broker.ChannelSafety | internal/pubsub/broker.go:59-112 | in every reachable state no channel was closed twice or sent to after close, a channel is open exactly when subscribed, buffers respect their capacity, and a disabled broker has no subscribers |
| Broker.DeliveryIsPrefix | internal/pubsub/broker.go:116-156 | received plus buffered is a contiguous stretch of the forwarded events from the subscription on; all of them while live and not condemned, all but the last while condemned |
| Broker.ReceivedIsStretch | internal/pubsub/broker.go:116-156 | what a subscriber has received is a contiguous stretch of the forwarded events that begins at its subscription |
| Broker.DroppedOnlyWhenFull | internal/pubsub/broker.go:136-155 | a subscriber dropped or condemned by Forward was found with a full buffer at some earlier forward of the run |
| Broker.ForwardCondemnsExactlyTheFull | internal/pubsub/broker.go:138-149 | a forward appends its event to the log and condemns exactly the subscribers whose buffer is at capacity |
| Broker.PublishBreaksStreamsIff | internal/pubsub/broker.go:136-155 | publishing while removals are pending breaks a stream if and only if a condemned subscriber has made room and the event differs from the one it missed |
| Broker.OverlappingForwardsLeaveAHole | internal/pubsub/broker.go:149-155 | without the non-overlap of Forward, a concrete run in which a subscriber's stream has a hole |
| Broker.RunKeepsInv | internal/pubsub/broker.go:59-156 | the invariant behind the above holds after every sequence of steps |
| Broker.DisableClosesAll | internal/pubsub/broker.go:66-74 | after any run, disabling closes every open subscription, leaves buffers and received events alone, and leaves no subscriber |
| Broker.DisabledRefuses | internal/pubsub/broker.go:79-85 | from then on, whatever happens until it is enabled, the broker stays disabled and a subscription changes nothing |
| Broker.EnabledAccepts | internal/pubsub/broker.go:59-63 | once enabled it accepts one, with an empty channel that starts with the next event |
| Broker.UnsubscribeClosesOne | internal/pubsub/broker.go:99-112 | unsubscribing closes that subscription and no other, and does nothing if it is closed |
| Broker.DecodesIff | internal/pubsub/broker.go:116-134 | an event is built exactly from a decodable record with action INSERT, UPDATE or DELETE, of the type that goes with it |
| Broker.ForwardIsSteps | internal/pubsub/broker.go:116-156 | after any run an uninterrupted Forward is its locked section followed by one removal step for each full subscriber, in any order |
| BrokerObject.EventBroker.constructor | internal/pubsub/broker.go:47-55 | a new broker is enabled and has no subscribers |
| BrokerObject.EventBroker.Enable | internal/pubsub/broker.go:59-63 | takes the enable step |
| BrokerObject.EventBroker.Disable | internal/pubsub/broker.go:66-74 | the loop in arbitrary order unsubscribes every subscriber, each exactly once, and leaves the broker disabled |
| BrokerObject.EventBroker.Subscribe | internal/pubsub/broker.go:79-97 | registers a new channel if the broker is enabled, else refuses |
| BrokerObject.EventBroker.Unsubscribe | internal/pubsub/broker.go:99-112 | closes and forgets a subscribed channel, and does nothing otherwise; the close never panics |
| BrokerObject.EventBroker.Offer | internal/pubsub/broker.go:138-149 | the loop in arbitrary order sends to every subscriber with room and returns exactly the others; no send panics |
| BrokerObject.EventBroker.Publish | internal/pubsub/broker.go:136-149 | the locked section of Forward takes the publish step |
| BrokerObject.EventBroker.RemoveEach | internal/pubsub/broker.go:151-155 | the removal loop drops the collected subscribers and no others |
| BrokerObject.EventBroker.Forward | internal/pubsub/broker.go:116-156 | ignores undecodable events and unknown actions; otherwise publishes and drops exactly the full subscribers |
| SnapshotReplay.StepStaysBetween | internal/run/metrics.go:67-86 | one change keeps a row of the view equal to the table's or to the goal's, for any consumer meeting the three local conditions |
| SnapshotReplay.CatchingUp | internal/run/metrics.go:39-57 | while replaying what was relayed, a row none of whose changes was missed is as in the table at the replayed point or as in the snapshot |
| SnapshotReplay.UnmissedRowIsRight | internal/run/metrics.go:39-57 | misses are confined to their rows: after a snapshot at j and what is relayed of the changes from i <= j through n >= j, every row without a missed change is as in the table at n |
| SnapshotReplay.SnapshotThenReplay | internal/run/metrics.go:39-57 | a snapshot at j followed by the changes from i <= j through k >= j is the table at k |
| SnapshotReplay.RightIffMissedRowsAgree | internal/run/metrics.go:39-57 | with misses, the view is the table if and only if each row with a missed change comes to the same by its relayed changes alone |
| LiveView.RunKeeps | internal/sql/listener.go:69-124 | over every run of commits, relays, undecodable records, failed lookups, lost connections, other subscribers and consumer actions, the broker's log is the relayed part of the history in order, the consumer's channel begins at its subscription, and its view is its snapshot brought forward by what it received |
| LiveView.ReadSomewhere | internal/run/metrics.go:53-55 | a live consumer has always read up to some position of the history |
| LiveView.ReceivedIsRelayed | internal/run/metrics.go:39-57 | what a live consumer has received is the relayed part of the history from its subscription, which is no later than its snapshot |
| LiveView.ReceivedIsHistoryIff | internal/sql/listener.go:102-122 | it is the history itself if and only if no change since the subscription was passed over or failed to decode |
| LiveView.ConvergedUnlessMissed | internal/run/metrics.go:39-57 | in every reachable state a consumer that has read at least up to its snapshot shows every row without a missed change as in the table, and is the table if nothing was missed |
| LiveView.ConvergedIff | internal/run/metrics.go:39-57 | with misses, its view is the table if and only if each row with a missed change comes to the same by its relayed changes alone |
| LiveView.CurrentWhenDrained | internal/notifications/notifier.go:70-109 | a consumer that is still subscribed with nothing left to relay or read holds the current table if no change since its subscription was missed |
| LiveView.RelayDelivers | internal/sql/listener.go:103-115 | a relayed change reaches every subscriber that has room |
| LiveView.ConsumeApplies | internal/run/metrics.go:53-55 | the consumer takes the oldest buffered change and applies it |
| LiveView.PassOverSkips | internal/sql/listener.go:104-108 | a listener that starts anew skips what it missed and changes nothing else |
| LiveView.OthersTakeSteps | internal/pubsub/broker.go:79-112 | other parties' steps change the broker and nothing else |
| LiveView.StartsAnew | internal/run/metrics.go:39-45 | a consumer that stops can subscribe anew from the listener's position |
| LiveView.PassedOverUnnoticedIff | internal/sql/listener.go:104-108 | when the listener passes over a change, any consumer that was up to date stays so if and only if the change does not show: an untracked row, or an update to the same value |
| LiveView.DrainedButStale | internal/sql/listener.go:104-108 | from any state in which a consumer is subscribed, drained and up to date, a commit that shows and a failed lookup lead to one in which it is subscribed, drained and wrong |
| LiveView.StartsDrained | internal/run/metrics.go:39-57 | a consumer of an empty table is subscribed, drained and up to date once it has started |
| Metrics.MetricsCollector.BootstrapFrom | internal/run/metrics.go:59-65 | replaces the statuses by the listed ones and counts each on top of the existing gauges |
| Metrics.MetricsCollector.Handle | internal/run/metrics.go:67-86 | applies one event to statuses and gauges |
| Metrics.UpdateKeepsTally | internal/run/metrics.go:67-86 | every event keeps each gauge equal to its value before bootstrap plus the number of runs in its status |
| Metrics.BootstrapHoldsTable | internal/run/metrics.go:59-65 | bootstrapping from any listing of a table yields exactly the table and the right tallies |
| Metrics.RecordIsFaithful | internal/run/metrics.go:67-86 | the collector meets the conditions of the snapshot argument |
| Metrics.GaugesFollowTheTable | internal/run/metrics.go:39-86 | end to end, in every reachable state of table, listener, broker and collector in which no change since its subscription was missed: the statuses equal the table, and each gauge its value before bootstrap plus the number of runs in its status |
| Metrics.GaugesCountTheView | internal/run/metrics.go:59-86 | missed changes or not, each gauge is its value before bootstrap plus the number of runs shown in its status |
| Metrics.StatusesRightIff | internal/run/metrics.go:67-86 | with misses, the statuses are the table if and only if for each run whose last change was missed the last relayed change, or else the snapshot, says the same |
| Metrics.GaugesAreCountsIffStartedAtZero | internal/run/metrics.go:59-65 | the gauges are the true counts if and only if they were zero before bootstrap |
| Metrics.RestartCountsTwice | internal/run/metrics.go:59-65 | bootstrapping twice over a table counts every run twice |
| NotificationConfig.UrlSurvivesUpdates | internal/notifications/config.go:99-174 | a created configuration keeps a URL (unless email), valid triggers, a name and its destination through any updates, accepted or rejected |
| NotificationConfig.NewConfigIff | internal/notifications/config.go:99-141 | a configuration is accepted if and only if its destination, URL, triggers, flag and name are valid, and is then as the options say |
| NotificationConfig.UpdateIff | internal/notifications/config.go:154-174 | an update is accepted if and only if its name and triggers are valid; every option then takes effect, and of a rejected one at most name and flag |
| ConfigHistory.HistoryIsSound | internal/notifications/service.go:49-125 | whatever is created, updated and deleted, the committed changes are legal, no configuration changes between email and another kind, and each has a URL unless email, known triggers and a name |
| ConfigHistory.RequestTakesEffect | internal/notifications/service.go:49-125 | a valid request changes the table as requested, any other leaves it as it was |
| NotificationConfig.TriggerFor | internal/notifications/config.go:178-195 | yields each trigger exactly for its status, completed for ended runs other than errored ones, and none for queued ones |
| NotificationConfig.InterestedIff | internal/notifications/notifier.go:137-155 | a configuration is interested in a run event if and only if it is enabled, of the run's workspace, and has the trigger that goes with the status |
| NotificationCache.AddKeepsInv | internal/notifications/cache.go:57-87 | adding keeps: counts are the numbers of users, clients exist exactly for URLs in use, one open client each |
| NotificationCache.RemoveKeepsInv | internal/notifications/cache.go:89-115 | removing keeps the same, closes only open clients, and fails only for an unknown configuration, never for a missing client |
| NotificationCache.NotifierCache.constructor | internal/notifications/cache.go:42-46 | a new cache is empty and consistent |
| NotificationCache.NotifierCache.AddConfig | internal/notifications/cache.go:57-87 | adds a configuration, reusing or making its client; error cases change nothing |
| NotificationCache.NotifierCache.RemoveConfig | internal/notifications/cache.go:89-115 | removes a configuration and closes its client with the last user; the missing-client branch is never taken |
| Notifier.NewCache | internal/notifications/cache.go:37-54 | fills a cache from the listed configurations, stopping at the first for which a client is needed and cannot be made |
| Notifier.FromRowsAdds | internal/notifications/cache.go:48-53 | a listing fills the cache if and only if a client can be made for the first user of each URL; the cache then holds what is listed, email aside |
| Notifier.EventHandler.HandleConfigEvent | internal/notifications/notifier.go:111-125 | applies a configuration event, an update being a removal and, if that succeeds, an addition |
| Notifier.EventHandler.HandleRunEvent | internal/notifications/notifier.go:127-186 | publishes once, with the trigger of the status, to every enabled configuration of the workspace that has it, through the open client for its URL, and to no other; stops only for a failed workspace lookup or a failed publication, never for want of a client |
| Notifier.HandleKeepsInv | internal/notifications/notifier.go:111-125 | any event, with the factory failing or not, keeps the cache consistent |
| Notifier.HandleErrors | internal/notifications/notifier.go:111-125 | which events are errors: repeated creations, updates and deletions of what is missing, and clients that are needed and cannot be made |
| Notifier.CacheSafety | internal/notifications/cache.go:37-115 | in every cache filled from a listing at any time and then reached by events from the service's history, in any order, with clients made or not: count equals users, a client is present and open exactly when in use, nothing else is open, no client was closed twice |
| Notifier.FollowIsFaithful | internal/notifications/notifier.go:111-125 | although repeated creations and updates or deletions of missing configurations are errors, the notifier meets the conditions of the snapshot argument |
| Notifier.NotifierConverges | internal/notifications/notifier.go:70-125 | whatever is requested of the service, from a listing at j and the events from i <= j through k >= j the cache holds exactly the non-email configurations of the table at k |
| Notifier.CacheHoldsTheView | internal/notifications/notifier.go:70-125 | in every reachable state of table, listener, broker and notifier the cache holds the notifier's view |
| Notifier.NotifierFollowsTheTable | internal/notifications/notifier.go:70-125 | and the table's non-email configurations if no change since its subscription was missed |
| Notifier.ConfigsRightIff | internal/notifications/notifier.go:111-125 | with misses, the configurations are the table's if and only if each one with a missed change comes to the same by its relayed changes alone |
| Notifier.MissedCreationStaysMissed | internal/notifications/notifier.go:111-125 | a configuration absent from the snapshot whose creation was not relayed stays unknown whatever updates are relayed |
| Notifier.UpToDateIffClientAvailable | internal/notifications/cache.go:69-86 | an up-to-date cache stays so after an event if and only if the client factory works or no new client is called for |
| Chunks.CutIsWindow | internal/run/chunk.go:93-108 | Cut is the requested window of the data, clipped to it, and keeps the end marker exactly when it reaches it |
| Chunks.ReadByCuts | internal/run/chunk.go:93-113 | repeated cuts with any positive limit terminate and concatenate to the data |
| Chunks.UnframeRecoversPayload | internal/run/chunk.go:115-130 | stripping the frame of a complete log gives the payload; of an unfinished one, if and only if the payload does not end in the end marker |
| PostgresHex.UnmarshalJSON | internal/run/chunk.go:63-76 | the buffer-filling decoder computes the decoding, or fails when there is none |
| PostgresHex.DecodesIffWholePairs | internal/run/chunk.go:68-74 | decoding succeeds exactly on an even number of hex digits |
| PostgresHex.RecordForm | internal/run/chunk.go:63-67 | a record's form is quotes around two backslashes, an x and the digits |
| PostgresHex.ByteIs | internal/run/chunk.go:70-71 | a byte is two hex digits, the higher first, in encoding and decoding |
| PostgresHex.RoundTrip | internal/run/chunk.go:63-76 | every byte string survives encoding and decoding |
| LogStore.LogTables.PutChunk | internal/run/db.go:676-747 | inserts the chunk; a final chunk moves the phase into the logs table, or is rolled back if the phase is already there |
| LogStore.LogTables.GetChunk | internal/run/db.go:749-800 | returns some row of the query, or no data if there is none |
| LogStore.PutLeavesOthers | internal/run/db.go:676-747 | storing one phase's chunk changes no read of another phase |
| LogStore.CoalesceChangesNoRead | internal/run/db.go:704-744 | moving chunks into the logs table changes no read |
| LogStore.UnlimitedRead | internal/run/db.go:750-758 | a read without a limit returns all of the log from the offset on, of up to 2147483647 bytes, and of more that many |
| LogStore.ArrivalOrderIrrelevant | internal/run/db.go:704-744 | the order in which chunks arrive matters neither to reads nor to the coalesced log |
| PhaseWriter.Writer.WriteBytes | internal/run/phase_writer.go:41-64 | frames the first write and advances the position whether or not the upload succeeds |
| PhaseWriter.Writer.CloseLog | internal/run/phase_writer.go:67-83 | uploads the end marker, with a start marker if nothing was written |
| PhaseWriter.RunKeeps | internal/run/db.go:676-747 | over every session, with every upload arriving any number of times, the logs row holds what arrived up to the first end and the chunk rows what arrived since |
| PhaseWriter.ReadsAreWindows | internal/run/db.go:749-800 | at every point of every session and for every offset and limit a read yields exactly that window of what was logged up to the end and, if anything came after it, that window of the rest |
| PhaseWriter.SplitIffWrittenAfterEnd | internal/run/db.go:701-747 | over every session a logs row and chunk rows coexist if and only if a write with data not ending in the end marker arrived after an upload ending in it |
| PhaseWriter.LogIsSentIff | internal/run/phase_writer.go:41-83 | at every point of a session all reads are windows of all that was sent by then if and only if every write or close with something to upload is stored exactly once, before the log has ended |
| PhaseWriter.LogIsSentNowIff | internal/run/phase_writer.go:41-83 | the reads at one point tell as much, unless some uploads were lost and others stored more than once |
| PhaseWriter.SentIsFramed | internal/run/phase_writer.go:41-83 | a writer closed at most once and not used after sends start marker, payloads in order and end marker |
| PhaseWriter.LogIsWhatWasWritten | internal/run/phase_writer.go:41-83 | with a writer closed at most once and not used after, at every point all reads are windows of start marker, payloads and, once closed, end marker if and only if every write or close with something to upload is stored exactly once, before the log has ended |
| PhaseWriter.CutAgreesWithQuery | internal/run/db.go:749-755 | cutting the whole log agrees with querying it if and only if a limit is given or the rest fits an int4 |
| PhaseWriter.CloseSucceedsIff | internal/run/db.go:701-732 | after any session closing succeeds if and only if its upload arrives once and is answered and no upload that arrived before has ended the log |
| PhaseWriter.LostWriteLeavesAHole | internal/run/phase_writer.go:51-62 | a lost write between two that arrive: reads skip its payload |
| PhaseWriter.RepeatedWriteIsStoredTwice | internal/run/db.go:678-700 | a write that is delivered twice: reads have its payload twice |
| PhaseWriter.RepeatMayHideALoss | internal/run/phase_writer.go:51-62 | a session in which a write is lost and another, delivered twice, makes up for it |
| PhaseWriter.WritingOnSplitsTheLog | internal/run/db.go:749-780 | a write after one that ends in the end marker, or after the close: a read may return either of two rows |
| Tailer.RelayLoop | internal/run/tailer.go:45-70 | the relay loop sends the chunks, and stops, as specified |
| Tailer.RelayAccounts | internal/run/tailer.go:45-70 | relaying what reaches the tailer of any stretch of events brings the caller from the log before it to the log after it, but for the bytes lost and those sent again, and stops as it should |
| Tailer.TailAccounts | internal/run/tailer.go:19-73 | conservation, for every offset, subscription, snapshot, end of stream and set of events that reach the tailer, the end of the log not being lost: what the caller gets and what is lost come to the log and what is sent again; the relay stops exactly when the end lies beyond snapshot and offset |
| Tailer.TailIsExactIff | internal/run/tailer.go:45-70 | if every event arrives, the tail is the log if and only if no chunk past the resume position is deleted before the log is complete |
| Tailer.DeletionIsSentAgain | internal/run/tailer.go:45-70 | a chunk of an unfinished log that is deleted is sent again |
| Tailer.TailLacksIff | internal/run/tailer.go:45-70 | with deletions at coalescing only, the tail is the log if and only if no insertion past the resume position is lost, and else lacks as many bytes as were lost |
| Tailer.TailIsExact | internal/run/tailer.go:19-73 | with neither, for every offset, subscription, snapshot and end of stream the caller gets the log from the offset, nothing missed or repeated |
| Tailer.TailThroughBroker | internal/run/tailer.go:19-73 | what a broker subscription has received, after every run of the broker, gives the log if and only if no chunk past the resume position was deleted before the log was complete |
| LogPipeline.SessionStreams | internal/run/db.go:676-747 | while every upload is stored once, the row events of a session, deletions at coalescing included, spell out what was sent |
| LogPipeline.EndAnnouncesDeletions | internal/run/db.go:733-741 | the chunk that ends a log is announced, followed by the deletion of every row of the phase |
| LogPipeline.TailFollowsTheWriter | internal/run/tailer.go:19-73 | end to end from writer through tables, triggers and events to tailer: what is read and relayed is what was sent, from the requested offset, less what was lost with insertions that were not relayed |
| LogPipeline.EveryTailIsRightIff | internal/run/tailer.go:19-73 | at every point everybody who follows the log, whenever they subscribe and read and from whatever offset, has what was sent by then if and only if every write or close with something to upload is stored exactly once, before the log has ended |
| LogPipeline.LostUploadMayBeSentTwice | internal/run/tailer.go:45-70 | after a lost upload a follower is sent a stored chunk twice |
| Repohooks.SyncInstalls | internal/repohooks/synchroniser.go:27-69 | whatever the host held, a successful sync leaves a webhook under the stored cloud ID with the hook's secret, the events push and pull and the hook's own endpoint, and disturbs nothing else |
| Repohooks.SyncSucceedsIff | internal/repohooks/synchroniser.go:27-69 | a sync succeeds if and only if the host creates a webhook where it is known to have none, else finds and updates it |
| Repohooks.EndpointsDiffer | internal/repohooks/repohook.go:71-71 | hooks with different IDs have different endpoints |
| Repohooks.SyncTwiceIsOnce | internal/repohooks/synchroniser.go:27-69 | a second sync of the stored hook changes nothing |
| Repohooks.SyncCreatesIffMissing | internal/repohooks/synchroniser.go:44-55 | the host gains a webhook exactly when the stored hook has none there and creation succeeds |
| Repohooks.DeleteEachDeletes | internal/repohooks/service.go:112-181 | deleting listed hooks removes exactly those rows, succeeds exactly when every provider is found, and removes exactly the webhooks the host agrees to delete |
| Connections.CreateRepohookCreates | internal/repohooks/service.go:77-110 | success on a provider with webhooks leaves one hook for the repository, in sync, beside the others |
| Connections.CreateRepohookSucceedsIff | internal/repohooks/service.go:77-110 | setting up a hook succeeds if and only if the provider is found and either skips webhooks or has a token and the host does what is asked |
| Connections.ConnectSucceedsIff | internal/connections/connection.go:69-87 | connecting succeeds if and only if the hook can be set up and the resource is an existing workspace or module without a connection, and records that connection |
| Connections.DisconnectSucceedsIff | internal/connections/connection.go:90-102 | disconnecting succeeds if and only if the workspace or module is connected and the providers of the hooks to go are found; its connection and those hooks go |
| Connections.ConnectKeepsInv | internal/connections/connection.go:69-87 | connecting, whether it commits or rolls back, keeps the tables consistent |
| Connections.DisconnectKeepsInv | internal/connections/connection.go:90-102 | disconnecting, whether it commits or rolls back, keeps the tables consistent |
| Connections.DeleteProviderKeepsInv | internal/repohooks/service.go:146-159 | deleting a provider, its hooks and its connections keeps the tables consistent |
| Connections.DeleteProviderDeletes | internal/repohooks/service.go:146-159 | deleting a provider takes it, its hooks and its connections, and nothing else, or changes nothing |
| Connections.TablesStayConsistent | internal/connections/connection.go:69-102 | after every transaction of every run of transactions that do not overlap: hooks unique per repository, each with a cloud ID, every connection on a provider with webhooks has a hook, every hook is referenced |
| Connections.FailedConnectLeavesWebhookIff | internal/connections/connection.go:69-82 | a failed connection leaves the database alone, and a new webhook on the host if and only if the provider has webhooks and a token, the host creates one, and any hook of the repository is found to have lost its own |
| Connections.RefusedConnectLeavesWebhook | internal/connections/connection.go:69-82 | connecting a connected resource to a repository without a hook is refused and leaves a webhook that no hook stands for |
| Overlaps.StaleListingCoversIff | internal/repohooks/service.go:112-123 | deleting hooks listed at any earlier time leaves every connection with a hook if and only if none of them is referenced when it is deleted |
| Overlaps.ConnectMeanwhileKeepsInvIff | internal/connections/connection.go:69-102 | a connection made between the listing and the deletions of a disconnection keeps the tables consistent if and only if one of the two fails or the connection is to a repository none of whose hooks was listed |
| Overlaps.StaleListingUncovers | internal/connections/connection.go:90-102 | two connections and an overlapping disconnection, from an installation without any, that leave the tables inconsistent |
| Overlaps.BothGoneKeepsInvIff | internal/connections/connection.go:90-102 | two overlapping disconnections leave a hook behind if and only if their resources were the last two to share it |
| Overlaps.DisconnectMeanwhileKeepsInvIff | internal/connections/connection.go:90-102 | the same for the transactions, failures included; an unreferenced hook is all that can be wrong |
| Overlaps.NextDisconnectHeals | internal/repohooks/service.go:112-123 | a hook left behind goes with the next successful disconnection of any resource |
| Overlaps.ConsistentIffOverlapsHarmless | internal/connections/connection.go:69-102 | over every run of transactions, disconnections overlapping with a connection or another disconnection included, the tables are consistent throughout if and only if every overlap is harmless: one of the two fails, or they are not about the same hook |
| ConnectionService.Service.GetOrCreateHook | internal/repohooks/db.go:21-79 | returns the repository's hook, inserting it if there is none |
| ConnectionService.Service.Sync | internal/repohooks/synchroniser.go:27-69 | creates or updates the webhook and records its ID, step by step, as specified |
| ConnectionService.Service.CreateRepohook | internal/repohooks/service.go:77-110 | skips providers without webhooks, else gets or creates the hook and synchronises it |
| ConnectionService.Service.Connect | internal/connections/connection.go:69-87 | hook and connection, with the database rolled back on any error |
| ConnectionService.Service.DeleteRepohooks | internal/repohooks/service.go:117-121 | the deletion loop, as specified; the cloud ID it dereferences is always there |
| ConnectionService.Service.Disconnect | internal/connections/connection.go:90-102 | removes the connection and every hook left without one, with the database rolled back on any error |
| Reporter.StatusFor | internal/run/reporter.go:142-160 | success exactly for applied and planned_and_finished, error exactly for errored, canceled, force_canceled and discarded, pending exactly for the seven statuses before those |
| Reporter.JudgeIff | internal/run/reporter.go:103-160 | when an event is ignored and when it is reported, in terms of the event and the lookups |
| Reporter.HandleSendsIff | internal/run/reporter.go:162-194 | a status is sent if and only if there is one to report, it is not the cached one and the host accepts it; and exactly when handling succeeds |
| Reporter.StatusReporter.HandleRun | internal/run/reporter.go:103-194 | skips, fails, suppresses or sends as specified, and updates the cache |
| Reporter.RunKeepsCacheOk | internal/run/reporter.go:162-191 | over every run the cache holds exactly the last status of each run that was not done when it was sent |
| Reporter.LastSentIsCurrent | internal/run/reporter.go:103-194 | after every reportable event handled without error, the last status sent for its run is success, error or pending as the run's status calls for |
| Reporter.CachedRefinesUncached | internal/run/reporter.go:162-191 | for every run and every trace, failures included, the last status sent is the same as without a cache, and no more is sent |
| Reporter.NoRepeatUnlessDone | internal/run/reporter.go:185-191 | consecutive sends for a run carry equal status only if the run was found done at the first |
| Paging.SegmentAgrees | internal/resource/pagination.go:44-69 | paging a segment with a count and paging the full list give the same page |
| Paging.PagesPartition | internal/resource/pagination.go:104-122 | the pages concatenate to the list, no more pages than needed, the current page as asked, next and previous exactly where they exist, nothing past the end |
| Paging.ListAll | internal/resource/pagination.go:75-102 | terminates, returns the whole list unless fetching one of the pages it asks for fails, and never reports infinite pagination |
| ModuleRegistry.OkIffStored | internal/module/service.go:169-191 | over every interleaving of publishers and deletions a version is ok exactly when its tarball is stored |
| ModuleRegistry.CreateAddsPending | internal/module/service.go:169-178 | after any run, creating a version adds it as pending unless the module has it already |
| ModuleRegistry.UploadPublishes | internal/module/service.go:353-371 | after any run, an upload that commits stores that tarball and makes the version ok, one that does not changes neither, and nothing else changes |
| ModuleRegistry.FailureIsRecorded | internal/module/service.go:180-188 | a tarball that cannot be had or is invalid leaves its version failed accordingly and nothing stored |
| ModuleRegistry.OnlyPublishersFinish | internal/module/service.go:169-191 | only the publisher of a version decides its fate |
| ModuleRegistry.DeleteTakesTarball | internal/module/db.go:248-256 | deleting a version takes its tarball along |
| ModuleRegistry.UploadedIsAvailable | internal/module/module.go:144-151 | an uploaded version is available in any listing that has it, and what is stored is what was uploaded |
| ModuleRegistry.AvailableIsDownloadable | internal/module/service.go:336-379 | every available version of a listed module has a tarball |
| ModuleRegistry.AvailableVersions | internal/module/module.go:144-151 | returns exactly the ok versions, in order |
| ModuleRegistry.Latest | internal/module/module.go:164-171 | for versions in descending order, is the first available one; no ok version of the module is greater, and there is none exactly when no version is ok |
| TfeId.ParseUndoesString | internal/resource/tfe_id.go:44-62 | printing then parsing gives the identifier back if and only if it is well formed |
| TfeId.StringUndoesParse | internal/resource/tfe_id.go:44-62 | whatever parses is well formed and prints as it was |
| TfeId.MarshalRoundTrip | internal/resource/tfe_id.go:72-87 | text marshalling round-trips through any receiver |
| TfeId.UnmarshalIff | internal/resource/tfe_id.go:76-87 | text is accepted if and only if it is empty or prints a well-formed identifier; otherwise, and if empty, the receiver is left alone |
| TfeId.NewTfeID | internal/resource/tfe_id.go:24-32 | a new identifier has sixteen base58 characters and round-trips if and only if its kind has at least two characters and no hyphen; conversion to such a kind round-trips too |
| Lineage.GenerateRequest | internal/authz/authorizer.go:117-135 | with parents of descending rank the loop terminates with exactly the chain of successive parents, and fails if and only if looking up the parent of one of them fails |
| Lineage.KindsAreDistinct | internal/authz/authorizer.go:122-135 | no kind occurs twice among a resource and its ancestors |
| Lineage.NearestIsTheOnly | internal/authz/request.go:21-45 | Organization and Workspace return the unique element of their kind, if there is one |
| EngineVersions.CheckAndUpdateAll | internal/engine/version_checker.go:40-57 | the loop on one node, with other nodes' steps coming in while it waits for an endpoint, takes the system through its trace of reads and writes, giving up at the first check that comes to nothing |
| EngineVersions.CheckWritesIff | internal/engine/version_checker.go:59-89 | within 86400 seconds of its checkpoint a row is left alone; after that, and without a row, it is written if the version fetched is not older, and else the check fails |
| EngineVersions.AloneIsCheckAll | internal/engine/version_checker.go:40-57 | undisturbed, that is one check after the other |
| EngineVersions.VersionsNeverGoDown | internal/engine/version_checker.go:59-89 | of checks that do not overlap: between any two points of any run an engine's version does not go down, starting from its default, whatever the clocks |
| EngineVersions.VersionsNeverGoDownIff | internal/engine/db.go:15-33 | over every interleaving of any number of checkers, versions never go down between any two points if and only if no write is of an older version than the one stored at that moment |
| EngineVersions.UndisturbedWriteIsGood | internal/engine/version_checker.go:59-89 | a write whose row is still the one that its check read lowers no version, nor, with the clocks in order, comes too soon |
| EngineVersions.OverlappingChecksLower | internal/engine/version_checker.go:40-89 | from any state with a due row, two checkers that read it one after the other can lower the version and put checkpoints a second apart |
| EngineVersions.CheckpointsADayApart | internal/engine/version_checker.go:59-89 | of checks that do not overlap: while the database's clock is not behind the checker's, an engine's checkpoint moves by at least 24 hours or not at all |
| EngineVersions.CheckpointsADayApartIff | internal/engine/db.go:15-33 | over every interleaving, checkpoints stand still or move by at least 24 hours between any two points if and only if no write that changes a row comes within 24 hours of the checkpoint stored at that moment |

## Left out

- Unbuffered channels: with a buffer size of zero the model never delivers, while Go hands an event to a waiting receiver; the safety results hold either way.
- JSON decoding in the broker: whether a record decodes is a parameter.
- The `default` branch of `handleConfigEvent`: events have one of the three types.
- `configsMetric` and `clientsMetric`: counters beside the cache, which nothing reads back.
- A client of the right destination type per configuration: clients are shared by URL alone, so the code does not promise it.
- Notifier.NotifierConverges: for a client factory that makes every client called for; `UpToDateIffClientAvailable` says what one failure does.
- LogPipeline.TailFollowsTheWriter: for sessions in which every upload is stored once, as `EveryTailIsRightIff` calls for, and a stored log of less than 2147483647 bytes, which is above what a database value can hold.
- Tailer.TailAccounts: the end of the log reaches the tailer. If its insertion is passed over, the relay goes on to the deletions of coalescing.
- Tailer.TailIsExactIff: the snapshot is taken to be read before any row of an unfinished log is deleted; after that a read finds less.
- PhaseWriter.LogIsWhatWasWritten: for a writer that is closed at most once and not used after; `ReadsAreWindows` and `SplitIffWrittenAfterEnd` cover every other use.
- Deliveries of an upload after the writer has gone on to the next: each upload's deliveries come before the next operation.
- Ties in `ORDER BY _offset`: broken by arrival order; in a session only copies of the same chunk tie.
- Rendering of logs to HTML and of the report descriptions: foreign libraries and text.
- Paging.ListAll: for callbacks that page a fixed list, in either of the two ways; other callbacks need not terminate. A nil page or item list, which ends the loop, does not occur for them.
- Floating point in `newPagination`: integer division rounded up.
- Connections.TablesStayConsistent: for transactions that do not overlap; `Overlaps.ConsistentIffOverlapsHarmless` is about those that do.
- Overlaps.ConsistentIffOverlapsHarmless: for disconnections that overlap with one connection or one other disconnection; overlaps of more than two transactions, and with the deletion of a provider, are not part of this model.
- Overlaps.ConnectMeanwhileKeepsInvIff: about the tables only. The webhook deleted on the host is that of the row as it is; the program uses the row as it was listed, which is another one if the webhook was made anew meanwhile.
- Organization deletion: deletes the hooks of each of its providers in turn, as provider deletion does for one.
- `publishModule`'s loop over tags, module creation and authorization: they call the steps that are modelled, one after the other.
- The sort in `scanModule`: the library's; a module's versions are taken to be a descending permutation of its rows.
- Semantic version syntax and comparison: a library; assumed to be a total preorder.
- `Scan` and `Set` of identifiers: the same parsing behind a type switch.
- Lineage.GenerateRequest: the workspace policy lookup that follows the loop is not modelled.
- The run status machine, scheduling, allocation, VCS clients, HTTP, tokens, views and command line: not part of this model.
