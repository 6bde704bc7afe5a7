# thoth-mesh: a verified model

This project models the publish/subscribe node of thoth-mesh: the in-process broker, the connection
handlers around it, the durable log, and what nodes tell one another across the mesh. Pure step functions
say what an operation does to a state, and sequences of steps are the runs over which the theorems are
proved. What is an object in the program, with fields it updates in place, is a class here too, with the same
loops, and each method is proved to have exactly the effect of its step: the broker and its channels, maps
and windows, consumer groups, the store, the directories and registries, the limiter. Protocols between tasks
or nodes have no object of their own and are steps alone: Flood, the spreading in Gossip, LagRecovery,
DurableLags, Resume, and AclReload, whose handlers are a class in InterestCounts. Interleavings are datatypes
of steps, one step per lock-protected section or per stretch between two awaits. A step that is not enabled
does nothing, so that every sequence of steps is a run. Capacities are parameters everywhere. Fields and
ghost fields described as histories are kept by the model only.

Verify everything with `dafny verify dfyconfig.toml`.

| module | what it follows |
|---|---|
| TopicFilters | topics, filters, their validation, and matching against the language a filter denotes |
| Dedup, TopicMaps, Channels | the duplicate window, the bounded touch-ordered map, one topic's channel |
| Routing, Broker | publish and subscribe as steps, refining a plain list of subscriptions; the broker object |
| LagRecovery, DurableLags | one literal forwarder against a lagging receiver; durable sessions whose receivers lag |
| Groups, GroupMembers | consumer groups: round-robin, leases, sweeps |
| Store, Rehydration, Restart, WildcardRestart | the log's tables and queries, starting again from them, and what wildcard subscribers see of that |
| DurableSeam, Resume, ResumeOrder | a durable subscribe against concurrent publishes; durable sessions one after another, and which orders of appends and of broadcasts they survive |
| Flood, Gossip, PeerDirectory | publishes and peer announcements over an arbitrary graph of nodes |
| Interest, Announcements, PeerLinks | interest counts, what each link is told, and the registry of links |
| AclReload, InterestLedger, InterestCounts | subscribing against ACL reloads, lock by lock, and the interest accounts at that grain and between awaits |
| Redelivery, RateLimit | bounded redelivery and token buckets |
| Common, Sequences, Sorting | shared values and facts |

## Where the code and its comments differ

The model follows the code. Each point below is backed by a lemma.

- The comments on `evict_over_capacity` say that the map may stay over capacity when every entry is live.
  It never does: the entry just inserted has no receiver yet and is itself removed
  (`TopicMaps.InsertionEffect`, `Routing.SubscriptionIsServed`).
- `subscribe_durable` is documented to double-deliver at worst, never to lose. It loses a message above the
  position that was not stored at the disk read, was sent before the snapshot with more than a replay buffer
  of sends from it to there, itself included, and is not the retained one then (`DurableSeam.SeamReachesIff`;
  a run: `DurableSeam.SeamCanLose`).
- `record_delivered` says that at worst, when recording fails, a reconnect replays more than necessary, never
  less. Even when nothing fails it can replay less: `publish` awaits between the append and the broadcast, so
  that publishes can overtake one another in either, and a reconnect can skip a message overtaken by a higher
  id (`Resume.LateLowIdIsLost`; exactly when: `ResumeOrder.SomeScheduleMissesIff`).
- `spawn_durable_forwarder` says that after a lag a second catch-up from disk would just redo what its gap
  skipping does. After a lag out of reach that skips stored messages, and the next delivery moves the recorded
  position past them for good (`DurableLags.LagLosesForGood`; exactly when:
  `DurableLags.SomethingIsPassedOverIff`, `DurableLags.LagLeavesOutIff`).
- `rehydrate_from_store` says that a restart is invisible to a later subscriber. It is to a literal one
  (`Restart.RestartIsInvisible`). The buffers of patterns are not refilled, so that a wildcard subscriber is
  given the stored retained messages alone (`WildcardRestart.WildcardBacklogAfterRestart`; visible exactly
  when: `WildcardRestart.WildcardSeesRestartIff`).
- `handle_subscribe` says that a sweep always sees an incremented interest count. On a runtime with several
  threads a reload can sweep a forwarder between its insert and its increment. When no count is there to
  take, the increment that follows leaks one for good (`AclReload.InterestCanLeak`). When another
  connection is counted, then or by the time the sweep counts down, the sweep takes that count, and if the
  second check then refuses, peers are told there is no interest while that connection still holds the filter
  (`InterestLedger.InterestCanUndercount`, `InterestLedger.InterestCanUndercountALatecomer`).
  Exactly when: `InterestLedger.RightThroughoutIff`, `InterestLedger.CountIsRightIff`.
- `handle_unsubscribe` skips the decrement when its ack cannot be sent; each such case leaves one count
  behind for good (`InterestCounts.OnlyLeaksRemain`; a run: `InterestCounts.FailedAckLeaks`).
- `handle_subscribe` announces new interest after its ack. If the ack fails while another connection has
  subscribed, the interest that stays is never announced; if a sweep ends the interest before the ack is sent,
  it is announced all the same (`Announcements.FailedAckIsNotAnnounced`,
  `Announcements.EndedInterestIsAnnounced`; exactly when: `Announcements.SettledThroughoutIff`).
- `reconcile_interest` skips wildcards because they can never have been announced. They can, before the
  first peer-topic-filter was configured, and are then never withdrawn (`Announcements.StaleWildcardStays`;
  a run: `Announcements.WildcardGoesStale`).

## Model

| member | source | states |
|---|---|---|
| `DurableSeam.SeamLosesNothing` | crates/thoth-mesh-broker/src/lib.rs:352-391 | in every interleaving of appends, sends, pruning and one durable subscribe: with a recorded position and at most a replay buffer of sends between disk read and snapshot, each successfully appended message above the position is in the backlog, in the live stream, or not sent yet, unless its row had been pruned by the read, which takes at least a retention of newer appends of its topic |
| `DurableSeam.SeamIsExact` | crates/thoth-mesh-broker/src/lib.rs:352-391 | in the same runs: the backlog is strictly sorted (so without repeats), all of the topic and above the position, the live stream repeats nothing, and the backlog is exactly what was stored at the read or buffered or retained at the snapshot |
| `DurableSeam.SeamReachesIff` | crates/thoth-mesh-broker/src/lib.rs:352-391 | the exact fate of every message ever sent above the position, stored, pruned or never stored: it reaches the subscriber if and only if it was stored at the read (with a position recorded), or at most a replay buffer of sends lies between it and the snapshot, or it was retained then |
| `DurableSeam.SeamCanLose` | crates/thoth-mesh-broker/src/lib.rs:352-391 | a run in which it does not: for any limits, replay buffer and position, when one message more than the replay buffer holds is published between the disk read and the snapshot, the first of them is stored, above the position, and in neither backlog nor stream |
| `DurableSeam.StoredUnlessManyNewer` | crates/thoth-mesh-node/src/persistence.rs:84-107 | of the topic's appends before the read, the newest up to the retention were all stored at the read, however pruning fell |
| `DurableSeam.StepKeepsInv` | crates/thoth-mesh-broker/src/lib.rs:591-632 | in each step ids stay distinct everywhere, the log holds only appends, and every append is stored at the read, pending, or sent after it, whatever fails and is pruned |
| `DurableSeam.JoinIs` | crates/thoth-mesh-broker/src/lib.rs:376-388 | merging yields exactly the catch-up and the buffered envelopes above the position |
| `DurableSeam.JoinKeepsUnique` | crates/thoth-mesh-broker/src/lib.rs:376-388 | merging never puts an id in twice |
| `DurableSeam.JoinHas` | crates/thoth-mesh-broker/src/lib.rs:376-388 | whatever the ids: all of the catch-up, and of the buffered envelopes above the position one for every other id, and nothing else |
| `DurableSeam.Merge` | crates/thoth-mesh-broker/src/lib.rs:376-390 | the loop that skips old and repeated envelopes, then sorts, computes that merge |
| `DurableSeam.SubscribeDurable` | crates/thoth-mesh-broker/src/lib.rs:352-391 | a wildcard or a missing store is refused and changes nothing; otherwise the broker subscribes as usual, and the answer, sorted by id, is: with a position recorded for this subscriber and topic, every stored message of the topic above it and every buffered one above it (or another with its id), and nothing at or below it; with none recorded, what was buffered |
| `DurableSeam.RecordAndResume` | crates/thoth-mesh-broker/src/lib.rs:352-414 | a position recorded and then a durable subscribe: nothing at or below that position comes back, and nothing stored or buffered above it is missing |
| `DurableSeam.OnlyOwnPositionMatters` | crates/thoth-mesh-broker/src/lib.rs:363-373 | a position recorded for another subscriber or another topic makes no difference |
| `DurableSeam.SubscribeAndMerge` | crates/thoth-mesh-broker/src/lib.rs:375-390 | an ordinary subscribe, and its backlog merged with a disk read |
| `DurableSeam.ReadDiskFor` | crates/thoth-mesh-broker/src/lib.rs:363-373 | the position recorded for exactly this subscriber and topic, if there is one, and then every stored message of the topic above it |
| `Resume.NothingIsMissed` | crates/thoth-mesh-node/src/connection.rs:1816-1898 | over any number of durable sessions ended at any moment, with appends and broadcasts interleaved among themselves and with the two halves of starting a session, and ids increasing in both orders: every message above the first position has been sent, or is above the recorded position and, in a session, in its work or about to be broadcast |
| `Resume.OnlyTheOneInHandRepeats` | crates/thoth-mesh-node/src/connection.rs:1816-1898 | in the same runs: nothing at or below the recorded position is sent again, unless a backlog took it between its append and its broadcast; and while none did, at most one message sent is above the position |
| `Resume.TakenEarlyIsRepeated` | crates/thoth-mesh-broker/src/lib.rs:352-391 | that exception is real: a session that starts between append and broadcast is sent the message twice |
| `Resume.ReconnectLosesNothingIff` | crates/thoth-mesh-node/src/connection.rs:1816-1898 | for any ids and after any such run: ending a session and starting the next loses nothing above the first position if and only if no message above it, broadcast but not sent, is waiting with an id at or below the recorded position |
| `ResumeOrder.SomeScheduleMissesIff` | crates/thoth-mesh-node/src/connection.rs:1816-1898 | for any rows, first position, and publishes with distinct ids in the order of their appends and in the order of their broadcasts, which may differ: some schedule of these and of sessions leaves an up-to-date subscriber, everything broadcast, without a message above its first position if and only if some such message comes after one with a higher id in the order of appends, the earlier rows included, or in the order of broadcasts |
| `ResumeOrder.OvertakenIsMissed` | crates/thoth-mesh-node/src/connection.rs:1838-1862 | builds the schedule that misses it, whichever of the two orders it is overtaken in |
| `ResumeOrder.LateAppendIsMissed` | crates/thoth-mesh-broker/src/lib.rs:591-632 | overtaken in the order of appends: the higher message is delivered in one session, and the next catches up above it |
| `ResumeOrder.LateBroadcastIsMissed` | crates/thoth-mesh-broker/src/lib.rs:591-632 | overtaken in the order of broadcasts alone, everything stored in order: a session ends after the higher message and before the lower is broadcast |
| `ResumeOrder.InOrderIsNotMissed` | crates/thoth-mesh-node/src/connection.rs:1816-1898 | if none is overtaken in either order, no schedule misses anything above the first position |
| `Resume.LateLowIdIsLost` | crates/thoth-mesh-node/src/connection.rs:1838-1862 | a concrete loss: a message appended and broadcast after one with a higher id, when the session ends in between |
| `Restart.RestartIsInvisible` | crates/thoth-mesh-node/src/lib.rs:157-187 | after any run of publishes, subscriptions of every kind and earlier restarts over at most map-capacity exact topics, with pruning that keeps at least a replay buffer of rows, a restart leaves every topic with the same replay buffer and retained message |
| `Restart.StepKeeps` | crates/thoth-mesh-broker/src/lib.rs:591-632 | each step keeps memory and log in agreement: every buffer is the newest rows of its topic, every retained message the stored one |
| `Restart.RestoredMirrors` | crates/thoth-mesh-node/src/lib.rs:157-187 | a new broker filled from the log remembers of every topic exactly what the log says, in whatever order the tables are loaded |
| `Restart.RehydrateFromStore` | crates/thoth-mesh-node/src/lib.rs:157-187 | the startup code builds that broker, and it is a valid one without subscriptions, to which every publish and subscribe contract applies |
| `Rehydration.RestoredIsUnsubscribed` | crates/thoth-mesh-broker/src/lib.rs:237-262 | whatever was loaded, in whatever order, and however little of it the map had room for, a refilled broker is one the routing theorems start from |
| `Restart.RunKeepsBroker` | crates/thoth-mesh-node/src/lib.rs:157-187 | every broker a node has during a run with restarts keeps the routing invariant |
| `Restart.SubscriptionIsServedAfterRestart` | crates/thoth-mesh-node/src/lib.rs:157-187 | after any run of a node and one more restart, a new subscription is sent exactly the new matching publishes made while it lives, in order and once, if the map had room; otherwise nothing |
| `Restart.KeepingFewerIsVisible` | crates/thoth-mesh-node/src/persistence.rs:84-108 | for one topic, pruning goes unnoticed by a restart if and only if it keeps at least a replay buffer of rows or deletes none |
| `WildcardRestart.WildcardBacklogAfterRestart` | crates/thoth-mesh-broker/src/lib.rs:293-318 | after any run of a node as in Restart.RestartIsInvisible and one more restart, a wildcard subscriber's backlog is exactly the stored retained messages of the topics it matches, sorted by id, one for each id |
| `WildcardRestart.WildcardSeesRestartIff` | crates/thoth-mesh-node/src/lib.rs:153-187 | a restart changes what a wildcard subscriber is given if and only if its pattern had, of its own, a message that is not the stored retained message of a topic it matches |
| `WildcardRestart.BacklogIs` | crates/thoth-mesh-broker/src/lib.rs:293-318 | while memory agrees with the log: a pattern's own backlog, and for each matching topic its stored retained message or another with its id, and nothing else |
| `Restart.PublishRemembers` | crates/thoth-mesh-broker/src/lib.rs:591-650 | a publish changes the memory of its own topic alone, whatever patterns match |
| `Rehydration.BuffersRestored` | crates/thoth-mesh-broker/src/lib.rs:237-252 | refilling topic by topic gives each topic its loaded messages and no other topic anything |
| `Rehydration.RetainedRestored` | crates/thoth-mesh-broker/src/lib.rs:254-262 | restoring retained messages gives each topic its own and leaves the buffers alone |
| `Rehydration.FindTopicRemembers` | crates/thoth-mesh-broker/src/lib.rs:808-826 | within capacity, looking a topic up changes what is remembered of none |
| `Broker.Broker.RehydrateBuffer` | crates/thoth-mesh-broker/src/lib.rs:237-252 | pushes the loaded messages and keeps the newest, on that topic alone |
| `Broker.Broker.RehydrateRetained` | crates/thoth-mesh-broker/src/lib.rs:254-262 | sets one topic's retained message |
| `Broker.KeepNewest` | crates/thoth-mesh-broker/src/lib.rs:245-251 | popping from the front until within capacity keeps the newest |
| `Store.PruneKeepsNewest` | crates/thoth-mesh-node/src/persistence.rs:84-107 | deleting by rank within the topic keeps exactly each topic's newest rows, in order |
| `Store.AppendEffect` | crates/thoth-mesh-node/src/persistence.rs:111-159 | an append adds its row at the end of its topic, and if it is the one that makes up the number, leaves only the newest of each topic |
| `Store.NothingIsPrunedEarly` | crates/thoth-mesh-node/src/persistence.rs:111-159 | until then the log only grows |
| `Store.PrunedOnTime` | crates/thoth-mesh-node/src/persistence.rs:111-159 | that append leaves of every topic the newest up to the retention, and counting starts over |
| `Store.LogStaysBounded` | crates/thoth-mesh-node/src/persistence.rs:65-159 | so a log pruned when it was opened never holds more of a topic than the retention and the appends since the last pruning |
| `Store.GroupingIsExact` | crates/thoth-mesh-node/src/persistence.rs:180-192 | collecting consecutive rows of equal topic recovers every topic's rows |
| `Store.GroupsAreRecent` | crates/thoth-mesh-node/src/persistence.rs:161-193 | selecting by rank, ordering by topic and grouping gives each stored topic once, with its newest messages |
| `Store.SqliteStore.constructor` | crates/thoth-mesh-node/src/persistence.rs:65-82 | opening prunes once and keeps the other tables |
| `Store.SqliteStore.Append` | crates/thoth-mesh-node/src/persistence.rs:111-159 | row, retained message set, cleared or kept, and every so often a pruning, in one step |
| `Store.SqliteStore.LoadRecent` | crates/thoth-mesh-node/src/persistence.rs:161-193 | each topic that has messages once, with its newest `perTopic`, oldest first |
| `Store.Collect` | crates/thoth-mesh-node/src/persistence.rs:180-192 | the loop over ordered rows builds those groups |
| `Store.SqliteStore.LoadRetained` | crates/thoth-mesh-node/src/persistence.rs:195-214 | every retained message, each topic once |
| `Store.SqliteStore.MessagesSince` | crates/thoth-mesh-node/src/persistence.rs:217-245 | exactly the topic's rows above the id, sorted by id, strictly when ids are distinct |
| `Store.SqliteStore.LoadOffset` | crates/thoth-mesh-node/src/persistence.rs:247-265 | the recorded position of this subscriber on this topic, if any |
| `Store.SqliteStore.RecordOffset` | crates/thoth-mesh-node/src/persistence.rs:267-293 | overwrites that position and no other |
| `Flood.FloodIsSafe` | crates/thoth-mesh-broker/src/lib.rs:1047-1058 | in every run over any finite mesh, cycles and doubled links included, with at most dedup-capacity ids: no node accepts an id twice, and only nodes reachable from where it was published accept it |
| `Flood.FloodReachesExactly` | crates/thoth-mesh-node/src/connection.rs:824-893 | once nothing is in flight, the nodes that accepted an id are exactly those reachable along links that carry it |
| `Flood.FloodTerminates` | crates/thoth-mesh-node/src/connection.rs:1701-1794 | however publishes and deliveries interleave, at most (links + 1) * nodes * messages copies ever arrive |
| `Flood.StepMeasure` | crates/thoth-mesh-broker/src/lib.rs:591-606 | no step adds to the measure of unseen pairs and copies in flight, and each arrival takes from it |
| `Flood.RunKeepsInv` | crates/thoth-mesh-broker/src/lib.rs:591-677 | whatever a node accepted has arrived at the far end of each carrying link or is on its way |
| `Flood.SmallWindowsFloodForever` | crates/thoth-mesh-broker/src/lib.rs:1047-1058 | the capacity bound is needed: for every capacity, with one id more than a window holds, each published once, two linked nodes can pass copies on for as long as one likes |
| `Flood.PublishedCircles` | crates/thoth-mesh-broker/src/lib.rs:1047-1058 | publishing each of those ids once is enough to get there, on any mesh of two such links |
| `Flood.CopiesAre` | crates/thoth-mesh-node/src/connection.rs:1701-1794 | a node forwards one copy on each of its links that carries the message, and on no other |
| `LagRecovery.SentInPublishOrder` | crates/thoth-mesh-node/src/connection.rs:1701-1794 | on a new or refilled channel, through any sequence of publishes, lags and resubscribes: what a literal forwarder has sent is a subsequence of what the channel was ever given, a restored retained message and the refill first: nothing twice, nothing out of order |
| `LagRecovery.LagLosslessIffWithinReach` | crates/thoth-mesh-node/src/connection.rs:1722-1790 | in every state reachable from a new or refilled channel, whatever earlier lags lost: the work after a lag is exactly everything newer than the last envelope sent if and only if that one is in the replay buffer, or is the retained message just before it |
| `LagRecovery.FewNewerIsWithinReach` | crates/thoth-mesh-node/src/connection.rs:1722-1790 | in the same states, with at most replay capacity minus one publishes newer than the last envelope sent: the work after a lag is exactly those if and only if that last one is a publish of the channel's log or still the retained message, so that the one exception is a restored retained message outside the refill, replaced since |
| `LagRecovery.CaughtUpForwarderMissedNothing` | crates/thoth-mesh-node/src/connection.rs:1701-1794 | on a new or refilled channel, if every lag was within reach, a forwarder that has caught up has sent all it was owed since its start, each once |
| `LagRecovery.EqualCapacitiesRecoverNothing` | crates/thoth-mesh-broker/src/lib.rs:28-47 | with a replay buffer no larger than a receiver's own, every lag of a forwarder that has sent anything loses something |
| `LagRecovery.FoundInBacklog` | crates/thoth-mesh-node/src/connection.rs:1741-1749 | a buffered envelope is found in the backlog where the buffer has it |
| `LagRecovery.BacklogPlaces` | crates/thoth-mesh-broker/src/lib.rs:922-934 | a backlog is in publish order: a retained message outside the buffer is older than all of it |
| `DurableLags.SomethingIsPassedOverIff` | crates/thoth-mesh-node/src/connection.rs:1816-1898 | over any number of durable sessions with any lags: a stored message above the first position is at some time neither sent nor above the recorded position if and only if some session goes on past a message that one of its lags left out |
| `DurableLags.LagLeavesOutIff` | crates/thoth-mesh-node/src/connection.rs:1861-1893 | a lag leaves something out if and only if it is out of reach: neither is the last message delivered (before any delivery, the first one due) in the replay buffer, nor is it the retained message with the buffer beginning right behind it |
| `DurableLags.NothingIsMissedWithinReach` | crates/thoth-mesh-node/src/connection.rs:1816-1898 | so while every lag is within reach, every stored message above the first position has been sent, or is above the recorded position and, in a session, still coming |
| `DurableLags.LagLosesForGood` | crates/thoth-mesh-node/src/connection.rs:1872-1893 | a run in which three stored messages above the first position are never sent and the next session does not catch up on them |
| `DurableLags.StepPassesIff` | crates/thoth-mesh-node/src/connection.rs:1838-1898 | the same for one step, as a check before it |
| `Routing.BrokerRefinesPlain` | crates/thoth-mesh-broker/src/lib.rs:591-650 | in every run of a new or refilled broker with any capacities, exact map, pattern scan and eviction agree with a plain list of subscriptions for every live subscription that is attached |
| `Routing.SubscriptionIsServed` | crates/thoth-mesh-broker/src/lib.rs:280-321 | on a new or refilled broker, a subscription is sent every new publish made while it lives that its filter matches, in order, once each, and nothing else, if the map had room when it was opened; otherwise nothing at all |
| `Routing.StartsAttached` | crates/thoth-mesh-broker/src/lib.rs:815-866 | a new subscription's channel is in the map if and only if the filter was there, the map was below capacity, or an idle entry could go |
| `Routing.StaysAttachedThrough` | crates/thoth-mesh-broker/src/lib.rs:851-866 | while a subscription lives its channel stays as attached as it was |
| `Routing.PlainReceives` | crates/thoth-mesh-broker/src/lib.rs:264-279 | the plain list gives each live subscription the new matching publishes, in order |
| `Routing.LiteralBacklog` | crates/thoth-mesh-broker/src/lib.rs:922-934 | the backlog of a literal subscription is the newest of what its channel was refilled with and the publishes since it was created, after the retained message exactly when that is set and has fallen out |
| `Routing.StepKeepsInv` | crates/thoth-mesh-broker/src/lib.rs:591-650 | each operation keeps: maps coherent, one channel per name, every attached channel's log a refilled part followed by exactly what its name wants |
| `Routing.WhoIsSent` | crates/thoth-mesh-broker/src/lib.rs:629-650 | a publish reaches exactly its topic's channel and the attached patterns that match, with its retained effect on the first alone |
| `Broker.Broker.Publish` | crates/thoth-mesh-broker/src/lib.rs:591-650 | returns whether the id is new to the window, and does what the routing specification says, in place |
| `Broker.Broker.Record` | crates/thoth-mesh-broker/src/lib.rs:591-595 | the duplicate check alone: nothing else changes |
| `Broker.Broker.DeliverNew` | crates/thoth-mesh-broker/src/lib.rs:622-650 | what follows for a new envelope completes the publish |
| `Broker.Broker.Route` | crates/thoth-mesh-broker/src/lib.rs:626-650 | delivers to the exact channel and every matching pattern |
| `Broker.Broker.SendToPatterns` | crates/thoth-mesh-broker/src/lib.rs:642-650 | the scan over the patterns sends to each matching channel once |
| `Broker.Broker.Subscribe` | crates/thoth-mesh-broker/src/lib.rs:280-321 | opens the receiver the specification opens and returns the backlog it calls for |
| `Broker.Broker.PatternBacklog` | crates/thoth-mesh-broker/src/lib.rs:299-318 | merges every matching topic's retained message into the pattern's backlog, sorted by id, nothing lost, nothing else, no repeat added |
| `Broker.Broker.Unsubscribe` | crates/thoth-mesh-broker/src/lib.rs:264-280 | dropping a receiver ends that subscription alone |
| `Sorting.SortUnique` | crates/thoth-mesh-broker/src/lib.rs:317 | sorting by id what has no repeated id makes it strictly sorted and keeps its elements |
| `Sorting.SortSorts` | crates/thoth-mesh-broker/src/lib.rs:317 | sorting by id sorts and keeps the elements |
| `Channels.TopicChannel.Publish` | crates/thoth-mesh-broker/src/lib.rs:949-962 | buffer, retained slot and receivers change together; the buffer stays the newest part of the history |
| `Channels.TopicChannel.Subscribe` | crates/thoth-mesh-broker/src/lib.rs:922-934 | snapshot and receiver position are taken together, the retained message in front if it has fallen out |
| `Channels.SendKeepsExact` | crates/thoth-mesh-broker/src/lib.rs:949-962 | a publish keeps the buffer the newest part of the history and the retained slot its newest retained message, unless empty |
| `Channels.RetainedIsNewest` | crates/thoth-mesh-broker/src/lib.rs:949-962 | the retained message is the newest publish that was to be retained, none if that was empty, and the first one if there was none |
| `TopicMaps.GetOrInsertKeepsCoherent` | crates/thoth-mesh-broker/src/lib.rs:808-866 | in every reachable state: the queue is a duplicate-free permutation of the keys in touch order, size within capacity, insertions equal size plus evictions |
| `TopicMaps.InsertionEffect` | crates/thoth-mesh-broker/src/lib.rs:815-866 | a new key loses nothing below capacity, and at capacity exactly the least recently touched entry without a receiver, perhaps the new one |
| `TopicMaps.LeastRecentlyUsedGoes` | crates/thoth-mesh-broker/src/lib.rs:815-866 | over any run of lookups on a new map: a hit changes no entry; a new key is added; and when the map was full, exactly the entry without a receiver goes whose last lookup, hits included, lies furthest back |
| `TopicMaps.EveryLookupTouches` | crates/thoth-mesh-broker/src/lib.rs:815-839 | after any run the touch log is the sequence of looked-up keys |
| `TopicMaps.AttachedWhen` | crates/thoth-mesh-broker/src/lib.rs:815-866 | after a lookup a key is in the map if and only if it was before, or there was room, or another idle entry to evict |
| `TopicMaps.LiveEntryStays` | crates/thoth-mesh-broker/src/lib.rs:851-866 | an entry with a live receiver survives every lookup |
| `TopicMaps.NoEvictionWithin` | crates/thoth-mesh-broker/src/lib.rs:851-854 | nothing is evicted while the keys in use fit |
| `TopicMaps.TopicMap.Lookup` | crates/thoth-mesh-broker/src/lib.rs:815-826 | the in-place map does that, a hit touching the key it finds |
| `TopicMaps.TopicMap.TouchKey` | crates/thoth-mesh-broker/src/lib.rs:833-839 | moves a queued key to the back, changes nothing else |
| `TopicMaps.TopicMap.Evict` | crates/thoth-mesh-broker/src/lib.rs:851-866 | removes the first idle entry of the queue if over capacity |
| `Dedup.SeenIds.Record` | crates/thoth-mesh-broker/src/lib.rs:1047-1058 | returns true if and only if the id is not among the last `capacity` accepted ids, and then accepts it |
| `Dedup.EachIdAcceptedOnce` | crates/thoth-mesh-broker/src/lib.rs:1047-1058 | any run over at most `capacity` distinct ids accepts each exactly once |
| `Dedup.OverflowAcceptsARepeat` | crates/thoth-mesh-broker/src/lib.rs:1047-1058 | one id more is enough to accept a repeat |
| `Groups.DeliverReachesOneMember` | crates/thoth-mesh-broker/src/lib.rs:1008-1021 | for any cursor: a delivery fails if and only if no member accepts; otherwise the one member to get it is the first accepting one in cyclic order from the cursor, all before it having refused, and the cursor moves just past it |
| `Groups.DeliveriesGoAround` | crates/thoth-mesh-broker/src/lib.rs:1008-1021 | for any cursor and any traffic on the queues between deliveries: while members neither join nor leave and all accept at each delivery, delivery i goes to the member i places on from the cursor, counted around |
| `Groups.RoundRobinIsFair` | crates/thoth-mesh-broker/src/lib.rs:1008-1021 | so, of any number of such deliveries, each of n members gets the n-th part rounded down or up, the extra ones those next in turn |
| `Groups.CursorCanBeOutOfRange` | crates/thoth-mesh-broker/src/lib.rs:477-489 | such a cursor is reachable: one delivery to the first of two members, which then leaves |
| `Groups.NewWorkQueueBalances` | crates/thoth-mesh-broker/src/lib.rs:440-567 | in every run with distinct ids, whatever other traffic fills or closes the queues, each accepted message is in exactly one of leased, acked and given up, and the copies handed out are 1 + attempts, at most 1 + the limit |
| `Groups.EventBalances` | crates/thoth-mesh-broker/src/lib.rs:440-567 | each event keeps that account |
| `Groups.PublishEffect` | crates/thoth-mesh-broker/src/lib.rs:656-675 | publishing in full: nothing if no member accepts; otherwise the first accepting one from the cursor on gets the message at the end of its queue, the cursor moves past it, one copy is counted, and exactly an ack-tracked group leases it, from now and without attempts |
| `Groups.AckEffect` | crates/thoth-mesh-broker/src/lib.rs:499-503 | acknowledging: the id is leased no more, is settled if it was leased, and every other lease, the queues, copies, members and cursor are as before |
| `Groups.AckedNeverReappears` | crates/thoth-mesh-broker/src/lib.rs:440-567 | in every run with distinct ids: an id acknowledged while leased is never leased, handed out or given up again |
| `Groups.SweepEffect` | crates/thoth-mesh-broker/src/lib.rs:521-567 | lease by lease: not due, untouched; due without attempts left, given up; otherwise redelivered, or unchanged if nobody accepts |
| `Groups.RoomForAll` | crates/thoth-mesh-broker/src/lib.rs:521-567 | if some member has room for every lease due, a sweep redelivers each one that has attempts left |
| `Groups.RedeliversIfAnyAccepts` | crates/thoth-mesh-broker/src/lib.rs:521-567 | one lease with attempts left is redelivered if any member accepts: one more copy, and its clock starts over |
| `Groups.GivenUpIsOrderIndependent` | crates/thoth-mesh-broker/src/lib.rs:521-567 | what a sweep gives up does not depend on the order of the map |
| `Groups.NobodyAcceptsNothingChanges` | crates/thoth-mesh-broker/src/lib.rs:521-567 | a sweep that finds no accepting member changes no lease that has attempts left |
| `GroupMembers.ConsumerGroup.DeliverTo` | crates/thoth-mesh-broker/src/lib.rs:1008-1021 | the loop over the members hands over the one copy the specification hands over |
| `GroupMembers.ConsumerGroup.Publish` | crates/thoth-mesh-broker/src/lib.rs:656-675 | delivers, and leases what an ack-tracked group accepted |
| `GroupMembers.ConsumerGroup.Join` | crates/thoth-mesh-broker/src/lib.rs:440-464 | adds a member at the back |
| `GroupMembers.ConsumerGroup.Leave` | crates/thoth-mesh-broker/src/lib.rs:477-489 | removes every entry of that member, keeps all others in their order, and leaves the cursor as it is |
| `Groups.LeaveKeepsTheOthers` | crates/thoth-mesh-broker/src/lib.rs:477-489 | who stays when a member leaves: all others, in their order |
| `GroupMembers.ConsumerGroup.Acknowledge` | crates/thoth-mesh-broker/src/lib.rs:499-503 | drops the lease, if there is one, and notes it as settled; nothing else changes |
| `GroupMembers.ConsumerGroup.Sweep` | crates/thoth-mesh-broker/src/lib.rs:521-567 | lease by lease: not overdue, unchanged; overdue without attempts left, gone and answered, each once and nothing else; otherwise unchanged or handed out again with one more attempt from now; and the account is kept |
| `GroupMembers.Outgoing.TrySend` | crates/thoth-mesh-broker/src/lib.rs:1016-1019 | puts the envelope at the end of the queue if and only if it is open and has room |
| `Redelivery.RunBalances` | crates/thoth-mesh-node/src/redelivery.rs:51-103 | in every run with distinct ids and non-decreasing times: recorded ids split into pending, acked and given up; sends of one id are at least the timeout apart and at most 1 + the limit |
| `Redelivery.BooksFollowTheSweep` | crates/thoth-mesh-node/src/redelivery.rs:78-103 | what a sweep answers is what the books add: one to the given up for each envelope given up, one send for each to be resent, nothing for any other id |
| `Redelivery.AckedNeverReappears` | crates/thoth-mesh-node/src/redelivery.rs:67-69 | an acked id is never pending, resent or given up again |
| `Redelivery.AckSettles` | crates/thoth-mesh-node/src/redelivery.rs:67-69 | so an id acked while pending is done with, whatever follows |
| `Redelivery.SilentIdOutcome` | crates/thoth-mesh-node/src/redelivery.rs:78-103 | what becomes of an id that is never acked, as a function of how many sweeps came due |
| `Redelivery.SilentIdIsGivenUp` | crates/thoth-mesh-node/src/redelivery.rs:78-103 | after limit + 1 sweeps a timeout apart it has been resent exactly limit times and given up exactly once |
| `Redelivery.PendingAcks.Record` | crates/thoth-mesh-node/src/redelivery.rs:51-60 | starts the clock of one id |
| `Redelivery.PendingAcks.Ack` | crates/thoth-mesh-node/src/redelivery.rs:67-69 | forgets the id |
| `Redelivery.PendingAcks.Sweep` | crates/thoth-mesh-node/src/redelivery.rs:78-103 | the answers and what stays pending: an envelope is to be resent if and only if its entry was overdue with attempts left, given up if and only if overdue without, each once; resent entries start over with one more attempt, given up ones go, the others stay |
| `RateLimit.WindowBound` | crates/thoth-mesh-node/src/rate_limit.rs:77-105 | in any run, however others interleave, a principal is allowed at most a burst plus what the rate refills in the time, plus a burst for each eviction of its bucket |
| `RateLimit.WindowBoundWithoutEviction` | crates/thoth-mesh-node/src/rate_limit.rs:77-105 | for a principal that keeps its bucket: at most burst + rate * (t - s) in any window |
| `RateLimit.OneSecondBound` | crates/thoth-mesh-node/src/rate_limit.rs:77-105 | in any one second at most a burst and the rate |
| `RateLimit.RefusedIff` | crates/thoth-mesh-node/src/rate_limit.rs:77-105 | exactly when a call is refused, for a principal first seen in the run that keeps its bucket, with a burst of at least one: if and only if since some earlier call of its own, that one included, less than one token is left of a burst and what was refilled in the time |
| `RateLimit.NewcomerHasABurst` | crates/thoth-mesh-node/src/rate_limit.rs:77-105 | so a newcomer that publishes all at once is granted its whole burst |
| `RateLimit.LongestTrackedGoes` | crates/thoth-mesh-node/src/rate_limit.rs:95-104 | over any run on a new limiter: a bucket is taken only when a new principal finds no room, and then that of whoever has been tracked longest without a break; each such time, and no other, is counted |
| `RateLimit.SlowSenderIsNeverRefused` | crates/thoth-mesh-node/src/rate_limit.rs:77-105 | with a burst of at least one, a sender that leaves time for one token between publishes is never refused, evictions included |
| `RateLimit.OthersUntouched` | crates/thoth-mesh-node/src/rate_limit.rs:77-105 | a call changes no other principal's surviving bucket |
| `RateLimit.AllowKeepsValid` | crates/thoth-mesh-node/src/rate_limit.rs:77-105 | buckets stay between empty and full, at most the table's capacity of them, queued once each |
| `RateLimit.RateLimiter.AllowPublish` | crates/thoth-mesh-node/src/rate_limit.rs:77-105 | the in-place limiter does that |
| `Gossip.QuietLinksAgree` | crates/thoth-mesh-node/src/connection.rs:1183-1210 | once nothing is in flight, every peer one end of a registered link knows, other than the far end itself, the far end knows |
| `Gossip.QuietNetworkAgrees` | crates/thoth-mesh-node/src/connection.rs:1230-1258 | so a peer is known along every path of registered links that goes around it |
| `Gossip.GossipTerminates` | crates/thoth-mesh-node/src/connection.rs:1230-1258 | however registrations and deliveries interleave, at most (links + 1) * pairs of nodes + registrations announcements arrive |
| `Gossip.NothingEmptyIsSent` | crates/thoth-mesh-node/src/connection.rs:1183-1258 | nobody is ever sent an empty announcement |
| `Gossip.GossipIsGenuine` | crates/thoth-mesh-node/src/connection.rs:1230-1258 | nobody learns of a peer that no node linked to |
| `Gossip.StepMeasure` | crates/thoth-mesh-node/src/connection.rs:1183-1258 | a delivery takes from the measure of unknown pairs and announcements in flight; a registration adds one at most |
| `Gossip.StepKeepsInv` | crates/thoth-mesh-node/src/connection.rs:1183-1258 | each step keeps: what one end of a link knows, the other knows or is being told |
| `Gossip.NewsAre` | crates/thoth-mesh-node/src/connection.rs:1237-1248 | the news of an announcement are the announced peers but oneself and those already known |
| `Gossip.HeardOfIs` | crates/thoth-mesh-node/src/connection.rs:1237-1248 | each announced peer has the address it was announced with last, the others the ones they had |
| `Gossip.LearnPeers` | crates/thoth-mesh-node/src/connection.rs:1230-1258 | the handler learns each announced peer that is neither itself nor known, once; every announced peer gets the address announced for it last, the others keep theirs; and it dials exactly the learned ones with a higher id, in order |
| `PeerDirectory.RecordedIsValid` | crates/thoth-mesh/src/peer_directory.rs:73-95 | in every reachable state the queue lists the known peers once each, in order of recency, within capacity |
| `PeerDirectory.RecordingEffect` | crates/thoth-mesh/src/peer_directory.rs:73-95 | a recording changes only its own peer, or at capacity also forgets the one recorded longest ago; the result says whether the peer was new |
| `PeerDirectory.KnowsTheLatest` | crates/thoth-mesh/src/peer_directory.rs:73-95 | after any recordings on a new directory: of the peers recorded, all or as many as it holds, each with its newest address, and each recorded since the last recording of any peer it has forgotten |
| `PeerDirectory.NothingForgottenWithin` | crates/thoth-mesh/src/peer_directory.rs:87-92 | while all peers fit, recording only adds |
| `PeerDirectory.PeerDirectory.Record` | crates/thoth-mesh/src/peer_directory.rs:73-95 | the in-place directory does that |
| `PeerDirectory.PeerDirectory.SnapshotExcluding` | crates/thoth-mesh/src/peer_directory.rs:97-106 | everyone known but one, each once |
| `Interest.TransitionsAlternate` | crates/thoth-mesh/src/interest.rs:38-68 | for any calls, those answering true for a filter strictly alternate, subscribe first, and the last says whether there is interest now |
| `Interest.Interest.Subscribe` | crates/thoth-mesh/src/interest.rs:38-43 | counts up, true for the first |
| `Interest.Interest.Unsubscribe` | crates/thoth-mesh/src/interest.rs:53-68 | counts down, true for the last; nothing without interest |
| `Interest.Interest.Snapshot` | crates/thoth-mesh/src/interest.rs:73-75 | every filter of interest, each once |
| `InterestCounts.CountsAreExact` | crates/thoth-mesh-node/src/connection.rs:782-815 | in every run of subscribes, unsubscribes, sweeps and shutdowns: a filter's count is its holders plus the Unsubscribes parked at their ack plus those whose ack failed, and the last are none if every ack is sent |
| `InterestCounts.OnlyLeaksRemain` | crates/thoth-mesh-node/src/connection.rs:803-805 | once every connection has let go, the node is interested in exactly the filters whose ack failed |
| `InterestCounts.FailedAckLeaks` | crates/thoth-mesh-node/src/connection.rs:797-805 | a run with such a leak: subscribe, unsubscribe, and an ack that fails |
| `InterestCounts.HappenKeepsBalanced` | crates/thoth-mesh-node/src/connection.rs:1093-1112 | each step keeps that account |
| `InterestCounts.Handlers.Subscribe` | crates/thoth-mesh-node/src/connection.rs:601-748 | refused and nothing changes, or held and counted once; a filter held already is not counted again |
| `InterestCounts.Handlers.Unsubscribe` | crates/thoth-mesh-node/src/connection.rs:784-795 | the forwarder goes before the ack, the count does not |
| `InterestCounts.Handlers.AfterAck` | crates/thoth-mesh-node/src/connection.rs:797-814 | the ack is no longer awaited, and the count goes only if it was sent |
| `InterestCounts.Handlers.ShutDown` | crates/thoth-mesh-node/src/connection.rs:1093-1112 | stops and counts down everything the connection holds, nothing else |
| `InterestCounts.Handlers.Reconcile` | crates/thoth-mesh-node/src/connection.rs:1622-1669 | of every connection's forwarders exactly those the ACLs in force permit stay |
| `InterestCounts.Handlers.ApplyReload` | crates/thoth-mesh-node/src/lib.rs:221-236 | sets both slots, then sweeps: nothing held is denied by what is in force |
| `InterestCounts.Reloadable.Get` | crates/thoth-mesh-node/src/reload.rs:52-57 | reads the value last set |
| `InterestCounts.Reloadable.Set` | crates/thoth-mesh-node/src/reload.rs:68-75 | replaces the value outright |
| `Announcements.LinksAreToldTheTruth` | crates/thoth-mesh-node/src/peer_links.rs:203-229 | in every run in which no step misinforms a link, for every registered link and literal filter with no first subscribe at its ack: the last announcement sent is Subscribe if and only if the node is interested and the current peer-topic-filter permits that identity |
| `Announcements.SettledThroughoutIff` | crates/thoth-mesh-node/src/connection.rs:748-778 | all links stay rightly informed of a literal filter through a run if and only if no step is one of two: the ack of a first subscribe is sent after all interest has ended, or fails while interest stays, no other such ack is under way, and the link has not been told otherwise |
| `Announcements.StepSettlesIff` | crates/thoth-mesh-node/src/connection.rs:748-778 | the same for one step and one link, as a check before it |
| `Announcements.TimelyAcksMisinformNobody` | crates/thoth-mesh-node/src/connection.rs:748-778 | so it is in every run in which no ack fails and no interest ends while its first subscribe is at its ack |
| `Announcements.FailedAckIsNotAnnounced` | crates/thoth-mesh-node/src/connection.rs:765-767 | a run after which the node is interested and no link was ever told: the ack fails after a second connection has subscribed |
| `Announcements.EndedInterestIsAnnounced` | crates/thoth-mesh-node/src/connection.rs:765-776 | a run after which the node is not interested and the link was last told Subscribe: a sweep ends the interest while the ack is on its way |
| `Announcements.StepKeepsAccurate` | crates/thoth-mesh-node/src/peer_links.rs:311-355 | for any filter, wildcards included, and a link that stays: a step keeps it accurately told if and only if it is none of three: the count of a first subscribe, the announcement of interest that has ended, or the reload that puts the first peer-topic-filter over a wildcard of interest |
| `Announcements.StaleWildcardStays` | crates/thoth-mesh-node/src/peer_links.rs:338-349 | such a wildcard then stays announced, even after all interest is gone, while any filter is configured |
| `Announcements.WildcardGoesStale` | crates/thoth-mesh-node/src/peer_links.rs:311-349 | a run that leads there: announced, the first peer-topic-filter configured, interest ended, and nothing withdrawn |
| `Announcements.NewLinkIsAccurate` | crates/thoth-mesh-node/src/connection.rs:1155-1181 | a link that registers is told accurately of every filter |
| `Announcements.DroppedLinkIsGone` | crates/thoth-mesh-node/src/peer_links.rs:151-165 | a link that registers and is dropped again leaves nothing behind |
| `Announcements.StepTells` | crates/thoth-mesh-node/src/connection.rs:1289-1317 | what each step tells a link of each filter |
| `Announcements.Wire.Restate` | crates/thoth-mesh-node/src/peer_links.rs:324-354 | one link's part of the sweep |
| `Announcements.Wire.Reconcile` | crates/thoth-mesh-node/src/peer_links.rs:311-355 | the whole sweep, in whatever order of links |
| `PeerLinks.EntriesAreGuards` | crates/thoth-mesh-node/src/peer_links.rs:104-165 | in every order of registrations and drops, repeated ones on a channel included: as many entries for each peer and channel as live guards, and no peer left with none |
| `PeerLinks.ListedWhileGuarded` | crates/thoth-mesh-node/src/peer_links.rs:85-89 | a peer is listed exactly while one of its guards lives |
| `PeerLinks.RegisterThenDrop` | crates/thoth-mesh-node/src/peer_links.rs:104-165 | a registration is one entry more, and dropping its guard takes exactly that away |
| `PeerLinks.StaleUnregisterIsIgnored` | crates/thoth-mesh-node/src/peer_links.rs:151-165 | an unregister changes nothing if and only if nothing is registered on that channel |
| `PeerLinks.PeerLinks.Register` | crates/thoth-mesh-node/src/peer_links.rs:104-126 | one more entry, none replaced |
| `PeerLinks.PeerLinks.Unregister` | crates/thoth-mesh-node/src/peer_links.rs:151-165 | the first entry on the channel goes, and the peer with its last |
| `PeerLinks.PeerLinks.InterestSenders` | crates/thoth-mesh-node/src/peer_links.rs:203-229 | for every channel: as many sends as it has entries that may hear of the filter, which without a peer-topic-filter are all, and with one those whose identity is paired there with exactly this literal filter |
| `Announcements.BroadcastGoesToSenders` | crates/thoth-mesh-node/src/peer_links.rs:203-229 | the links an announcement is told to are exactly those the registry answers |
| `AclReload.NoDeniedForwarderSurvives` | crates/thoth-mesh-node/src/connection.rs:601-738 | in every interleaving, lock by lock, of check, insert, second check, removal, unsubscribe and the end of connections with reloads that set, take and count down: when no reload is under way, no connection outside a subscribe holds a forwarder its role's ACL denies |
| `AclReload.RunKeepsInv` | crates/thoth-mesh-node/src/connection.rs:1622-1647 | every forwarder held is permitted, or about to be settled by its own subscribe, or still to be swept |
| `AclReload.SweepTakesOnlyDenied` | crates/thoth-mesh-node/src/connection.rs:1627-1647 | a sweep stops exactly the forwarders denied at that moment |
| `AclReload.SecondCheckIsNeeded` | crates/thoth-mesh-node/src/connection.rs:705-738 | a whole reload fits between check and insert: without the second check a denied forwarder would stay |
| `AclReload.WithoutReloadsNothingDenied` | crates/thoth-mesh-node/src/connection.rs:601-608 | the first check is what counts without reloads: then nobody holds or is about to hold a denied forwarder, at any moment |
| `AclReload.SubscribesOnce` | crates/thoth-mesh-node/src/connection.rs:601-738 | a filter held already is neither taken up nor counted again |
| `AclReload.UnsubscribesAgain` | crates/thoth-mesh-node/src/connection.rs:784-815 | an unsubscribe whose ack is sent leaves neither forwarder nor count |
| `AclReload.SweepWaitsForTheLeaving` | crates/thoth-mesh-node/src/connection.rs:1093-1112 | a connection that is shutting down is swept only when it has counted down all it held |
| `AclReload.SweepPassesOverTheGone` | crates/thoth-mesh-node/src/connection.rs:1622-1669 | a connection that is gone when the sweep comes to it does not hold the reload up |
| `AclReload.RoleChangeBreaksIff` | crates/thoth-mesh-node/src/connection.rs:601-608 | at rest, a connection changing role afterwards keeps the guarantee if and only if the other role's ACL covers every filter it holds |
| `InterestLedger.CountIsAccountedFor` | crates/thoth-mesh-node/src/connection.rs:740-815 | after every interleaving, lock by lock, of subscribes, unsubscribes, ends of connections and reloads: a filter's count, plus the forwarders sweeps took before they were counted, is its counted holders, plus the counts still to be taken down for forwarders already gone, plus the increments made after being swept, the decrements that found no count left, and the unsubscribes whose ack failed |
| `InterestLedger.CountIsRightIff` | crates/thoth-mesh-node/src/connection.rs:740-815 | with no subscribe, unsubscribe or reload under way, the count is the number of holders if and only if the first of those tallies is the sum of the last three |
| `InterestLedger.RightThroughoutIff` | crates/thoth-mesh-node/src/connection.rs:1622-1669 | a right count stays right through a run if and only if no step of it is one of three: a sweep that takes a forwarder between its insert and its increment, whether or not anybody is counted then; the increment of a forwarder so taken; a failed ack of an unsubscribe |
| `InterestLedger.StepSpoilsIff` | crates/thoth-mesh-node/src/connection.rs:1622-1669 | the same for one step, as a check before it |
| `InterestLedger.CountsAreRightUndisturbed` | crates/thoth-mesh-node/src/connection.rs:740-815 | in every run in which no sweep finds a denied forwarder in that gap and no ack fails, every count is that of the counted holders and of the counts still to be taken down at every moment, and of all holders at rest |
| `InterestLedger.InterestCanUndercount` | crates/thoth-mesh-node/src/connection.rs:1622-1669 | a run after which everything is at rest, a connection holds a permitted filter, and the node counts no interest in it |
| `InterestLedger.InterestCanUndercountALatecomer` | crates/thoth-mesh-node/src/connection.rs:1627-1667 | the same without anybody counted when the sweep takes the forwarder: the count it takes down is that of a connection that subscribed between the two locks |
| `AclReload.InterestCanLeak` | crates/thoth-mesh-node/src/connection.rs:740-748 | a run, lock by lock, after which no connection is left and the node still counts itself interested |
| `TopicFilters.MatchTopic` | crates/thoth-mesh-core/src/filter.rs:59-82 | the two-index loop returns true if and only if the topic is an expansion of the filter: `+` one segment, a final `#` any rest |
| `TopicFilters.MatchesIsDenotation` | crates/thoth-mesh-core/src/filter.rs:59-82 | matching is membership in the language of the filter, for every valid filter |
| `TopicFilters.LiteralMatchesItself` | crates/thoth-mesh-core/src/filter.rs:40-45 | a literal filter matches the topic spelled the same way and no other |
| `TopicFilters.AsTopic` | crates/thoth-mesh-core/src/filter.rs:49-54 | a validated filter without wildcards is always a valid topic, so the conversion cannot panic |
| `TopicFilters.TopicIsLiteralFilter` | crates/thoth-mesh-core/src/filter.rs:114-120 | every topic is a valid literal filter and comes back unchanged |
| `TopicFilters.ValidateFilter` | crates/thoth-mesh-core/src/filter.rs:84-111 | accepts exactly the valid filters, and reports the first fault of the others |
| `TopicFilters.ValidateTopic` | crates/thoth-mesh-core/src/topic.rs:34-48 | accepts exactly the valid topics, and reports the first fault of the others |
| `TopicFilters.TopicsAre` | crates/thoth-mesh-core/src/topic.rs:13-25 | those are the strings of one to 256 letters, digits, `.`, `-`, `_` and `/` |
| `TopicFilters.DeadLetterFilter` | crates/thoth-mesh-node/src/dead_letter.rs:71 | `base.#` is a valid filter that catches the dead letters of every topic and nothing outside `base` |
| `TopicFilters.SplitJoin` | crates/thoth-mesh-core/src/filter.rs:60-61 | splitting inverts joining on segments without a separator |
| `TopicFilters.JoinSplit` | crates/thoth-mesh-core/src/filter.rs:60-61 | joining inverts splitting |

## Left out

- Sockets, TLS, framing, CBOR, tokio scheduling and signals appear only as the steps they lead to: a send accepted, refused or closed, a lock-protected section, a stretch between awaits. But for durable sessions, which may end anywhere, a task aborted between two steps is not modelled.
- SQLite is three values: a sequence of rows, a map of retained messages and a map of offsets; I/O errors are "the append failed". Schema migration and `expire_before` (the TTL sweep) are not modelled, nor is an append whose row is committed but whose pruning fails.
- Command line, configuration files, metrics, status and health endpoints, `Membership`, dial backoff, fingerprint and ACL parsing are not modelled; ACLs and peer-topic-filters are sets of pairs, ids are natural numbers.
- The `--allow-peer` disconnect of a reload is not modelled: it runs before the new value is installed, so the argument of AclReload does not carry over to it.
- Broker.Broker.Publish: covers exact topics and patterns; the part of the program's publish that serves consumer groups is GroupMembers.ConsumerGroup.Publish, one group at a time, with the other groups and connections as arbitrary interference on the queues. Its count of receivers is not returned.
- Broker.Broker.Subscribe: channels are values held in a map by identity rather than shared objects; a detached channel stays in that map.
- Routing.SubscriptionIsServed: publish and subscribe are single steps; the interleavings inside them are the subject of DurableSeam and LagRecovery.
- LagRecovery.SentInPublishOrder: for literal filters; wildcard backlogs are sorted by id, which need not be publish order.
- DurableSeam.SeamLosesNothing: follows one subscriber on one topic whose channel is not evicted; concurrent durable subscribes do not affect one another except through the log.
- Resume.NothingIsMissed: begins from a recorded position (any, that of a first session included once it has one); every append succeeds and is kept, no more broadcasts fall between a disk read and its snapshot than the replay buffer holds (DurableSeam.SeamReachesIff says what happens otherwise), and lags are left to DurableLags.
- DurableLags.SomethingIsPassedOverIff: a publish is one step there, with increasing ids, and so is starting a session; ResumeOrder and DurableSeam split them.
- WildcardRestart.WildcardSeesRestartIff: where two different envelopes share an id among what is compared, the merge keeps either, and nothing is claimed.
- Restart.RestartIsInvisible: an accepted publish is one step, append included; runs in which an append fails, and the TTL sweep, are excluded.
- Flood.FloodTerminates: the links and what they carry are fixed and lossless during a run; ACL and rate refusals along the way are not part of this model.
- Gossip.QuietLinksAgree: links may register during the run but do not drop; directories forget nobody (PeerDirectory.NothingForgottenWithin gives the condition); addresses and the order inside an announcement do not matter.
- Announcements.LinksAreToldTheTruth: queues to peer links never refuse; a channel registered twice is one link there and is told once, where the program sends once for each entry (PeerLinks.PeerLinks.InterestSenders); propagation of interest from node to node is not claimed to settle.
- InterestCounts.CountsAreExact: a stretch between two awaits is one step; InterestLedger accounts for the interleavings of the locks inside them.
- AclReload.NoDeniedForwarderSurvives: a connection's role is fixed; the forwarder's own task and consumer-group membership are not part of this model.
- RateLimit.WindowBound: over the reals; rounding in floating point is not modelled.
- Groups.RoundRobinIsFair: members are distinct there; Groups.DeliveriesGoAround has no such condition, and covers a connection that joined a group twice under one filter.
- Backlogs, histories and windows are sequences; sharing of envelopes by reference is not modelled.
