# MQTT broker: model and proofs

This project models the deterministic core of an MQTT 3.1.1 broker and proves properties of it.
`dafny verify dfyconfig.toml` checks everything.

- **Topic index** (`levels.dfy`, `trie.dfy`, `snode.dfy`, `rnode.dfy`, `memtopics.dfy`). The level
  splitter, the tree of subscriptions and the tree of retained messages. The nodes are objects
  that are changed in place; each carries the value of its tree as ghost state, every method is
  proved against a function on that value, and the values are proved to mean a flat table of
  (filter levels, subscriber, QoS) and a map from topic levels to messages. Both searches are
  proved against one matching relation on levels, whatever the order in which the children of a
  node are visited.
- **Broker bookkeeping** (`books.dfy`, `topicmaps.dfy`, `broker.dfy`, `server.dfy`). The SUBSCRIBE,
  UNSUBSCRIBE and PUBLISH handlers of a connection and the unsubscribe loop of its `Close`. The
  handlers are proved against functions on what one connection sees (`View`). `Books` runs those
  functions for any number of connections and sessions, in any interleaving (`WorldRun`): a CONNECT disconnects the client's
  previous connection first, and a DISCONNECT may be followed by other events before its `Close` is
  through. It proves that the private records of the connections and the shared table never get out
  of step, and that no session has two connections over runs of whole handlers. `TopicMaps` proves
  exactly when the topic maps of the sessions are in step too. `Servers.Server` holds the objects
  themselves: a blackboard and any number of connections, with the run so far as a ghost history. Each
  of its methods calls the handler and extends the history by one event, so that every state of the
  heap it reaches is the state of a run; PUBLISH, which is no event, leaves the books alone.
- **Wire codec** (`wire.dfy`, `header.dfy`, `publish.dfy`, `subscribe.dfy`, `suback.dfy`,
  `unsubscribe.dfy`, `connect.dfy`, `mqtt.dfy`). For each message kind a packet object with the
  writing and reading methods of the original, proved against an encoding and a decoding function,
  and for each an exact round trip: the condition under which reading undoes writing, in both
  directions; beside it, what is read off any stream, byte by byte, whoever wrote it.
  `Mqtt.MessageRoundTrip` joins them with the fixed header and `Mqtt.StreamRoundTrip`
  extends them to whole streams.
- **Packet identifiers and sessions** (`msgtable.dfy`, `session.dfy`). The 16-bit id allocator with
  its reference-counted messages in flight, and the bounded offline queue, with properties of whole
  runs.

How things are represented: a Go `string` or `[]byte` is a sequence of numbers below 256;
`uint16` and `uint8` arithmetic is written out (`Short`, `Down`, `% 0x100`), and flag bytes are
8-bit vectors. The broker compares subscribers by pointer; a pointer is a number that `Allocate`
never gives out twice, so two subscriptions with equal fields stay distinct. A channel send or a
call of a write handler appends to a sequence. A map iteration picks any remaining key. Lists of
search results are related to maps by `Lists`: each key exactly once, in any order.

Where the code departs from its own comments or from the standard, the model follows the code:

- An empty level is read as `+`, also in a published topic, and an empty level at the end is dropped
  (`TopicLevels.SplitIsSlashSplit`). So `a//b` takes `a/x/b` and `a/+` does not take `a/`.
- `$` is not special: the case for it is commented out. So `#` takes `$/x`, which section 4.7.2 of the
  standard forbids (`TopicLevels.DollarIsNotSpecial`).
- Together: a filter without empty pieces and a topic that does not end in one are matched as in the
  standard exactly when it is not the case that the pieces match, the filter starts with a wildcard and
  the topic with `$` (`TopicLevels.AgreesIff`). A filter is matched as in the standard on every topic
  that does not end in an empty piece exactly when it has no empty piece and no wildcard at its start,
  and a topic by every filter without empty pieces exactly when it neither ends in an empty piece nor
  starts with `$` (`TopicLevels.FilterAgreesIff`, `TopicLevels.TopicAgreesIff`).
- Clearing a retained message prunes childless nodes together with the messages they keep
  (`MemTopics.ClearingLosesPrefix`); `MemTopics.RetainedIsLast` says when, for every run.
- The search for subscribers takes a topic with a malformed level as long as no node lies where the
  levels before it lead (`MemTopics.Topics.Subscribers`, `MemTopics.BlocksByPath`); nodes that a refused
  SUBSCRIBE left behind count (`MemTopics.RunRosters`).
- `ReadVarint` refuses every four-byte length and `WriteVarint` writes nothing for 0
  (`Wire.VarintRoundTrip`), so a message without a body can only end a stream (`Mqtt.BareRoundTrip`).
- The 16-bit payload offset of PUBLISH wraps around for topics of 65534 bytes and more above QoS 0,
  and a body of just two bytes is refused (`PublishCodec.PublishBodyRoundTrip`).
- The SUBACK decoder lowers its own bound while it loops: it reads n/2 + 1 of n codes
  (`SubackCodec.RoundsForCodes`).
- The UNSUBSCRIBE decoder charges each entry one byte too many (`UnsubscribeCodec.UnsubscribeReadsPrefix`).
- CONNECT writes the length of an empty client identifier without counting it, never writes the
  will-retain bit, and reads it with a mask that covers other bits (`ConnectCodec.SizeCountsBody`,
  `ConnectCodec.WillRetainIsLost`).
- The id allocator gives out 0 when the next id is in use (`MessageTables.StuckUntilReleased`). After
  65535 registrations without a release it is in that state, and the next message takes the place of
  one in flight (`MessageTables.InFlightIsOverwritten`, `MessageTables.HandsOutIdInFlightIff`).
- Removing a message from the table, or cleaning it, leaves its id in use for ever
  (`MessageTables.StrandedForEver`, `MessageTables.NoIdIff`).
- A connection whose client has said DISCONNECT can no longer be disconnected by its session, so that
  the next CONNECT of the client joins it if its `Close` is not through. Two connections of one session
  overwrite each other's entries in its topic map, and the session can lose a topic that one of them is
  still subscribed to (`TopicMaps.RunLosesTopic`). `TopicMaps.RunFitsIff` says exactly over which runs the
  maps stay in step; over runs of whole handlers they do (`TopicMaps.RunTopicsInStep`).
- A connection that closes clears both handlers of its session, whoever set them, and a clean one removes
  the session found under its client's identifier, whichever that is by then, even the one that a CONNECT
  is about to resume (`Servers.Server.Close`, `Servers.Server.Connect`).
- UNSUBSCRIBE is answered with a SUBACK without return codes (`Broker.ConBroker.OnUnSubscribe`).

## Model

| member | source | states |
|---|---|---|
| TopicLevels.NextTopicLevel | topics/memtopics.go:427-477 | The one-pass scan with its state variable delivers the text before the first separator (an empty level as `+`) and the text after it, and fails exactly when a wildcard shares its level with another character or `#` is followed by a separator |
| TopicLevels.StepShrinks | topics/memtopics.go:427-477 | Each step on a non-empty topic leaves strictly less, yields a non-empty level without separators and with wildcards only as whole levels, and after `#` nothing is left |
| TopicLevels.SplitLevels | topics/memtopics.go:427-477 | Every level read from any topic, even a malformed one, is non-empty, separator-free and a whole-level wildcard if any; `#` occurs only last in a topic that was read to its end |
| TopicLevels.SplitIsSlashSplit | topics/memtopics.go:427-477 | Iterating the step is the plain split at `/` with empty pieces read as `+` and a final empty piece dropped; it succeeds if and only if wildcards fill whole pieces and `#` is the last one |
| TopicLevels.SlashSplitAt | topics/memtopics.go:432-440 | The pieces are what lies between the bytes 0x2F |
| TopicLevels.WellFormedIff | topics/memtopics.go:427-477 | A topic is well-formed if and only if between the slashes 0x23 and 0x2B stand alone and 0x23 comes last |
| TopicLevels.SplitOfJoin | topics/memtopics.go:427-477 | Joining the levels of a well-formed topic with `/` and splitting again gives the same levels |
| TopicLevels.MatchMeaning | topics/memtopics.go:249-280 | The recursive matching relation is the pointwise one of section 4.7.1: equal length, or at least the part before a final `#`, with each level equal or `+` |
| TopicLevels.WildcardsAtWork | topics/memtopics.go:249-280 | For any texts a, b and c without the three special bytes, the filter `a/+` takes `a/b` but neither `a` nor `a/b/c`, `a/#` takes all three, and without wildcards the texts must be equal |
| TopicLevels.MatchesPieces | topics/memtopics.go:427-477 | For a well-formed filter without empty pieces and a topic without wildcards that does not end in an empty piece, matching the levels read is matching the pieces between the separators by the rule of section 4.7.1 |
| TopicLevels.StandardMeans | topics/memtopics.go:427-477 | What sections 4.7.1 and 4.7.2 ask for, byte by byte: pieces of equal number, or at least the part before a final `#`, equal one by one or `+`, and no wildcard at the start against a topic that starts with `$` |
| TopicLevels.AgreesIff | topics/memtopics.go:427-477 | Such a pair is matched as sections 4.7.1 and 4.7.2 have it if and only if it is not one whose pieces match while the filter starts with a wildcard and the topic with `$` |
| TopicLevels.FilterAgreesIff | topics/memtopics.go:427-477 | A well-formed, non-empty filter is matched as sections 4.7.1 and 4.7.2 have it on all topics that do not end in an empty piece if and only if it has no empty piece and does not start with a wildcard |
| TopicLevels.TopicAgreesIff | topics/memtopics.go:427-477 | A topic is matched as sections 4.7.1 and 4.7.2 have it by all filters without empty pieces if and only if it neither ends in an empty piece nor starts with `$` |
| TopicLevels.DollarIsNotSpecial | topics/memtopics.go:457-462 | The filter `#` takes the topic `$/x`, which it must not in the standard |
| TopicLevels.EmptyPieceTakesLevel | topics/memtopics.go:437-441 | The filter `a//b` takes the topic `a/x/b`, which it does not in the standard |
| TopicLevels.EmptyLastPieceIsLost | topics/memtopics.go:427-477 | The topic `a/` is not taken by the filter `a/+`, which takes it in the standard |
| Trie.PutEffect | topics/memtopics.go:166-186 | Growing a path adds exactly the nodes on it and changes exactly one value |
| Trie.PrunedAtRoot | topics/memtopics.go:220-243 | A subtree is left childless and dead by pruning if and only if all its nodes lie on the path and are dead |
| Trie.CutEffect | topics/memtopics.go:220-243 | Cutting a path removes exactly the pruned nodes (non-root, on the path, everything at or below them on the path and dead) and changes no other value |
| Trie.CutKeepsValues | topics/memtopics.go:220-243 | When only empty nodes are dead, pruning loses no value anywhere |
| SubscriptionTree.GrantsAppend | topics/memtopics.go:146-164 | Appending to both slices keeps them parallel and duplicate-free and grants one more subscriber its QoS |
| SubscriptionTree.GrantsUpdate | topics/memtopics.go:146-164 | Overwriting one slot of `_qos` changes the QoS of exactly the subscriber in that slot |
| SubscriptionTree.GrantsDelete | topics/memtopics.go:190-218 | Deleting one slot from both slices keeps them parallel and duplicate-free and takes away exactly that subscriber |
| SubscriptionTree.SNode.InsertHere | topics/memtopics.go:146-164 | At the end of the topic the subscriber gets the QoS, added or updated in place, with the slices kept parallel and duplicate-free (`Valid`) |
| SubscriptionTree.SNode.Insert | topics/memtopics.go:146-186 | The in-place insertion sets the subscriber's QoS at the end of the filter's levels; on a malformed filter it fails and only grows blank nodes along the levels before the error |
| SubscriptionTree.SNode.RemoveHere | topics/memtopics.go:190-218 | One subscriber, or all of them when none is named, leave the node; failure changes nothing |
| SubscriptionTree.SNode.Remove | topics/memtopics.go:190-243 | The in-place removal cuts at the filter's levels and prunes nodes without subscribers and children; it fails and changes nothing exactly when the filter is malformed, has no node, or lacks the subscriber |
| SubscriptionTree.SNode.MatchQos | topics/memtopics.go:488-497 | Appends every subscriber of the node, in order, each with the published QoS |
| SubscriptionTree.SNode.Smatch | topics/memtopics.go:249-280 | The search fails exactly when it runs into a malformed level; otherwise it appends each stored (filter, subscriber) whose filter matches the topic's levels exactly once, and nothing else, with the published QoS for each |
| SubscriptionTree.SNode.SmatchKids | topics/memtopics.go:261-278 | The same for the loop over the children, in any order of the children |
| SubscriptionTree.FoundInKid | topics/memtopics.go:261-278 | What a search below `+` or an equal level finds, seen from the node, completes the list of matches below that child |
| MemTopics.InsertTabulates | topics/memtopics.go:146-186 | Insertion into the tree is insert-or-update-QoS in the flat table |
| MemTopics.RemoveTabulates | topics/memtopics.go:190-243 | A successful removal removes one entry, or all entries at the filter when no subscriber is named, and pruning loses no other; a failing one corresponds to no change of the table; with a subscriber named it succeeds if and only if the entry is there |
| MemTopics.StepTabulates | topics/memtopics.go:57-85 | One Subscribe or Unsubscribe keeps tree and flat table equal and `#` nodes leaves |
| MemTopics.RunTabulates | topics/memtopics.go:57-85 | After any run of Subscribe and Unsubscribe the entries read off the tree are exactly those of the flat table, with their QoS, and `#` nodes are leaves |
| MemTopics.FailedInsertLeavesEmptyNodes | topics/memtopics.go:166-186 | A failing Subscribe changes no entry, although it leaves exactly the nodes of the levels before the error behind |
| MemTopics.InsertRosters | topics/memtopics.go:166-186 | The entries together with the set of node paths follow the tree through every insertion, of malformed filters too |
| MemTopics.RemoveRosters | topics/memtopics.go:190-243 | They follow it through every removal, which succeeds if and only if the filter is well-formed, has a node and, with a subscriber named, has its entry; the nodes that go are the non-root ones on the way below which no entry and no node off the way is left |
| MemTopics.RunRosters | topics/memtopics.go:57-85 | After any run of Subscribe and Unsubscribe the tree has exactly those entries and nodes |
| MemTopics.BlocksByPath | topics/memtopics.go:249-280 | A search runs into the malformed level behind the levels read if and only if some node path of their number has, level by level, that level or `+`, and no `#` |
| MemTopics.BlocksKeptByPath | topics/memtopics.go:368-406 | The same for the search for retained messages, whose wildcards are in the filter |
| MemTopics.Topics.Subscribe | topics/memtopics.go:52-78 | Succeeds exactly for a QoS of 0, 1 or 2, a subscriber and a well-formed filter, and then enters just that subscriber with that QoS and returns it; otherwise returns 0x80 with the table unchanged; steps the set of node paths and keeps the retained messages |
| MemTopics.Topics.Unsubscribe | topics/memtopics.go:80-85 | Removes from the flat table and prunes the set of node paths; with a subscriber it succeeds exactly when that subscriber has the filter, without one exactly when the filter has a node |
| MemTopics.Topics.Subscribers | topics/memtopics.go:88-100 | Replaces the result lists by each matching entry of the flat table exactly once and a QoS list of equal length holding only the published QoS; fails exactly on a QoS other than 0, 1 and 2 or a malformed level that some node path leads to |
| RetainedTree.RNode.InsertOrUpdate | topics/memtopics.go:296-324 | Sets the message at exactly the topic's levels; fails exactly on a malformed topic, keeping every message |
| RetainedTree.RNode.Remove | topics/memtopics.go:327-363 | Clears at the topic's levels and prunes childless nodes whatever they keep; fails and changes nothing exactly when the topic is malformed or has no node |
| RetainedTree.RNode.Rmatch | topics/memtopics.go:368-406 | Appends the message of each topic that the filter matches exactly once, in any order of the children; fails exactly when it runs into a malformed level |
| RetainedTree.RNode.AllRetained | topics/memtopics.go:408-416 | Appends every message at or below the node exactly once, which is what the filter `#` matches there |
| MemTopics.StoreEffect | topics/memtopics.go:296-324 | Retaining changes exactly one key of the map from levels to messages, and none for a malformed topic; the nodes of the levels read are there afterwards |
| MemTopics.StoreShelves | topics/memtopics.go:296-324 | The flat value, a map of messages and a set of node paths, follows the tree through every store, of malformed topics too |
| MemTopics.ClearShelves | topics/memtopics.go:327-363 | It follows the tree through every clear, which succeeds if and only if the topic is well-formed and has a node |
| MemTopics.ClearEffect | topics/memtopics.go:327-363 | Clearing t loses exactly the messages at t and at the non-root paths on the way to t that have no node off the way below them |
| MemTopics.ClearKeepsOthers | topics/memtopics.go:327-363 | Clearing t keeps every message whose levels are not a prefix of those of t |
| MemTopics.ClearingLosesPrefix | topics/memtopics.go:327-363 | A concrete loss: retain `a` and `a/b`, clear `a/b`, and the message at `a` is gone |
| MemTopics.RetainedIsLast | topics/memtopics.go:102-114 | Over any run of Retain a topic keeps the last message sent to it if and only if there is none or no later clear of a topic strictly below took it along; otherwise it keeps nothing |
| MemTopics.RunShelves | topics/memtopics.go:102-114 | After any run of Retain the tree holds exactly the messages and nodes of the flat value |
| MemTopics.WellFormedStep | topics/memtopics.go:102-114 | As long as no message is stored under a malformed topic, a Retain is a step of the map of messages alone: a clear loses a message strictly above it if and only if no message off the way is retained at or below that one |
| MemTopics.WellFormedRun | topics/memtopics.go:102-114 | So for every run of such Retains that map is exactly what the tree keeps |
| MemTopics.Topics.Retain | topics/memtopics.go:102-114 | Stores the message, or clears the topic when the payload is empty, as a step of the flat value with the exact condition of success, leaving subscriptions and their tree alone |
| MemTopics.Topics.Retained | topics/memtopics.go:116-121 | Appends each retained message that the filter matches exactly once; fails exactly on a malformed level that some node path of the retained tree leads to |
| MemTopics.ForwardAndReverseAgree | topics/memtopics.go:249-416 | With t's message retained and f's subscriber subscribed, what Subscribers lists for t has the subscriber if and only if what Retained lists for f has the message |
| Books.RunHasOwnFilters | server/conBroker.go:339-347 | After any run no subscriber has two filters, as the agreement of the two searches asks |
| Books.ReturnCodes | server/conBroker.go:326-372 | One return code per requested filter in request order: the requested QoS when it is 0, 1 or 2 and the filter well-formed, and 0x80 otherwise |
| Books.SubscribeEnters | server/conBroker.go:333-357 | After a SUBSCRIBE a filter that it names is on the connection's record and in the table with the QoS last asked for when that is 0, 1 or 2 and the filter well-formed; otherwise the connection has it neither on record nor in the table; all other filters stay on record as they were |
| Books.CancelTakesOut | server/conBroker.go:377-387 | After an UNSUBSCRIBE the filters that it names are neither on the connection's record nor, on its behalf, in the table, and the others stay on record |
| Books.CancelUnconnected | server/conBroker.go:377-387 | Without a session the recorded entries named leave the table and the records stay |
| Books.SubscribeInStep | server/conBroker.go:333-357 | A SUBSCRIBE on any connection keeps records and table in step |
| Books.CancelInStep | server/conBroker.go:377-387 | So does an UNSUBSCRIBE on a connected client |
| Books.CloseInStep | server/conBroker.go:536-542 | So does the unsubscribe loop of `Close` |
| Books.RunInStep | server/conBroker.go:326-394 | Over every run on any number of connections and sessions each recorded subscription is in the table at its filter with its QoS, and each table entry is recorded by the connection that created it |
| Books.RunTidy | server/conBroker.go:215-258 | Over every run a session is found under its own client only, and the handlers of a session belong to connections attached to it |
| Books.OnePerSession | server/conBroker.go:215-250 | Over every run of whole handlers each live connection is the one its session would disconnect, so that no session has two |
| TopicMaps.SubscribeFitsIff | server/conBroker.go:333-357 | Topic maps in step stay so through a SUBSCRIBE if and only if every other connection of the session that has one of its accepted filters on record has it with the QoS accepted last |
| TopicMaps.SubscribeOneFits | server/conBroker.go:333-357 | For one filter: if and only if, when it is accepted, those that have it on record have it at the requested QoS |
| TopicMaps.CancelFitsIff | server/conBroker.go:377-387 | They stay so through an UNSUBSCRIBE if and only if no other connection of the session has on record a filter that it drops |
| TopicMaps.StepFitsIff | server/conBroker.go:215-394 | They stay so through any event if and only if it meets that condition; CONNECT, DISCONNECT and `Close` always do |
| TopicMaps.RunFitsIff | server/conBroker.go:215-394 | Over a run the maps are in step throughout if and only if every event of it meets its condition |
| TopicMaps.RunTopicsInStep | server/conBroker.go:215-394 | Over every run of whole handlers each recorded subscription is in its session's topic map with its QoS, since a CONNECT disconnects the session's previous connection |
| TopicMaps.SharedSessionLosesTopic | server/conBroker.go:377-387 | When two connections of one session have a filter on record and one drops it, the other's subscription is still on record and in the table but not in the session's topic map |
| TopicMaps.RunLosesTopic | server/conBroker.go:261-267 | A concrete run that ends like that: the client says DISCONNECT and connects again before the `Close` is through |
| Books.EntriesAreOwned | server/conBroker.go:536-542 | The entries that the loop of `Close` asks to remove are exactly the table entries its connection created |
| Books.CloseTakesItsOwn | server/conBroker.go:536-542 | After any run, `Close` leaves no entry of its connection in the table and every other entry as it was |
| Books.FanOutFollowsBooks | server/conBroker.go:400-435 | After any run, the number of deliveries a topic owes to a client is the number of the client's recorded subscriptions whose filter matches it |
| Servers.Server.Connect | server/conBroker.go:215-258 | An accepted CONNECT closes the connection that the client's session would disconnect, and attaches a new one to that session, or to a new session, found under the client from then on, when it is clean or there is none; the session has the client's identifier and both handlers of the new connection; the queue of a resumed session is sent in order and emptied; the heap is then the state of the run with this event |
| Servers.Server.Disconnect | server/conBroker.go:261-267 | A DISCONNECT takes the session's disconnect handler away, as the event of the run says, and nothing else yet |
| Servers.Server.Subscribe | server/conBroker.go:326-372 | On the heap, a SUBSCRIBE on one of any number of connections takes the books from one state of a run to the next, leaves all other connections and sessions alone, and queues the SUBACK and the retained messages |
| Servers.Server.Unsubscribe | server/conBroker.go:374-394 | So does an UNSUBSCRIBE |
| Servers.Server.Close | server/conBroker.go:504-549 | So does the closing of a connection, which forgets a clean session under its client's identifier, removes the connection's entries and takes both handlers of the session away |
| Servers.Server.Publish | server/conBroker.go:400-435 | A PUBLISH writes to the session of each client exactly as many times as the connections of that client have recorded subscriptions whose filter matches, and not at all when it is refused; a live connection sends exactly that many copies if it is the one that set the write handler of the session found under its client, and none otherwise |
| Servers.GivenIsMatching | server/conBroker.go:400-435 | With a QoS of 0, 1 or 2 and a well-formed topic that number is the number of the client's recorded subscriptions whose filter matches |
| Servers.SendsMatching | server/conBroker.go:400-435 | A connection sends as many copies as that session is given if it set the write handler of the session found under its client, and none otherwise |
| Broker.ConBroker.SubscribeOne | server/conBroker.go:333-357 | One filter: an old subscription to the same filter is dropped, a new pointer is entered and recorded if accepted, one code is added, and each matching retained message is collected once |
| Broker.ConBroker.OnSubscribe | server/conBroker.go:326-372 | Queues one SUBACK, without flag bits, with the request's packet id and the return codes (the requested QoS of 0, 1 or 2, or 0x80), then every retained message, batch after batch in request order |
| Broker.BatchIff | server/conBroker.go:356 | The batch of an accepted filter has exactly the retained messages that it matches, as many as there are, and that of a refused one is empty |
| Broker.FlattenIsInOrder | server/conBroker.go:356-371 | The batches follow each other without loss |
| Broker.ConBroker.OnUnSubscribe | server/conBroker.go:374-394 | Drops the recorded subscriptions named, with their two records when the client has a session, and queues one SUBACK without flag bits and codes |
| Broker.ConBroker.CloseSubscriptions | server/conBroker.go:536-542 | In any order of the map, the loop removes exactly the entries of the recorded subscriptions |
| Broker.ConBroker.FindSubscribers | server/conBroker.go:407-415 | For every client the result names as many subscribers as that client has matching table entries; it fails exactly when the QoS as a byte is above 2 or a malformed level is reached |
| Broker.RefusedIff | server/conBroker.go:407-415 | A PUBLISH is refused if and only if its QoS as a byte is above 2, or its topic is malformed and some node path has, level by level, the level read or `+`, and no `#` |
| Broker.OwedIsDeliveries | server/conBroker.go:400-435 | With a QoS of 0, 1 or 2 and a well-formed topic a PUBLISH, whatever its payload, owes each client one delivery for each matching table entry |
| Broker.ConBroker.Distribute | server/conBroker.go:421-434 | Each session is written to as many times as its client occurs in the list, on the channel of the connection that set its write handler if there is one, and no other session changes |
| Broker.ConBroker.ProcPublish | server/conBroker.go:400-435 | Every session is written to exactly as many times as its client has matching table entries, none when the search is refused for the node paths there are, and the channel of its write handler is sent as many copies; the message is retained or cleared first if asked to |
| Broker.CountIsDeliveries | server/conBroker.go:421-434 | A list that names each matching entry once, in any order, names each client as often as it has matching entries |
| Broker.WrittenTimesMeans | sessions/session.go:117-129 | n writes reach the handler n times when there is one, and otherwise queue as many copies as the limit leaves room for |
| MessageTables.MessageTable.constructor | common/msgtable.go:31-37 | A new table starts at id 1 with nothing in flight |
| MessageTables.MessageTable.NewID | common/msgtable.go:45-64 | Returns the wrapped counter if it is free, marking it used and moving on; otherwise 0 with the used ids and the counter position kept; the counter stays within 16 bits |
| MessageTables.MessageTable.Clean | common/msgtable.go:67-71 | Forgets the messages in flight but not the used ids |
| MessageTables.MessageTable.Register | common/msgtable.go:87-98 | Enters a message under an id with a count of one |
| MessageTables.MessageTable.Register2 | common/msgtable.go:101-112 | Enters a message under an id with the given count |
| MessageTables.MessageTable.Unref | common/msgtable.go:115-130 | Lowers the count; below one it calls back once, frees the id and forgets the message; an unknown id changes nothing |
| MessageTables.MessageTable.Remove | common/msgtable.go:133-140 | Forgets one message and keeps its id marked as used |
| MessageTables.RunInFlightIsUsed | common/msgtable.go:45-140 | Over every run the ids in flight stay within the used ids and 0 |
| MessageTables.UsedIff | common/msgtable.go:45-140 | Over every run an id other than 0 is in use if and only if its message is in flight or was removed or cleaned away while it was |
| MessageTables.ReleaseFrees | common/msgtable.go:115-130 | Over every run of registrations and Unrefs the ids in use other than 0 are exactly those in flight |
| MessageTables.StrandedForEver | common/msgtable.go:133-140 | An id whose message was removed or cleaned away stays in use and is never given out again, whatever happens |
| MessageTables.NoIdIff | common/msgtable.go:45-64 | After any run a registration gets 0 if and only if the counter stands at 0 or at an id in flight, removed or cleaned away |
| MessageTables.PairsNeverStuck | common/msgtable.go:45-130 | Any number of messages, each released before the next one, go round the ids 1 to 65534 and 0, leave nothing in use or in flight, and are called back for once each, in order |
| MessageTables.NothingInFlightIsOverwritten | sessions/session.go:164-169 | After any run a non-zero id handed out was neither used nor in flight, becomes both, and every other message in flight stays as it was |
| MessageTables.CounterCounts | common/msgtable.go:45-64 | Up to 65534 registrations the counter is one more than their number and only smaller ids are used |
| MessageTables.IdSequence | common/msgtable.go:45-64 | From a new table the k-th registration gets k up to 65534 and the next one gets 0, whatever is released, removed or cleaned in between |
| MessageTables.StuckUntilReleased | common/msgtable.go:54-61 | Once the id at the counter is in use, every allocation gives 0 and no id becomes used until that very id is released |
| MessageTables.IdZeroIsShared | common/msgtable.go:54-61 | Two registrations in that state both get id 0 and the second replaces the first |
| MessageTables.HandsOutIdInFlightIff | common/msgtable.go:54-61 | After any run the id handed out belongs to a message in flight if and only if the id at the counter is in use or is 0, and a message sits at 0 |
| MessageTables.IdsUsedUp | common/msgtable.go:45-64 | After n registrations and nothing else, n at most 65534, the counter is n + 1 and the used ids are exactly 1 to n |
| MessageTables.RunGetsStuck | common/msgtable.go:45-64 | After any 65535 registrations and nothing else the counter has wrapped round to 1, which is in use, and the last message sits at 0 |
| MessageTables.InFlightIsOverwritten | common/msgtable.go:54-61 | The registration after that replaces the message in flight at 0, without a callback |
| MessageTables.FiresOnceOnLastUnref | common/msgtable.go:101-130 | After registering with count n, and until the id is registered again or removed, the callback fires exactly once, on the max(1, n)-th Unref of the id, with the registered message and value, whatever happens to other ids |
| MessageTables.HeldUntilLastUnref | common/msgtable.go:115-130 | The id of that message is in use until that Unref and free right after it |
| Sessions.Session.AddTopics | sessions/session.go:66-70 | Sets one entry of the topic map |
| Sessions.Session.RemoveTopics | sessions/session.go:73-79 | Removes one entry of the topic map, if it is there |
| Sessions.Session.WithOnWrite | sessions/session.go:110-114 | Sets or clears the write handler and touches no message |
| Sessions.Session.WithOnDisconnect | sessions/session.go:59-63 | Sets or clears the disconnect handler |
| Sessions.Session.WriteMessage | sessions/session.go:117-129 | Is sent on the channel of the connection that set the write handler if there is one, otherwise goes to the end of the queue if there is room, otherwise fails with nothing changed |
| Sessions.Session.PushOfflineMessage | sessions/session.go:132-140 | Goes to the end of the queue if there is room, handler or not, otherwise fails with nothing changed |
| Sessions.Session.OfflineMessages | sessions/session.go:143-156 | Hands out the whole queue in order and empties it |
| Sessions.Session.RegisterMessage | sessions/session.go:164-169 | Stamps the allocated id on the message and enters it with a count of one |
| Sessions.Session.UnRefMessage | sessions/session.go:172-174 | Releases the id once |
| Sessions.OfflineConservation | sessions/session.go:117-156 | Over any run, what was queued and accepted offline equals, in order, what was drained and what is still queued |
| Sessions.HandlerInOrder | sessions/session.go:110-129 | Over any run the handler is given exactly the messages written while it was set, in order |
| Sessions.QueueBounded | sessions/session.go:117-140 | Over any run the queue stays within its limit |
| Wire.WriteVarint | encoding/helper.go:35-51 | Writes the base-128 digits, at most four, and returns their number |
| Wire.ReadVarint | encoding/helper.go:13-32 | Reads as the digit-by-digit function does, including the overflow test before the last digit and the end of the stream |
| Wire.BigEndian | encoding/message/publish.go:60-91 | Two bytes on the wire are the number 256 times the first plus the second, written and read |
| Wire.VarintReads | encoding/helper.go:13-32 | What is read off any stream, whoever wrote it: up to three base-128 digits, of which only the last is below 0x80; four bytes, or an end before the last digit, are an overflow |
| Wire.VarintDigits | encoding/helper.go:35-51 | Below 2^28 the digits written denote the number and are as few as base 128 allows |
| Wire.VarintRoundTrip | encoding/helper.go:13-51 | A length comes back with the rest of the stream untouched if and only if it is 1 to 2097151 (or 0 at the end of the stream); everything larger is reported as an overflow |
| FixedHeaders.WriteHeader | encoding/message/fixedheader.go:65-95 | Writes the type and the four flag bits in one byte, then the length |
| FixedHeaders.ReadHeader | encoding/message/fixedheader.go:97-126 | Reads type, flags and length; fails on an empty stream or an overflowing length |
| FixedHeaders.HeaderReads | encoding/message/fixedheader.go:97-126 | For any first byte: the type is its upper half, bit 3 is dupe, bit 2 is QoS 2 and otherwise bit 1 QoS 1, and bit 0 is retain |
| FixedHeaders.FirstByteIs | encoding/message/fixedheader.go:65-95 | The first byte written is 16 times the type, plus 8 for dupe, 4 for QoS 2 or 2 for QoS 1, and 1 for retain |
| FixedHeaders.BitsRoundTrip | encoding/message/fixedheader.go:65-126 | Type, dupe, retain and QoS bits do not disturb each other in the first byte |
| FixedHeaders.HeaderRoundTrip | encoding/message/fixedheader.go:65-126 | A written header is read back up to what the wire carries for a length of 1 to 2097151, and is refused above that |
| PublishCodec.PublishPacket.WriteTo | encoding/message/publish.go:60-91 | Writes header, topic, packet id above QoS 0, and payload |
| PublishCodec.PublishPacket.Decode | encoding/message/publish.go:20-57 | Reads them back through the buffer that several reads fill, with each error case |
| PublishCodec.PublishReads | encoding/message/publish.go:20-57 | For any stream with a length prefix: which bytes become topic, packet id and payload, and exactly when the decoder fails or indexes outside the buffer |
| PublishCodec.PublishBodyRoundTrip | encoding/message/publish.go:20-91 | The right message is read if and only if the topic is below 65536 bytes (65534 above QoS 0), the QoS is at most 2 and the size is at least 3; then the rest of the stream is left |
| SubscribeCodec.SubscribePacket.WriteTo | encoding/message/subscribe.go:24-45 | Writes header, packet id and each filter with its QoS, with the total over all of them |
| SubscribeCodec.SubscribePacket.Decode | encoding/message/subscribe.go:47-71 | Reads filters until the announced length is used up |
| SubscribeCodec.FilterReads | encoding/message/subscribe.go:54-69 | For any stream that is long enough: which bytes become the filter and its QoS |
| SubscribeCodec.SubscribeBodyRoundTrip | encoding/message/subscribe.go:24-71 | The right message is read if and only if every filter is below 65536 bytes; then the rest of the stream is left |
| SubackCodec.SubackPacket.WriteTo | encoding/message/suback.go:18-30 | Writes header, packet id and return codes |
| SubackCodec.SubackPacket.Decode | encoding/message/suback.go:32-48 | Reads one code per round of the loop that raises its counter and lowers its 8-bit bound |
| SubackCodec.RoundsForCodes | encoding/message/suback.go:39-43 | Counter and bound meet half-way: n/2 + 1 rounds for n codes announced, and 129 for none |
| SubackCodec.SubackReads | encoding/message/suback.go:32-48 | For any stream that is long enough, with up to 255 codes announced: which bytes become the packet id and the codes |
| SubackCodec.SubackBodyRoundTrip | encoding/message/suback.go:18-48 | The right message is read if and only if it has one or two return codes; then the rest of the stream is left |
| UnsubscribeCodec.UnsubscribePacket.WriteTo | encoding/message/unsubscribe.go:41-60 | Writes header, packet id and each topic, with the total over all of them |
| UnsubscribeCodec.UnsubscribePacket.Decode | encoding/message/unsubscribe.go:18-38 | Reads topics until the announced length, charged three bytes and the text for each, is used up |
| UnsubscribeCodec.TopicReads | encoding/message/unsubscribe.go:25-36 | For any stream that is long enough: which bytes become a topic |
| UnsubscribeCodec.StopIsFirst | encoding/message/unsubscribe.go:18-38 | The decoder stops at the first k at which the topics left, with their prefixes, have no more than k bytes |
| UnsubscribeCodec.ReadsAllIff | encoding/message/unsubscribe.go:18-38 | It reads all n topics if and only if n is at most the length of the last one plus two |
| UnsubscribeCodec.UnsubscribeReadsPrefix | encoding/message/unsubscribe.go:18-60 | Exactly the topics up to that k come back, and exactly the bytes of the others stay in the stream |
| UnsubscribeCodec.UnsubscribeBodyRoundTrip | encoding/message/unsubscribe.go:18-60 | The right message is read if and only if every topic is below 65536 bytes and there are no more topics than the length of the last one plus two; then the rest of the stream is left |
| ConnectCodec.ConnectPacket.WriteTo | encoding/message/connect.go:26-100 | ORs the flag bits into the object's flag byte, then writes the header with the declared size and every announced part |
| ConnectCodec.ConnectPacket.Decode | encoding/message/connect.go:102-197 | Fills the fields from the buffer at the advancing offset, in each branch as the flag byte says; slices may reach into the buffer's spare capacity, whatever its size, which holds zeros; errors and slices beyond the capacity are told apart |
| ConnectCodec.ConnectReads | encoding/message/connect.go:102-197 | Any CONNECT, laid out for any flag byte and announced with its length, is read field by field whatever the spare capacity, those that this writer never sends included: an empty identifier, QoS 2 as bit 4 alone, a will-retain bit |
| ConnectCodec.WillBitsRead | encoding/message/connect.go:162-172 | For any flag byte the will's QoS is 2 by bit 4, otherwise 1 by bit 3, and its retain flag is set by bit 5, 4 or 1 |
| ConnectCodec.DecodedBits | encoding/message/connect.go:147-194 | Whatever is decoded, from any stream, has will, clean session, will QoS and will retain exactly as these bits of its flag byte say, and a user name or a password only by bits 7 and 6 |
| ConnectCodec.RejectedIff | encoding/message/connect.go:116-129 | A CONNECT is refused with an error if and only if its announced length, or what there is of it, ends before the protocol name does |
| ConnectCodec.FieldAtReads | encoding/message/connect.go:150-189 | Where the length of a text is taken from, and exactly when its slice lies outside the buffer |
| ConnectCodec.WriteWill | encoding/message/will.go:18-33 | Writes topic and message of the will, each behind its length |
| ConnectCodec.FlagsSettle | encoding/message/connect.go:30-47 | Writing the same object again writes the same bytes, although its flag byte was changed |
| ConnectCodec.FlagsAnnounce | encoding/message/connect.go:30-47 | Every part that is there is announced by its flag bit |
| ConnectCodec.FreshFlagsAre | encoding/message/connect.go:30-47 | From a flag byte that starts at 0 the bits written are 2 for a clean session, 4, 12 or 28 for a will of QoS 0, 1 or 2, 64 for a password and 128 for a user name |
| ConnectCodec.SizeCountsBody | encoding/message/connect.go:49-98 | The declared size is the number of body bytes written, two too few when the identifier is empty |
| ConnectCodec.DecodedIsConsistent | encoding/message/connect.go:102-197 | Whatever the decoder accepts has fields below 65536 bytes and a will, will QoS and clean-session field that agree with its flag byte |
| ConnectCodec.FreshFlagsAgree | encoding/message/connect.go:30-47 | From a flag byte that starts at 0, flags and fields agree if and only if the will's QoS is at most 2 |
| ConnectCodec.ConnectBodyRoundTrip | encoding/message/connect.go:26-197 | Whatever the spare capacity, every field is read back and the rest of the stream is left, if and only if the identifier is not empty, all fields are below 65536 bytes and the flag byte agrees with the fields |
| ConnectCodec.EmptyIdentifierLeaves | encoding/message/connect.go:26-197 | With an empty identifier the decoder stops two bytes early; when it reads the right message all the same, what is left in the stream begins with a byte of at most 1 |
| ConnectCodec.WillRetainIsLost | encoding/message/connect.go:102-197 | The will-retain field comes back set if and only if the session is clean or the will has QoS 2, whatever it was |
| Mqtt.WriteMessageTo | encoding/message/mqtt.go:287-339 | Writes the encoding of the message's own kind |
| Mqtt.Parse | encoding/message/mqtt.go:180-284 | Reads one message by its type; refuses a bad header, an unknown type and a length over the caller's limit |
| Mqtt.EncodeBegins | encoding/constants.go:6-38 | The first byte written is 16 times the number of the message's type, 1 for CONNECT to 14 for DISCONNECT, plus the flag bits |
| Mqtt.ParseDispatches | encoding/message/mqtt.go:180-284 | For any stream whose length can be read: the upper half of the first byte decides; 0 and 15 and a length over the limit are refused, 1 and 3 are left to their decoders, and every other number gives a message of that type |
| Mqtt.ParseWithoutLength | encoding/message/fixedheader.go:97-126 | An empty stream and one whose length overflows are refused |
| Mqtt.AckOnWire | encoding/message/mqtt.go:287-339 | PUBACK, PUBREC, PUBREL, PUBCOMP and UNSUBACK byte for byte: the first byte, 2, and the packet id, higher byte first |
| Mqtt.AckRead | encoding/message/mqtt.go:180-284 | The packet id that is read off any such stream |
| Mqtt.ConnackOnWire | encoding/message/mqtt.go:287-339 | CONNACK byte for byte |
| Mqtt.ConnackRead | encoding/message/mqtt.go:180-284 | The two bytes that are read off any such stream |
| Mqtt.BareRoundTrip | encoding/message/fixedheader.go:65-126 | PINGREQ, PINGRESP and DISCONNECT are read back if and only if nothing follows them, since they have no length byte |
| Mqtt.MessageRoundTrip | encoding/message/mqtt.go:180-339 | Any message of any kind is read back up to what the wire carries, with exactly the rest of the stream left, if and only if its body fits, its size is at most 2097151 and within the limit, and nothing follows it if it has no body; a message that does not fit and still comes out right leaves a stream that begins with at most 1, or has no body and is followed by what reads as a length of 0 |
| Mqtt.StreamRoundTrip | encoding/message/mqtt.go:180-339 | The concatenated encodings of any list of messages are read back as the same list, with every byte consumed, if and only if each message fits in front of those that follow it |
| Mqtt.NoZeroLength | encoding/helper.go:13-32 | No message that follows one without a body can be taken for its length 0 |

## Left out

- Sockets, buffered I/O, timers, keep-alive, deadlines, logging and configuration are not modelled.
- Goroutines, channel blocking and locks: every method is one atomic step; `server/handler.go` is not part of this model.
- The queue drain and the will message in `Close` are not modelled, and the model lets every `Close` finish. In the original the drain waits for a queue that is closed only afterwards, and a `Close` called by `DoDisconnect` asks for the session's lock, which is held by then.
- Servers.Server.Connect: models an accepted CONNECT; authentication, the CONNACK, the will and session restore (unreachable in the code) are left out, and `GetOrNew` is one step.
- Books.RunInStep: interleaves handlers, and a DISCONNECT with the rest of its `Close`; a handler that another one interrupts elsewhere is not covered, nor an UNSUBSCRIBE or SUBSCRIBE before the CONNECT (the latter uses a session that is not there).
- Exactly-once delivery for QoS 2 and the answers to PUBLISH: the code forwards each PUBLISH it is sent, so there is no such guarantee to prove.
- Downgrade of the QoS for each subscriber: the comparison is switched off in the code, so every subscriber gets the published QoS.
- Aliasing of messages: a message is a value here, while in the original one `*Publish` is shared by queues, sessions and the retained tree and can get its packet id overwritten later.
- The type cases of `equal` other than pointer identity: the broker only ever passes subscription pointers.
- Sessions.Session.WriteMessage: models the one write handler that the broker installs, `ConBroker.WriteMessage`, which sends on its connection's queue and never returns an error; no other handler is modelled.
- ConnectCodec.ConnectPacket.Decode: lets the spare capacity of the buffer be of any size, because the growth of a `bytes.Buffer` is up to the Go library.
- The byte counts returned by the `WriteTo` methods are not modelled, because they are not the numbers of bytes written.
- Time stamps of messages in flight, JSON `String` methods, `Spawn` constructors and `memTopics.Close` are not modelled.
