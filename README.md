# Redisse, modelled in Dafny

Redisse is a Server-Sent Events server backed by Redis. An application publishes
events with `RedisPublisher#publish`. Each event gets the next value of the global
counter `redisse:lastEventId` as its id. It is encoded as a `text/event-stream` block,
PUBLISHed on its channel and kept in a sorted set named after the channel. That set is
the channel's history and holds at most the 100 newest events. The Goliath server
(`Redisse::Server`) works per request:

- it answers a stats request with a JSON body;
- it refuses requests that do not accept `text/event-stream` (406) and requests without
  channels (404);
- it subscribes the connection to its channels on the shared pub/sub connection, or
  answers 503 when Redis is down;
- it replays the history after the client's `Last-Event-ID`, preceded by a `missedevents`
  event when the cursor event is no longer in the history;
- while the stream is open it sends heartbeats and forwards published events;
- on close it unsubscribes and updates the stats.

The Rack `RedirectEndpoint` forwards a request to the server through nginx's
`X-Accel-Redirect`. It puts the channels and the `polling`/`lastEventId` parameters in
the query string, which the standalone server parses back.

The model has one module per source file:

| file | module | form |
|---|---|---|
| `server_sent_events.dfy` | `ServerSentEvents` | pure encoder and its line structure |
| `event_scanner.dfy` | `EventScanner` | the test suite's stream decoder: pure `Feed`, class `Scanner` |
| `redis_store.dfy` | `RedisStore` | the Redis commands the core issues, on an abstract store; class `Redis` |
| `publisher.dfy` | `Publisher` | `RedisPublisher` and `TestPublisher` classes, history invariant |
| `stats.dfy` | `ServerStats` | stats counters (class) and JSON body |
| `server_redis.dfy` | `ServerRedis` | the shared pub/sub connection (class `Monitor`) and its callback registry |
| `server_requests.dfy` | `ServerRequests` | request predicates, cursor, admission order, standalone channel parsing |
| `server_replay.dfy` | `ServerReplay` | history gathering, ordering, missed-events detection |
| `server.dfy` | `Server` | per-connection state (class `Connection`) and the server (class `Server`) |
| `redirect_endpoint.dfy` | `RedirectEndpoint` | redirect URL, class `Endpoint` |
| `text.dfy`, `wrappers.dfy`, `responses.dfy` | `Text`, `Wrappers`, `Responses` | Ruby string operations, `Option`/`Result`, the plain responses |

## Model

| member | source | states |
|---|---|---|
| ServerSentEvents.ServerSentEvent | lib/redisse/server_sent_events.rb:6-13 | every encoded block ends with the empty line `"\n\n"` |
| ServerSentEvents.EventLines | lib/redisse/server_sent_events.rb:7-12 | split into lines, a block is the given `retry`, `id`, `event` lines in that order, then one `data: ` line per line of the payload (newline count + 1 of them, joining back to the payload), then the empty terminator line |
| ServerSentEvents.TerminatorIsOnlyBlankLine | lib/redisse/server_sent_events.rb:7-12 | when no option value holds a newline, no `"\n\n"` occurs before the end of the block, so a reader cuts the stream exactly at block boundaries |
| ServerSentEvents.ExpandedNewlinesFollowed | lib/redisse/server_sent_events.rb:11 | every newline the `gsub` leaves in the payload is followed by `data: ` |
| ServerSentEvents.ExpandNewlinesConcat | lib/redisse/server_sent_events.rb:11 | the newline expansion distributes over concatenation |
| ServerSentEvents.ExpandThreeLines | lib/redisse/server_sent_events.rb:11 | three newline-free lines joined by newlines become one line plus two `data: ` continuation lines |
| ServerSentEvents.BasicEvent | spec/server_sent_events_spec.rb:8-10 | `"foobar"` without options encodes as `data: foobar` and the empty line |
| ServerSentEvents.NilData | spec/server_sent_events_spec.rb:13-16 | `nil` data encodes as an empty `data: ` line |
| ServerSentEvents.MultiLineEvent | spec/server_sent_events_spec.rb:48-51 | a payload of three newline-free lines, like `"hello\nworld\n!"`, encodes as three `data: ` lines and the blank line |
| EventScanner.FindTerminator | spec/spec_system_helper.rb:95 | `scan_until(/\n\n/)`: the position just after the first `"\n\n"` at or after the scan position, or none when there is none |
| EventScanner.TerminatorAtEnd | spec/spec_system_helper.rb:95 | after a complete encoded block the scanner stops exactly at the block's end |
| EventScanner.HeartbeatPending | spec/spec_system_helper.rb:95 | a heartbeat comment alone never completes a block |
| EventScanner.SplitField | spec/spec_system_helper.rb:97 | `split(/: ?/, 2)`: the field has no colon; there is no value iff the line has no colon; otherwise the line is field, `:` or `: `, value |
| EventScanner.ApplyLine | spec/spec_system_helper.rb:98-108 | an empty line raises; otherwise the data only grows by an extension |
| EventScanner.ApplyLinesOk | spec/spec_system_helper.rb:96-108 | a block's lines apply without raising iff none is empty |
| EventScanner.ApplyLinesConcat | spec/spec_system_helper.rb:96-108 | applying two runs of lines is applying the second to the result of the first, unless the first raised |
| EventScanner.CommentIgnored | spec/spec_system_helper.rb:98 | a line starting with `:` (empty field) leaves the event unchanged |
| EventScanner.ApplyDataLines | spec/spec_system_helper.rb:104-106 | each `data: ` line appends its value and a newline |
| EventScanner.Feed | spec/spec_system_helper.rb:93-112 | the buffer grows by the segment, the scan position never goes back, at most one event is emitted per segment, and none when the block raised |
| EventScanner.DecodeEncoded | spec/spec_system_helper.rb:96-109 | decoding an encoded block gives back its data, type and id when the options hold no newline and the data does not end in `\r` |
| EventScanner.FeedEncoded | spec/spec_system_helper.rb:93-111 | feeding an encoded block to an idle scanner emits exactly that event and leaves the scanner idle |
| EventScanner.FeedStream | spec/spec_system_helper.rb:93-111 | feeding a sequence of encoded blocks emits their events in order |
| EventScanner.DecodeStream | spec/spec_system_helper.rb:86-112 | from a fresh scanner, the events emitted for a stream of encoded blocks are the published ones, in order |
| EventScanner.HeartbeatIgnored | lib/redisse/server.rb:103-108 | a heartbeat `: hb` emits nothing and the next block is still decoded to its event |
| EventScanner.Scanner.constructor | spec/spec_system_helper.rb:87-91 | a new scanner has an empty buffer and a fresh event |
| EventScanner.Scanner.Push | spec/spec_system_helper.rb:93-112 | `<<` moves the scanner exactly as `Feed` does and reports whether the block raised |
| EventScanner.ApplyBlock | spec/spec_system_helper.rb:96-108 | the line loop computes `ApplyLines` |
| EventScanner.RoundTrip | spec/spec_system_helper.rb:86-112 | encoding then scanning yields the event with the payload, type and id |
| RedisStore.IncrCmd | lib/redisse/publisher.rb:15 | INCR succeeds iff the key is absent or a counter; then it stores and returns the old value + 1 (0 when absent); WRONGTYPE leaves the store unchanged |
| RedisStore.GetCmd | lib/redisse/server.rb:165-168 | GET fails iff the key holds a sorted set, is nil iff absent, and a counter reads back (`to_i`) as its value |
| RedisStore.PublishCmd | lib/redisse/publisher.rb:17 | PUBLISH appends the message and changes no key |
| RedisStore.ZAddCmd | lib/redisse/publisher.rb:18 | ZADD succeeds iff the key is absent or a sorted set; it replaces the member's entry and returns 1 iff the member is new |
| RedisStore.ZAddNewest | lib/redisse/publisher.rb:18 | adding a new member with a score above all others appends it |
| RedisStore.ZRemRangeByRankCmd | lib/redisse/publisher.rb:19 | ZREMRANGEBYRANK on a sorted set removes the ranks given, returns how many went, and leaves every other key alone |
| RedisStore.TrimKeepsNewest | lib/redisse/publisher.rb:19 | removing ranks 0 to -1-k keeps exactly the k highest-ranked entries |
| RedisStore.KeepNewest | lib/redisse/publisher.rb:19 | the kept entries are the last min(n, k) of the set |
| RedisStore.KeepNewestHighest | lib/redisse/publisher.rb:19 | trimming keeps the scores increasing, and every evicted score is below every kept one |
| RedisStore.RangeFrom | lib/redisse/server.rb:198 | the entries with score at or above the bound, all of them and only them |
| RedisStore.ZRangeByScoreCmd | lib/redisse/server.rb:197-203 | ZRANGEBYSCORE fails iff the key is a counter, else returns the entries from the bound on |
| RedisStore.IncrThenGet | lib/redisse/server.rb:165-168 | after INCR, GET returns the new value printed, which `to_i` reads back |
| RedisStore.Redis.constructor | lib/redisse/server/redis.rb:3-5 | a new connection sees an empty store |
| RedisStore.Redis.Incr | lib/redisse/publisher.rb:15 | the store and reply are those of `IncrCmd` |
| RedisStore.Redis.Get | lib/redisse/server.rb:166 | the reply is that of `GetCmd` |
| RedisStore.Redis.Publish | lib/redisse/publisher.rb:17 | the store becomes that of `PublishCmd` |
| RedisStore.Redis.ZAdd | lib/redisse/publisher.rb:18 | the store and reply are those of `ZAddCmd` |
| RedisStore.Redis.ZRemRangeByRank | lib/redisse/publisher.rb:19 | the store and reply are those of `ZRemRangeByRankCmd` |
| RedisStore.Redis.ZRangeByScore | lib/redisse/server.rb:198 | the reply is that of `ZRangeByScoreCmd` |
| Publisher.EventIdLine | lib/redisse/publisher.rb:16 | every published event starts with its `id:` line |
| Publisher.IdLineUnique | lib/redisse/publisher.rb:16 | an event's `id:` line determines its id |
| Publisher.NewEventNotMember | lib/redisse/publisher.rb:18 | the new event is never already in the channel's history, so ZADD adds it |
| Publisher.EmptyValid | lib/redisse/publisher.rb:7-8 | an empty store satisfies the history invariant |
| Publisher.PublishSteps | lib/redisse/publisher.rb:14-21 | `publish` takes the next counter value as id, PUBLISHes the event, appends it to the history, trims the history to 100, and returns the id |
| Publisher.PublishFresh | lib/redisse/publisher.rb:14-21 | on a valid store and a channel other than the counter key, `publish` returns `last + 1`, publishes exactly one message, touches no other key, and keeps the invariant: at most 100 entries per channel, scores increasing and at most the counter, each member starting with its own `id:` line |
| Publisher.PublishKeepsDistinctIds | lib/redisse/publisher.rb:14-21 | a publish gives its event an id no channel holds yet, so no id is stored under two channels afterwards |
| Publisher.PublishAllKeepsDistinctIds | lib/redisse/publisher.rb:14-21 | any run of publishes on ordinary channels keeps the store valid and each id in one channel at most |
| Publisher.FromEmptyDistinctIds | lib/redisse/publisher.rb:14-21 | every store that publishes build from an empty Redis is valid and stores each id under one channel at most |
| Publisher.AfterPublishValid | lib/redisse/publisher.rb:15-19 | the history invariant is preserved by a publish |
| Publisher.PublishOnCounterKey | lib/redisse/publisher.rb:15-18 | publishing on `redisse:lastEventId` increments, publishes, then raises WRONGTYPE at ZADD |
| Publisher.PublishAll | lib/redisse/publisher.rb:14-21 | a run of publishes returns one reply per publish |
| Publisher.PublishAllNext | lib/redisse/publisher.rb:15 | the replies of a run of publishes are the consecutive ids after the counter |
| Publisher.PublishAllIds | lib/redisse/publisher.rb:15 | ids of a run are `last+1`, `last+2`, …, strictly increasing, and the counter ends at `last + n` |
| Publisher.NewEntriesIds | lib/redisse/publisher.rb:15-18 | the i-th event of a run is stored with score `last + 1 + i` |
| Publisher.HistoryAfterPublishes | lib/redisse/publisher.rb:18-19 | after a run of publishes on one channel its history is the newest 100 of the old history followed by the new events |
| Publisher.HistoryFromEmpty | lib/redisse/publisher.rb:8 | after n publishes on a fresh channel its history holds min(n, 100) events: the newest, with consecutive ids ending at the last one |
| Publisher.KeepNewestConcat | lib/redisse/publisher.rb:19 | trimming after every ZADD equals trimming once at the end |
| Publisher.RedisPublisher.constructor | lib/redisse/publisher.rb:10-12 | the publisher keeps its client |
| Publisher.RedisPublisher.Create | lib/redisse/publisher.rb:10-12 | construction fails, with the source's message, iff the client is nil |
| Publisher.RedisPublisher.Publish | lib/redisse/publisher.rb:14-21 | the store and reply are those of `PublishEffect` |
| Publisher.Kept | lib/redisse/publisher.rb:39-42 | a filter never adds records |
| Publisher.KeptMembers | lib/redisse/publisher.rb:40 | a publish is recorded iff its type passes the filter |
| Publisher.KeptConcat | lib/redisse/publisher.rb:39-42 | records of consecutive publishes concatenate in order |
| Publisher.KeptUnfiltered | lib/redisse/publisher.rb:40 | without a filter every publish is recorded, in order |
| Publisher.TestPublisher.constructor | lib/redisse/publisher.rb:25-27 | nothing published, no filter |
| Publisher.TestPublisher.SetFilter | lib/redisse/publisher.rb:37 | sets the filter and keeps the records |
| Publisher.TestPublisher.Publish | lib/redisse/publisher.rb:39-42 | appends the record iff its type passes the filter |
| ServerStats.Stats.constructor | lib/redisse/server/stats.rb:3-19 | all four counters start at 0 |
| ServerStats.StatsResponse | lib/redisse/server/stats.rb:26-28 | status 200, `Content-Type: application/json`, the JSON body of the counters |
| ServerStats.JsonRoundTrip | lib/redisse/server/stats.rb:34-41 | the JSON body reads back to the four counters |
| ServerStats.JsonBodyInjective | lib/redisse/server/stats.rb:34-41 | different counters give different bodies |
| ServerRedis.Removed | lib/redisse/server/redis.rb:35 | removing a callback removes it and keeps every other callback |
| ServerRedis.SubscribeAllRegisters | lib/redisse/server/redis.rb:27-31 | after subscribing, the callback is registered on every channel given, other channels are unchanged, and no callback is lost |
| ServerRedis.UnsubscribeAllRemoves | lib/redisse/server/redis.rb:33-37 | after unsubscribing, the callback is on none of the channels given, other callbacks stay, and other channels are unchanged |
| ServerRedis.SubscribeThenUnsubscribe | lib/redisse/server/redis.rb:27-37 | subscribing a new callback then unsubscribing it from the same channels restores the registry |
| ServerRedis.Monitor.constructor | lib/redisse/server/redis.rb:15 | no pub/sub connection yet, no errbacks, empty registry |
| ServerRedis.Monitor.EnsurePubsub | lib/redisse/server/redis.rb:14-20 | creates the pub/sub connection once, with no errbacks; later calls change nothing |
| ServerRedis.Monitor.Pubsub | lib/redisse/server/redis.rb:7-12 | answers whether the connection is up, and registers the errback only then |
| ServerRedis.Monitor.OnRedisClose | lib/redisse/server/redis.rb:22-25 | fires every errback in order and clears them |
| ServerRedis.Monitor.Disconnect | lib/redisse/server/redis.rb:18 | a `disconnected` event marks the connection down and runs `on_redis_close` |
| ServerRedis.Monitor.Reconnect | lib/redisse/server/redis.rb:9 | the connection comes back up with the same errbacks and registry |
| ServerRedis.Monitor.Subscribe | lib/redisse/server/redis.rb:27-31 | the registry becomes `SubscribeAll` of the channels |
| ServerRedis.Monitor.Unsubscribe | lib/redisse/server/redis.rb:33-37 | the registry becomes `UnsubscribeAll` of the channels |
| ServerRequests.Cursor | lib/redisse/server.rb:170-175 | the cursor, when there is one, is never 0 |
| ServerRequests.CursorHeaderWins | lib/redisse/server.rb:171-172 | the `Last-Event-ID` header takes precedence over the `lastEventId` parameter |
| ServerRequests.CursorOfId | lib/redisse/server.rb:170-175 | a printed non-zero id, in the header or the parameter, is the cursor |
| ServerRequests.NoCursor | lib/redisse/server.rb:173-174 | `"0"`, non-numeric text, an absent parameter and a parameter without a value give no cursor |
| ServerRequests.AdmissionOrder | lib/redisse/server.rb:67-72 | stats first, then 406, then 404, then 503, else streaming, each iff its condition holds and the earlier ones do not |
| ServerRequests.DecodeAll | lib/redisse/server.rb:32-34 | each query item is decoded, in order |
| ServerRequests.KeepChannels | lib/redisse/server.rb:35-36 | keeps exactly the items that are neither `polling` nor start with `lastEventId=` |
| ServerRequests.KeepChannelsConcat | lib/redisse/server.rb:35-36 | `delete` and `delete_if` filter item by item: the channels of two runs of items are those of each, in order, with repeats kept |
| ServerRequests.KeepAllChannels | lib/redisse/server.rb:35-36 | items that are all channels are kept unchanged, order and repeats included |
| ServerRequests.KeepNoChannel | lib/redisse/server.rb:35-36 | items none of which is a channel are all removed |
| ServerRequests.StandaloneChannelsMembers | lib/redisse/server.rb:29-38 | a name is a channel of the query iff it decodes from one of its `&`-separated items and is not an option |
| ServerReplay.MissedEventsShape | lib/redisse/server.rb:192 | the `missedevents` event is `event: missedevents` and an empty data line |
| ServerReplay.LastEventIdEventShape | lib/redisse/server.rb:162-163 | the `lastEventId` event carries the id, type `lastEventId` and empty data |
| ServerReplay.GatheredEntries | lib/redisse/server.rb:177-181 | gathering fails iff a channel is a counter key; otherwise it yields exactly the entries of the channels with score at or above the cursor |
| ServerReplay.SortById | lib/redisse/server.rb:181 | `sort_by!(&:last)`: sorted by id and a permutation of its input |
| ServerReplay.SortIncreasing | lib/redisse/server.rb:181 | a single channel's history is already sorted |
| ServerReplay.GapDetection | lib/redisse/server.rb:186-195 | the replay is the events after the cursor, preceded by `missedevents` iff the cursor event is gone and later events exist |
| ServerReplay.CursorKept | lib/redisse/server.rb:189-190 | when the first event is the cursor it is dropped and no marker is sent |
| ServerReplay.CursorGone | lib/redisse/server.rb:191-193 | when the first event is past the cursor a `missedevents` marker precedes them |
| ServerReplay.SingleChannelReplay | lib/redisse/server.rb:177-203 | on one channel, the replay is the history after the cursor, with the marker iff there is a gap |
| ServerReplay.ReplayPastCursor | lib/redisse/server.rb:186-195 | when the whole history is past the cursor, the replay is the marker then the whole history |
| ServerReplay.ReplayAfterEviction | spec/example_spec.rb:148-162 | after more than 100 publishes on a fresh channel, resuming from the first id replays `missedevents` then the newest 100 events |
| ServerReplay.GatheredHistories | lib/redisse/server.rb:177-181 | with no channel on the counter key, gathering yields the entries at or above the cursor of all the channels' histories taken one after the other |
| ServerReplay.HistoriesUnique | lib/redisse/server.rb:177-181 | distinct channels of a store whose ids are kept apart contribute entries with pairwise distinct ids |
| ServerReplay.SortStrict | lib/redisse/server.rb:181 | `sort_by!(&:last)` on entries with distinct ids puts them in strictly increasing id order |
| ServerReplay.MultiChannelReplay | lib/redisse/server.rb:177-203 | over several distinct channels of a store the publisher keeps, the replay is every event of those channels after the cursor, merged in id order, preceded by `missedevents` iff none of the channels still holds the cursor's event and a later event exists |
| ServerReplay.HistoryAcrossChannels | spec/example_spec.rb:117-126 | two events on one channel and a third on another: a client of both channels resuming from the first id is sent the second and the third, in that order, without a marker |
| ServerReplay.GatheredPublished | lib/redisse/server.rb:198-201 | every gathered entry starts with the `id:` line of its score |
| ServerReplay.EventNotMarker | lib/redisse/server.rb:155 | a published event never looks like the `missedevents` marker |
| ServerReplay.MissingCountsGaps | lib/redisse/server.rb:155-157 | the `missing` counter is bumped iff the first gathered event is not the cursor |
| ServerReplay.LastIdMarker | lib/redisse/server.rb:148-153 | the `lastEventId` event is sent iff there are no history events, and carries the counter's value when the key exists |
| Server.Connection.constructor | lib/redisse/server.rb:67 | a new connection has sent nothing, is open, and has no subscription, polling timer or heartbeat |
| Server.Server.constructor | lib/redisse/server.rb:62-65 | zero counters, no pub/sub connection yet |
| Server.Server.SendEvent | lib/redisse/server.rb:125-133 | sends the event, counts it, and arms the polling timer once when polling |
| Server.Server.PollingTimerFires | lib/redisse/server.rb:130-132 | the polling timer closes the stream |
| Server.Server.Subscribe | lib/redisse/server.rb:91-101 | when the pub/sub connection is up: registers the errback and the channels, counts a connection and stores the unsubscribe step; otherwise it changes no counter |
| Server.Server.Unsubscribe | lib/redisse/server.rb:116-123 | runs at most once: decrements `connected`, increments `served` and unregisters the channels |
| Server.Server.Heartbeat | lib/redisse/server.rb:103-108 | starts the periodic heartbeat |
| Server.Server.HeartbeatFires | lib/redisse/server.rb:104-107 | sends `": hb\n"` |
| Server.Server.StopHeartbeat | lib/redisse/server.rb:110-114 | cancels a heartbeat that was started |
| Server.Server.OnClose | lib/redisse/server.rb:82-85 | unsubscribes (once), with the exact counters and registry, and stops the heartbeat: idle stays idle, a started timer is cancelled; the sent items, `closed`, the polling timer and the monitor's connection state and errbacks are unchanged |
| Server.Server.GatherEvents | lib/redisse/server.rb:177-181 | the loop over channels computes `Gathered` |
| Server.Server.EventsForChannels | lib/redisse/server.rb:177-184 | the result is `Replay` of the store |
| Server.Server.FetchBacklog | lib/redisse/server.rb:149-153 | the backlog is `PlanHistory` of the store |
| Server.Server.SendHistoryEvents | lib/redisse/server.rb:148-160 | sends the planned backlog, counts the events and a gap, and arms the polling timer only for history events; a failed range query raises (`raised`), as `each_slice` on the error reply does at `lib/redisse/server.rb:199-200`, before anything is sent or counted |
| Server.Server.SendBacklog | lib/redisse/server.rb:153-159 | sends either the `lastEventId` event without arming the close timer or the history events in order, adds one to `missing` exactly when the first history event is `missedevents`, and arms the polling timer at the first history event for a long-polling request |
| Server.Server.SendAll | lib/redisse/server.rb:159 | sends every event in order and counts them |
| Server.Server.Response | lib/redisse/server.rb:67-80 | the response follows the admission order; a stream is subscribed (errbacks gain its id, the registry is `SubscribeAll` of the previous one), heartbeating, counted in `connected`, and has been sent the backlog with `events`, `missing` and the polling timer updated as `send_history_events` does; a 503 leaves the monitor created but down with its previous errbacks and registry; other answers leave the counters, the connection, its polling timer and the monitor alone; `replayRaised` holds exactly when the answer is a stream and the deferred history replay raised, which sends nothing but leaves the answer a stream |
| Server.Server.BackendDown | lib/redisse/server.rb:92 | when Redis goes away, exactly the streams whose errback was registered are closed |
| Server.Server.DisconnectThenAdmit | spec/example_spec.rb:235-246 | after Redis goes away the open streams are closed and a new stream request gets 503 |
| Server.Server.Session | spec/example_spec.rb:189-208 | a whole request then close leaves `connected` unchanged and adds one to `served` iff it streamed |
| Server.GatheredFails | lib/redisse/server.rb:178-181 | once a channel fails, gathering the rest fails the same way |
| RedirectEndpoint.WithSlash | lib/redisse/redirect_endpoint.rb:37-41 | the base URL ends with `/`, is unchanged iff it already did, and otherwise gains exactly one |
| RedirectEndpoint.WithSlashIdempotent | lib/redisse/redirect_endpoint.rb:37-41 | forcing the slash twice is forcing it once |
| RedirectEndpoint.Assoc | lib/redisse/redirect_endpoint.rb:31-33 | `assoc` finds a pair with that name iff there is one, and the pair it finds is the first with that name, so `?lastEventId=1&lastEventId=2` forwards `1` |
| RedirectEndpoint.RedirectOptionsForwarded | lib/redisse/redirect_endpoint.rb:28-35 | only `polling` (iff given) then the first `lastEventId` pair (iff given) are forwarded |
| RedirectEndpoint.RedirectUrl | lib/redisse/redirect_endpoint.rb:21-26 | fails iff a channel is `polling` or `lastEventId`, with the source's messages, `polling` first; otherwise base URL, `?`, the encoded options then channels |
| RedirectEndpoint.Endpoint.constructor | lib/redisse/redirect_endpoint.rb:8-11 | the base URL is the internal URL with the slash forced |
| RedirectEndpoint.Endpoint.SetBaseUrl | lib/redisse/redirect_endpoint.rb:37-41 | `base_url=` stores the URL with the slash forced |
| RedirectEndpoint.Endpoint.Call | lib/redisse/redirect_endpoint.rb:13-17 | a 200 with the `X-Accel-Redirect` header set to the redirect URL, or the redirect's error |
| RedirectEndpoint.DecodedOptionsDropped | lib/redisse/server.rb:35-36 | the forwarded options never come back as channels |
| RedirectEndpoint.StandaloneDecodes | lib/redisse/server.rb:29-38 | the standalone server reads back exactly the redirected channels that are not options |
| RedirectEndpoint.RedirectRoundTripAsWritten | lib/redisse/server.rb:29-38 | the standalone server reads back the redirected channels when none starts with `lastEventId=` |
| RedirectEndpoint.RedirectDropsChannel | lib/redisse/server.rb:36 | the channel `lastEventId=1` is redirected but never subscribed |
| RedirectEndpoint.RedirectRoundTrip | lib/redisse/server.rb:29-38 | filtering the raw items before decoding reads back every redirected channel |
| Text.ToIIntToString | lib/redisse/server.rb:173 | `to_i` of a printed integer is that integer |
| Text.ChompNewline | spec/spec_system_helper.rb:109 | `chomp` removes exactly the final newline of data not ending in `\r` |
| Text.SplitAllCount | lib/redisse/server_sent_events.rb:11 | a text with k newlines has k + 1 lines |
| Text.JoinSplit | lib/redisse/server_sent_events.rb:11 | joining the lines of a text gives it back |

## Left out

- Goliath, EventMachine and `EM::Synchrony` plumbing. This covers the `next_tick` deferral of the history replay (`lib/redisse/server.rb:142-146`), the fibers, and the interleaving of concurrent connections. Each operation runs to completion in the model.
- Timers. `EM.add_timer` and `EM.add_periodic_timer` become explicit states (`pollingTimer`, `heartbeat`) and explicit firing methods. The delays (1 s, 15 s) are not modelled.
- The Redis server and em-hiredis. The commands the core uses (INCR, GET, PUBLISH, ZADD, ZREMRANGEBYRANK, ZRANGEBYSCORE) are modelled on an abstract store in `RedisStore`. Connection failure is a flag. `Monitor.Reconnect` stands for em-hiredis's automatic reconnection.
- The lazy `redis` connection at `lib/redisse/server/redis.rb:3-5` is modelled as an already connected `RedisStore.Redis`.
- RedisStore.IncrCmd: unbounded integers. The 64-bit overflow error of INCR is not modelled.
- RedisStore.ZAddCmd: scores are exact integers. Redis stores sorted-set scores as doubles, exact only up to 2^53 and printed in exponent form from 1e17 on, where `score.to_i` (`lib/redisse/server.rb:201`) would misread them; neither rounding nor that misreading is modelled.
- The pub/sub delivery of a message to subscribers (em-hiredis calling the registered `send_event` lambdas) is not modelled as a method. Each connection's callback is its id in the registry.
- Rack's `accept_media_types`, `Rack::Request#GET` and URI form encoding and decoding are parameters. They appear as the parsed accept list, a query map, and `encode`/`decode` functions; the round-trip lemmas state what they require of the codec.
- Logging (`env.logger`), `Redisse::Configuration`, `lib/redisse.rb` (channels block, `test_mode!`, `test_filter=` with a Proc filter) and `goserver.go` are not part of this model.
- Publisher.TestPublisher.Publish: the filter is compared with `!=` as written. A Proc filter (set through `lib/redisse.rb`) and `TestPublisher::Event#message` (JSON parsing) are not modelled.
- ServerReplay.SortById: Ruby's `sort_by!` is not stable. The model's insertion sort is. The two agree whenever ids are distinct, which the history invariant guarantees within a channel and `Publisher.DistinctIds` across channels.
- Two behaviours of the code that the model keeps:
  - the replay's ZRANGEBYSCORE lower bound is inclusive, so the cursor event itself is fetched and then dropped;
  - the test scanner emits at most one event per `<<`, even when a segment completes several blocks.

## Findings

| source | as written | input that shows it | evidently intended | confidence | as-written member | corrected member |
|---|---|---|---|---|---|---|
| lib/redisse/server.rb:36 | the standalone parser drops every decoded item starting with `lastEventId=`. The redirect endpoint rejects only the channel named exactly `lastEventId` (`lib/redisse/redirect_endpoint.rb:24`) | a channel named `lastEventId=1` | a channel the redirect accepts is subscribed by the server (filter on the raw, still encoded items, where a channel's `=` is escaped) | low, not executed | RedirectEndpoint.RedirectDropsChannel | RedirectEndpoint.RedirectRoundTrip |
