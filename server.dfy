/**
 * The server of lib/redisse/server.rb as state: each client connection (the
 * Goliath `env` of its stream) and the objects every connection shares, the
 * statistics, the pub/sub connection monitor and the Redis store.
 *
 * `stream_send` appends to the connection's `sent` items and `stream_close` sets
 * `closed`. Timers carry no time: the long-polling timer records which sent item
 * armed it, and the heartbeat timer is idle, running or cancelled.
 */
module Server {
  import opened Wrappers
  import opened Text
  import opened RedisStore
  import opened Publisher
  import opened ServerStats
  import opened Responses
  import opened ServerRedis
  import opened ServerRequests
  import opened ServerReplay

  /** What the heartbeat sends: a comment line. */
  const HeartbeatComment := ": hb\n"

  /**
   * A timer's state. The heartbeat fires every `HEARTBEAT_PERIOD` (15 s) and the
   * long-polling close comes `LONG_POLLING_DELAY` (1 s) after the first event;
   * those delays are not modelled, only whether a timer is idle, running or cancelled.
   */
  datatype Timer = Idle | Running | Cancelled

  class Connection {
    /** Names the connection's disconnect listener and pub/sub callback. */
    const id: nat
    const request: ServerRequests.Request
    var sent: seq<string>
    var closed: bool
    /** `env['redisse.unsubscribe']`: the channels to leave, once subscribed. */
    var unsubscribe: Option<seq<string>>
    /** `env['redisse.long_polling_timer']`: the index of the sent item that armed it. */
    var pollingTimer: Option<nat>
    /** `env['redisse.heartbeat_timer']`. */
    var heartbeat: Timer

    constructor (id: nat, request: ServerRequests.Request)
      ensures this.id == id && this.request == request
      ensures sent == [] && !closed && unsubscribe == None && pollingTimer == None && heartbeat == Idle
    {
      this.id, this.request := id, request;
      sent, closed, unsubscribe, pollingTimer, heartbeat := [], false, None, None, Idle;
    }
  }

  /** The items `send_history_events` sends: the `lastEventId` event, then the replay. */
  function Items(b: Backlog): seq<string> {
    (if b.lastId.Some? then [b.lastId.value] else []) + b.events
  }

  class Server {
    const stats: ServerStats.Stats
    const monitor: Monitor
    const redis: Redis

    constructor (redis: Redis)
      ensures this.redis == redis && fresh(stats) && fresh(monitor)
      ensures stats.Snapshot() == Counters(0, 0, 0, 0)
      ensures !monitor.created && monitor.errbacks == [] && monitor.registry == map[]
    {
      this.redis := redis;
      stats := new ServerStats.Stats();
      monitor := new Monitor();
    }

    /**
     * `send_event`: counts the event and sends it; with polling on, the first
     * event sent arms the close timer and later ones leave it as it is.
     */
    method SendEvent(conn: Connection, event: string, polling: bool)
      modifies conn, stats
      ensures conn.sent == old(conn.sent) + [event]
      ensures stats.Snapshot() == old(stats.Snapshot()).(events := old(stats.events) + 1)
      ensures conn.pollingTimer ==
        if old(conn.pollingTimer).None? && polling then Some(|old(conn.sent)|) else old(conn.pollingTimer)
      ensures conn.closed == old(conn.closed) && conn.unsubscribe == old(conn.unsubscribe)
      ensures conn.heartbeat == old(conn.heartbeat)
    {
      stats.events := stats.events + 1;
      var armedAt := |conn.sent|;
      conn.sent := conn.sent + [event];
      if polling && conn.pollingTimer.None? {
        conn.pollingTimer := Some(armedAt);
      }
    }

    /** The long-polling timer fires: the stream is closed. */
    method PollingTimerFires(conn: Connection)
      modifies conn
      requires conn.pollingTimer.Some?
      ensures conn.closed && conn.sent == old(conn.sent) && conn.unsubscribe == old(conn.unsubscribe)
      ensures conn.pollingTimer == old(conn.pollingTimer) && conn.heartbeat == old(conn.heartbeat)
    {
      conn.closed := true;
    }

    /**
     * `subscribe`: with the pub/sub connection up, registers the stream's close as
     * a disconnect listener, counts the connection, subscribes it to the channels
     * and keeps what unsubscribing needs; with it down, changes no counter.
     */
    method Subscribe(conn: Connection, channels: seq<string>, connects: bool) returns (ok: bool)
      modifies monitor, stats, conn
      ensures ok == (if old(monitor.created) then old(monitor.connected) else connects)
      ensures monitor.created && monitor.connected == ok
      ensures monitor.errbacks ==
        (if old(monitor.created) then old(monitor.errbacks) else []) + (if ok then [conn.id] else [])
      ensures var base := if old(monitor.created) then old(monitor.registry) else map[];
        monitor.registry == if ok then SubscribeAll(base, channels, conn.id) else base
      ensures stats.Snapshot() == old(stats.Snapshot()).(connected := old(stats.connected) + if ok then 1 else 0)
      ensures conn.unsubscribe == if ok then Some(channels) else old(conn.unsubscribe)
      ensures conn.sent == old(conn.sent) && conn.closed == old(conn.closed)
      ensures conn.pollingTimer == old(conn.pollingTimer) && conn.heartbeat == old(conn.heartbeat)
    {
      ok := monitor.Pubsub(conn.id, connects);
      if !ok {
        return;
      }
      stats.connected := stats.connected + 1;
      monitor.Subscribe(channels, conn.id);
      conn.unsubscribe := Some(channels);
    }

    /**
     * `unsubscribe`: at most once per connection, moves it from `connected` to
     * `served` and takes its callback off its channels; again, it does nothing.
     */
    method Unsubscribe(conn: Connection)
      modifies monitor, stats, conn
      ensures old(conn.unsubscribe).None? ==>
        stats.Snapshot() == old(stats.Snapshot()) && monitor.registry == old(monitor.registry)
      ensures old(conn.unsubscribe).Some? ==>
        && stats.Snapshot() == old(stats.Snapshot()).(connected := old(stats.connected) - 1, served := old(stats.served) + 1)
        && monitor.registry == UnsubscribeAll(old(monitor.registry), old(conn.unsubscribe).value, conn.id)
      ensures conn.unsubscribe == None
      ensures monitor.created == old(monitor.created) && monitor.connected == old(monitor.connected)
      ensures monitor.errbacks == old(monitor.errbacks)
      ensures conn.sent == old(conn.sent) && conn.closed == old(conn.closed)
      ensures conn.pollingTimer == old(conn.pollingTimer) && conn.heartbeat == old(conn.heartbeat)
    {
      if conn.unsubscribe.None? {
        return;
      }
      var channels := conn.unsubscribe.value;
      conn.unsubscribe := None;
      stats.connected := stats.connected - 1;
      stats.served := stats.served + 1;
      monitor.Unsubscribe(channels, conn.id);
    }

    /** `heartbeat`: starts the periodic timer. */
    method Heartbeat(conn: Connection)
      modifies conn
      ensures conn.heartbeat == Running
      ensures conn.sent == old(conn.sent) && conn.closed == old(conn.closed)
      ensures conn.unsubscribe == old(conn.unsubscribe) && conn.pollingTimer == old(conn.pollingTimer)
    {
      conn.heartbeat := Running;
    }

    /** The heartbeat timer fires: the comment goes out directly, uncounted. */
    method HeartbeatFires(conn: Connection)
      modifies conn
      requires conn.heartbeat == Running
      ensures conn.sent == old(conn.sent) + [HeartbeatComment]
      ensures conn.closed == old(conn.closed) && conn.heartbeat == old(conn.heartbeat)
      ensures conn.unsubscribe == old(conn.unsubscribe) && conn.pollingTimer == old(conn.pollingTimer)
    {
      conn.sent := conn.sent + [HeartbeatComment];
    }

    /** `stop_heartbeat`: cancels the timer if one was started. */
    method StopHeartbeat(conn: Connection)
      modifies conn
      ensures conn.heartbeat == if old(conn.heartbeat) == Idle then Idle else Cancelled
      ensures conn.sent == old(conn.sent) && conn.closed == old(conn.closed)
      ensures conn.unsubscribe == old(conn.unsubscribe) && conn.pollingTimer == old(conn.pollingTimer)
    {
      if conn.heartbeat != Idle {
        conn.heartbeat := Cancelled;
      }
    }

    /** `on_close`: unsubscribes, then stops the heartbeat. */
    method OnClose(conn: Connection)
      modifies monitor, stats, conn
      ensures old(conn.unsubscribe).None? ==>
        stats.Snapshot() == old(stats.Snapshot()) && monitor.registry == old(monitor.registry)
      ensures old(conn.unsubscribe).Some? ==>
        && stats.Snapshot() == old(stats.Snapshot()).(connected := old(stats.connected) - 1, served := old(stats.served) + 1)
        && monitor.registry == UnsubscribeAll(old(monitor.registry), old(conn.unsubscribe).value, conn.id)
      ensures conn.unsubscribe == None
      ensures conn.heartbeat == if old(conn.heartbeat) == Idle then Idle else Cancelled
      ensures conn.sent == old(conn.sent) && conn.closed == old(conn.closed)
      ensures conn.pollingTimer == old(conn.pollingTimer)
      ensures monitor.created == old(monitor.created) && monitor.connected == old(monitor.connected)
      ensures monitor.errbacks == old(monitor.errbacks)
    {
      Unsubscribe(conn);
      StopHeartbeat(conn);
    }

    /** `events_for_channels` before sorting: one range query per channel, in order. */
    method GatherEvents(channels: seq<string>, cursor: int) returns (r: Result<seq<Entry>>)
      ensures r == Gathered(redis.store, channels, cursor)
    {
      var acc := [];
      var i := 0;
      while i < |channels|
        invariant 0 <= i <= |channels|
        invariant Gathered(redis.store, channels[..i], cursor) == Ok(acc)
      {
        assert channels[..i + 1][..i] == channels[..i];
        var found := redis.ZRangeByScore(channels[i], cursor);
        match found {
          case Err(m) =>
            GatheredFails(redis.store, channels, i + 1, cursor);
            return Err(m);
          case Ok(es) =>
            acc := acc + es;
        }
        i := i + 1;
      }
      assert channels[..i] == channels;
      return Ok(acc);
    }

    /** `events_for_channels`: the gathered entries sorted by id, then gap handling. */
    method EventsForChannels(channels: seq<string>, cursor: int) returns (r: Result<seq<string>>)
      ensures r == Replay(redis.store, channels, cursor)
    {
      var gathered := GatherEvents(channels, cursor);
      match gathered {
        case Err(m) => r := Err(m);
        case Ok(g) => r := Ok(HandleMissing(SortById(g), cursor));
      }
    }

    /**
     * `send_history_events`: the `lastEventId` event, never arming the close timer,
     * or the replay, counting a gap in `missing`. A failed range query raises
     * (`each_slice` on the error reply) before anything is sent: `raised`.
     */
    method SendHistoryEvents(conn: Connection, channels: seq<string>) returns (raised: bool)
      modifies conn, stats
      ensures raised <==> PlanHistory(redis.store, conn.request, channels).Err?
      ensures var p := PlanHistory(redis.store, conn.request, channels);
        && (p.Err? ==> conn.sent == old(conn.sent) && stats.Snapshot() == old(stats.Snapshot())
                       && conn.pollingTimer == old(conn.pollingTimer))
        && (p.Ok? ==>
              && conn.sent == old(conn.sent) + Items(p.value)
              && stats.Snapshot() == old(stats.Snapshot()).(
                   events := old(stats.events) + |Items(p.value)|,
                   missing := old(stats.missing) + if MarksGap(p.value.events) then 1 else 0)
              && conn.pollingTimer ==
                   if old(conn.pollingTimer).None? && LongPolling(conn.request) && p.value.events != []
                   then Some(|old(conn.sent)|) else old(conn.pollingTimer))
      ensures conn.closed == old(conn.closed) && conn.unsubscribe == old(conn.unsubscribe)
      ensures conn.heartbeat == old(conn.heartbeat)
    {
      var backlog := FetchBacklog(conn.request, channels);
      match backlog {
        case Err(_) =>
          return true;
        case Ok(b) =>
          SendBacklog(conn, b);
          return false;
      }
    }

    /**
     * The sending half of `send_history_events`: the `lastEventId` event without
     * arming the close timer, or the history events, counting a gap in `missing`.
     */
    method SendBacklog(conn: Connection, b: Backlog)
      requires b.lastId.Some? ==> b.events == []
      modifies conn, stats
      ensures conn.sent == old(conn.sent) + Items(b)
      ensures stats.Snapshot() == old(stats.Snapshot()).(
                events := old(stats.events) + |Items(b)|,
                missing := old(stats.missing) + if MarksGap(b.events) then 1 else 0)
      ensures conn.pollingTimer ==
                if old(conn.pollingTimer).None? && LongPolling(conn.request) && b.events != []
                then Some(|old(conn.sent)|) else old(conn.pollingTimer)
      ensures conn.closed == old(conn.closed) && conn.unsubscribe == old(conn.unsubscribe)
      ensures conn.heartbeat == old(conn.heartbeat)
    {
      if b.lastId.Some? {
        SendEvent(conn, b.lastId.value, false);
        return;
      }
      assert Items(b) == b.events;
      if |b.events| == 0 {
        return;
      }
      if StartsWith(b.events[0], "event: missedevents") {
        stats.missing := stats.missing + 1;
      }
      SendAll(conn, b.events, LongPolling(conn.request));
    }

    /**
     * The reads of `send_history_events`: the replay when there is a cursor, and
     * `redis_last_event_id` when there is nothing to replay.
     */
    method FetchBacklog(req: ServerRequests.Request, channels: seq<string>) returns (r: Result<Backlog>)
      ensures r == PlanHistory(redis.store, req, channels)
    {
      var cursor := Cursor(req);
      var events: Result<seq<string>> := Ok([]);
      if cursor.Some? {
        events := EventsForChannels(channels, cursor.value);
      }
      match events {
        case Err(m) =>
          return Err(m);
        case Ok(evs) =>
          if |evs| > 0 {
            return Ok(Backlog(None, evs));
          }
          var reply := redis.Get(LastEventIdKey);
          return Ok(Backlog(IdMarker(reply), []));
      }
    }

    /**
     * `response`: the stats document, 406, 404 or 503 as `Decide` says, touching
     * no stream and no counter; otherwise subscribed, sent its backlog and
     * started on the heartbeat. `connects` is whether the backend accepts the
     * pub/sub connection, should this be its first use. `replayRaised` is whether
     * the deferred `send_history_events` raised, which leaves the response itself
     * a stream.
     */
    method Response(conn: Connection, channels: seq<string>, connects: bool)
      returns (r: Response, replayRaised: bool)
      modifies monitor, stats, conn
      ensures r == Decide(old(stats.Snapshot()), conn.request, channels,
                          if old(monitor.created) then old(monitor.connected) else connects)
      ensures conn.closed == old(conn.closed)
      ensures r != Streaming ==>
        && stats.Snapshot() == old(stats.Snapshot()) && conn.sent == old(conn.sent)
        && conn.unsubscribe == old(conn.unsubscribe) && conn.heartbeat == old(conn.heartbeat)
        && conn.pollingTimer == old(conn.pollingTimer)
      ensures r != Streaming && r != ServiceUnavailable ==>
        && monitor.created == old(monitor.created) && monitor.connected == old(monitor.connected)
        && monitor.errbacks == old(monitor.errbacks) && monitor.registry == old(monitor.registry)
      ensures r == ServiceUnavailable ==>
        && monitor.created && !monitor.connected
        && monitor.errbacks == (if old(monitor.created) then old(monitor.errbacks) else [])
        && monitor.registry == (if old(monitor.created) then old(monitor.registry) else map[])
      ensures r == Streaming ==>
        && conn.unsubscribe == Some(channels) && conn.heartbeat == Running
        && monitor.created && monitor.connected
        && monitor.errbacks == (if old(monitor.created) then old(monitor.errbacks) else []) + [conn.id]
        && monitor.registry ==
             SubscribeAll(if old(monitor.created) then old(monitor.registry) else map[], channels, conn.id)
        && forall c :: c in channels ==> c in monitor.registry && conn.id in monitor.registry[c]
      ensures r == Streaming && PlanHistory(redis.store, conn.request, channels).Ok? ==>
        var b := PlanHistory(redis.store, conn.request, channels).value;
        && conn.sent == old(conn.sent) + Items(b)
        && stats.Snapshot() == old(stats.Snapshot()).(
             connected := old(stats.connected) + 1,
             events := old(stats.events) + |Items(b)|,
             missing := old(stats.missing) + if MarksGap(b.events) then 1 else 0)
        && conn.pollingTimer ==
             if old(conn.pollingTimer).None? && LongPolling(conn.request) && b.events != []
             then Some(|old(conn.sent)|) else old(conn.pollingTimer)
      ensures r == Streaming && PlanHistory(redis.store, conn.request, channels).Err? ==>
        && conn.sent == old(conn.sent) && conn.pollingTimer == old(conn.pollingTimer)
        && stats.Snapshot() == old(stats.Snapshot()).(connected := old(stats.connected) + 1)
      ensures replayRaised <==> r == Streaming && PlanHistory(redis.store, conn.request, channels).Err?
    {
      if ServerStatsRequested(conn.request.accept) {
        return StatsResponse(stats.Snapshot()), false;
      }
      if !Acceptable(conn.request) {
        return NotAcceptable, false;
      }
      if |channels| == 0 {
        return NotFound, false;
      }
      ghost var base := if monitor.created then monitor.registry else map[];
      var ok := Subscribe(conn, channels, connects);
      if !ok {
        return ServiceUnavailable, false;
      }
      SubscribeAllRegisters(base, channels, conn.id);
      var raised := SendHistoryEvents(conn, channels);
      Heartbeat(conn);
      AdmissionOrder(old(stats.Snapshot()), conn.request, channels, true);
      return Streaming, raised;
    }

    /**
     * The backend drops the pub/sub connection: every listener registered so far
     * is fired once, closing its connection's stream.
     */
    method BackendDown(conns: seq<Connection>)
      modifies monitor, set i | 0 <= i < |conns| :: conns[i]
      ensures !monitor.connected && monitor.errbacks == []
      ensures monitor.created == old(monitor.created) && monitor.registry == old(monitor.registry)
      ensures forall i :: 0 <= i < |conns| ==>
        conns[i].closed == (old(conns[i].closed) || conns[i].id in old(monitor.errbacks))
      ensures forall i :: 0 <= i < |conns| ==> conns[i].sent == old(conns[i].sent)
    {
      var fired := monitor.Disconnect();
      var i := 0;
      while i < |conns|
        invariant 0 <= i <= |conns|
        invariant forall k :: 0 <= k < |conns| ==>
          conns[k].closed == (old(conns[k].closed) || (conns[k].id in fired && conns[k] in conns[..i]))
        invariant forall k :: 0 <= k < |conns| ==> conns[k].sent == old(conns[k].sent)
        invariant !monitor.connected && monitor.errbacks == [] && fired == old(monitor.errbacks)
        invariant monitor.created == old(monitor.created) && monitor.registry == old(monitor.registry)
      {
        assert conns[..i + 1] == conns[..i] + [conns[i]];
        conns[i].closed := conns[i].closed || conns[i].id in fired;
        i := i + 1;
      }
      assert forall k :: 0 <= k < |conns| ==> conns[k] in conns[..i] by {
        assert conns[..i] == conns;
      }
    }

    /**
     * The backend goes away while streams are open: every stream that registered a
     * disconnect listener is closed, and a new stream request is then refused with
     * 503 without touching the counters.
     */
    method DisconnectThenAdmit(open: seq<Connection>, conn: Connection, channels: seq<string>, connects: bool)
      returns (r: Response)
      requires monitor.created
      requires !ServerStatsRequested(conn.request.accept) && Acceptable(conn.request) && channels != []
      modifies monitor, stats, conn, set i | 0 <= i < |open| :: open[i]
      ensures forall i :: 0 <= i < |open| && open[i].id in old(monitor.errbacks) ==> open[i].closed
      ensures r == ServiceUnavailable
      ensures stats.Snapshot() == old(stats.Snapshot()) && conn.sent == old(conn.sent)
    {
      BackendDown(open);
      var replayRaised;
      r, replayRaised := Response(conn, channels, connects);
    }

    /**
     * A stream request from admission to close: afterwards `connected` is back where
     * it was and `served` has grown by one exactly when the stream was admitted.
     */
    method Session(conn: Connection, channels: seq<string>, connects: bool) returns (r: Response)
      requires conn.unsubscribe.None?
      modifies monitor, stats, conn
      ensures stats.connected == old(stats.connected)
      ensures stats.served == old(stats.served) + if r == Streaming then 1 else 0
      ensures conn.unsubscribe.None? && conn.heartbeat != Running
    {
      var replayRaised;
      r, replayRaised := Response(conn, channels, connects);
      OnClose(conn);
    }

    /** `events.each { |event| send_event(env, event) }`. */
    method SendAll(conn: Connection, events: seq<string>, polling: bool)
      modifies conn, stats
      ensures conn.sent == old(conn.sent) + events
      ensures stats.Snapshot() == old(stats.Snapshot()).(events := old(stats.events) + |events|)
      ensures conn.pollingTimer ==
        if old(conn.pollingTimer).None? && polling && events != [] then Some(|old(conn.sent)|) else old(conn.pollingTimer)
      ensures conn.closed == old(conn.closed) && conn.unsubscribe == old(conn.unsubscribe)
      ensures conn.heartbeat == old(conn.heartbeat)
    {
      var i := 0;
      while i < |events|
        invariant 0 <= i <= |events|
        invariant conn.sent == old(conn.sent) + events[..i]
        invariant stats.Snapshot() == old(stats.Snapshot()).(events := old(stats.events) + i)
        invariant conn.pollingTimer ==
          if old(conn.pollingTimer).None? && polling && i > 0 then Some(|old(conn.sent)|) else old(conn.pollingTimer)
        invariant conn.closed == old(conn.closed) && conn.unsubscribe == old(conn.unsubscribe)
        invariant conn.heartbeat == old(conn.heartbeat)
      {
        assert events[..i + 1] == events[..i] + [events[i]];
        SendEvent(conn, events[i], polling);
        i := i + 1;
      }
      assert events[..i] == events;
    }
  }

  /** Once a prefix of the channels fails, the gathering fails with the same error. */
  lemma {:induction false} GatheredFails(st: Store, channels: seq<string>, k: nat, cursor: int)
    requires k <= |channels| && Gathered(st, channels[..k], cursor).Err?
    ensures Gathered(st, channels, cursor) == Gathered(st, channels[..k], cursor)
    decreases |channels| - k
  {
    if k < |channels| {
      var n := |channels| - 1;
      assert channels[..n][..k] == channels[..k];
      GatheredFails(st, channels[..n], k, cursor);
    } else {
      assert channels[..k] == channels;
    }
  }
}
