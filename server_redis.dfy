/**
 * The server's shared pub/sub connection (lib/redisse/server/redis.rb): whether it
 * is connected, the one-shot listeners fired when it drops, and the callbacks
 * subscribed on each channel.
 *
 * A listener or callback is named by the connection it belongs to. The channel
 * registry follows the pub/sub client: a channel's callbacks in subscription
 * order, removing a callback removes all its occurrences, and a channel left
 * without callbacks is unsubscribed, so no channel maps to an empty list.
 */
module ServerRedis {
  type Registry = map<string, seq<nat>>

  function Callbacks(reg: Registry, channel: string): seq<nat> {
    if channel in reg then reg[channel] else []
  }

  /** The callback added after the channel's others. */
  function Subscribed(reg: Registry, channel: string, cb: nat): Registry {
    reg[channel := Callbacks(reg, channel) + [cb]]
  }

  /** `s` without any occurrence of `cb` (`Array#delete`). */
  function Removed(s: seq<nat>, cb: nat): (r: seq<nat>)
    ensures cb !in r
    ensures forall x :: x != cb ==> (x in r <==> x in s)
    ensures |r| <= |s|
  {
    if |s| == 0 then []
    else if s[0] == cb then Removed(s[1..], cb)
    else [s[0]] + Removed(s[1..], cb)
  }

  /** The callback taken off the channel; the channel is dropped once nothing is left. */
  function Unsubscribed(reg: Registry, channel: string, cb: nat): Registry {
    if channel !in reg || cb !in reg[channel] then reg
    else if Removed(reg[channel], cb) == [] then reg - {channel}
    else reg[channel := Removed(reg[channel], cb)]
  }

  /** `pubsub_subcribe`: the callback on every channel, in order. */
  function SubscribeAll(reg: Registry, channels: seq<string>, cb: nat): Registry
    decreases |channels|
  {
    if |channels| == 0 then reg
    else Subscribed(SubscribeAll(reg, channels[..|channels| - 1], cb), channels[|channels| - 1], cb)
  }

  /** `pubsub_unsubscribe_proc`: the callback off every channel, in order. */
  function UnsubscribeAll(reg: Registry, channels: seq<string>, cb: nat): Registry
    decreases |channels|
  {
    if |channels| == 0 then reg
    else Unsubscribed(UnsubscribeAll(reg, channels[..|channels| - 1], cb), channels[|channels| - 1], cb)
  }

  /** No channel is kept without a callback. */
  ghost predicate Tidy(reg: Registry) {
    forall c :: c in reg ==> reg[c] != []
  }

  ghost predicate Absent(reg: Registry, cb: nat) {
    forall c :: c in reg ==> cb !in reg[c]
  }

  // ---------------------------------------------------------------------------
  // What subscribing and unsubscribing do

  /**
   * After subscribing, the callback is on every given channel; the other channels
   * are untouched and no callback already registered is lost.
   */
  lemma {:induction false} SubscribeAllRegisters(reg: Registry, channels: seq<string>, cb: nat)
    ensures forall c :: c in channels ==> c in SubscribeAll(reg, channels, cb) && cb in SubscribeAll(reg, channels, cb)[c]
    ensures forall c :: c !in channels ==> Callbacks(SubscribeAll(reg, channels, cb), c) == Callbacks(reg, c)
    ensures forall c, x :: x in Callbacks(reg, c) ==> x in Callbacks(SubscribeAll(reg, channels, cb), c)
    ensures Tidy(reg) ==> Tidy(SubscribeAll(reg, channels, cb))
    decreases |channels|
  {
    if |channels| > 0 {
      var n := |channels| - 1;
      SubscribeAllRegisters(reg, channels[..n], cb);
      forall c | c in channels ensures c == channels[n] || c in channels[..n] {
        var i :| 0 <= i < |channels| && channels[i] == c;
        if i < n { assert channels[..n][i] == c; }
      }
    }
  }

  /**
   * After unsubscribing, the callback is on none of the given channels; the other
   * channels are untouched and every other callback stays where it was.
   */
  lemma {:induction false} UnsubscribeAllRemoves(reg: Registry, channels: seq<string>, cb: nat)
    ensures forall c :: c in channels ==> cb !in Callbacks(UnsubscribeAll(reg, channels, cb), c)
    ensures forall c :: c !in channels ==> Callbacks(UnsubscribeAll(reg, channels, cb), c) == Callbacks(reg, c)
    ensures forall c, x :: x != cb ==> (x in Callbacks(UnsubscribeAll(reg, channels, cb), c) <==> x in Callbacks(reg, c))
    ensures Tidy(reg) ==> Tidy(UnsubscribeAll(reg, channels, cb))
    decreases |channels|
  {
    if |channels| > 0 {
      var n := |channels| - 1;
      UnsubscribeAllRemoves(reg, channels[..n], cb);
      forall c | c in channels ensures c == channels[n] || c in channels[..n] {
        var i :| 0 <= i < |channels| && channels[i] == c;
        if i < n { assert channels[..n][i] == c; }
      }
    }
  }

  // ---------------------------------------------------------------------------
  // Unsubscribing undoes subscribing

  /** Every channel's callbacks with `cb` taken out, channels left empty dropped. */
  ghost function Strip(reg: Registry, cb: nat): Registry {
    map c | c in reg && Removed(reg[c], cb) != [] :: Removed(reg[c], cb)
  }

  lemma {:induction false} RemovedTwice(s: seq<nat>, cb: nat)
    ensures Removed(Removed(s, cb), cb) == Removed(s, cb)
  {
    if |s| > 0 {
      RemovedTwice(s[1..], cb);
      if s[0] != cb {
        assert ([s[0]] + Removed(s[1..], cb))[1..] == Removed(s[1..], cb);
      }
    }
  }

  lemma {:induction false} RemovedAbsent(s: seq<nat>, cb: nat)
    requires cb !in s
    ensures Removed(s, cb) == s
  {
    if |s| > 0 {
      assert cb !in s[1..];
      RemovedAbsent(s[1..], cb);
    }
  }

  lemma {:induction false} RemovedSnoc(s: seq<nat>, cb: nat)
    ensures Removed(s + [cb], cb) == Removed(s, cb)
  {
    if |s| == 0 {
      assert Removed([cb], cb) == Removed([cb][1..], cb);
    } else {
      assert (s + [cb])[1..] == s[1..] + [cb];
      RemovedSnoc(s[1..], cb);
    }
  }

  lemma StripSubscribed(reg: Registry, channel: string, cb: nat)
    ensures Strip(Subscribed(reg, channel, cb), cb) == Strip(reg, cb)
  {
    RemovedSnoc(Callbacks(reg, channel), cb);
    if channel !in reg {
      assert Removed([], cb) == [];
    }
  }

  lemma StripUnsubscribed(reg: Registry, channel: string, cb: nat)
    ensures Strip(Unsubscribed(reg, channel, cb), cb) == Strip(reg, cb)
  {
    if channel in reg {
      RemovedTwice(reg[channel], cb);
    }
  }

  lemma {:induction false} StripSubscribeAll(reg: Registry, channels: seq<string>, cb: nat)
    ensures Strip(SubscribeAll(reg, channels, cb), cb) == Strip(reg, cb)
    decreases |channels|
  {
    if |channels| > 0 {
      var n := |channels| - 1;
      StripSubscribeAll(reg, channels[..n], cb);
      StripSubscribed(SubscribeAll(reg, channels[..n], cb), channels[n], cb);
    }
  }

  /** Each channel's callbacks after unsubscribing: `cb` taken out of the given channels. */
  lemma {:induction false} UnsubscribeAllAt(reg: Registry, channels: seq<string>, cb: nat)
    ensures forall c ::
              Callbacks(UnsubscribeAll(reg, channels, cb), c) ==
              (if c in channels then Removed(Callbacks(reg, c), cb) else Callbacks(reg, c))
    ensures Tidy(reg) ==> Tidy(UnsubscribeAll(reg, channels, cb))
    decreases |channels|
  {
    if |channels| > 0 {
      var n := |channels| - 1;
      var u := UnsubscribeAll(reg, channels[..n], cb);
      UnsubscribeAllAt(reg, channels[..n], cb);
      var d := channels[n];
      assert Callbacks(Unsubscribed(u, d, cb), d) == Removed(Callbacks(u, d), cb) by {
        if d in u && cb !in u[d] { RemovedAbsent(u[d], cb); }
      }
      RemovedTwice(Callbacks(reg, d), cb);
      forall c | c in channels ensures c == d || c in channels[..n] {
        var i :| 0 <= i < |channels| && channels[i] == c;
        if i < n { assert channels[..n][i] == c; }
      }
    }
  }

  /** Unsubscribing from every channel that holds the callback leaves exactly `Strip`. */
  lemma UnsubscribeAllStrips(reg: Registry, channels: seq<string>, cb: nat)
    requires forall c :: c in reg && cb in reg[c] ==> c in channels
    requires Tidy(reg)
    ensures UnsubscribeAll(reg, channels, cb) == Strip(reg, cb)
  {
    var u := UnsubscribeAll(reg, channels, cb);
    UnsubscribeAllAt(reg, channels, cb);
    forall c | c in reg && c !in channels ensures Removed(reg[c], cb) == reg[c] {
      RemovedAbsent(reg[c], cb);
    }
    var t := Strip(reg, cb);
    forall c ensures (c in u <==> c in t) && (c in u ==> u[c] == t[c]) {
      assert Callbacks(u, c) == Callbacks(t, c);
    }
    assert u == t;
  }

  lemma StripAbsent(reg: Registry, cb: nat)
    requires Tidy(reg) && Absent(reg, cb)
    ensures Strip(reg, cb) == reg
  {
    forall c | c in reg ensures Removed(reg[c], cb) == reg[c] {
      RemovedAbsent(reg[c], cb);
    }
  }

  /**
   * A connection that subscribes and later unsubscribes from the same channels
   * leaves the registry as it found it.
   */
  lemma SubscribeThenUnsubscribe(reg: Registry, channels: seq<string>, cb: nat)
    requires Tidy(reg) && Absent(reg, cb)
    ensures UnsubscribeAll(SubscribeAll(reg, channels, cb), channels, cb) == reg
  {
    var s := SubscribeAll(reg, channels, cb);
    SubscribeAllRegisters(reg, channels, cb);
    assert forall c :: c in s && cb in s[c] ==> c in channels;
    UnsubscribeAllStrips(s, channels, cb);
    StripSubscribeAll(reg, channels, cb);
    StripAbsent(reg, cb);
  }

  // ---------------------------------------------------------------------------
  // The connection monitor

  class Monitor {
    /** `@pubsub` has been created. */
    var created: bool
    /** `@pubsub.connected?`. */
    var connected: bool
    /** `@pubsub_errbacks`: the listeners to fire when the connection drops. */
    var errbacks: seq<nat>
    /** The callbacks subscribed on each channel of the connection. */
    var registry: Registry

    constructor ()
      ensures !created && !connected && errbacks == [] && registry == map[]
    {
      created, connected, errbacks, registry := false, false, [], map[];
    }

    /**
     * `ensure_pubsub`: on the first call only, opens the connection (`connects` is
     * whether the backend accepts it) with no listener and no subscription.
     */
    method EnsurePubsub(connects: bool)
      modifies this
      ensures old(created) ==> unchanged(this)
      ensures !old(created) ==> created && connected == connects && errbacks == [] && registry == map[]
    {
      if created {
        return;
      }
      created, connected, errbacks, registry := true, connects, [], map[];
    }

    /**
     * `pubsub`: with the connection up, registers the listener once and accepts;
     * with it down, registers nothing and refuses.
     */
    method Pubsub(listener: nat, connects: bool) returns (ok: bool)
      modifies this
      ensures created
      ensures ok == (if old(created) then old(connected) else connects) && connected == ok
      ensures errbacks == (if old(created) then old(errbacks) else []) + (if ok then [listener] else [])
      ensures registry == (if old(created) then old(registry) else map[])
    {
      EnsurePubsub(connects);
      if !connected {
        return false;
      }
      errbacks := errbacks + [listener];
      return true;
    }

    /** `on_redis_close`: every listener fired once, in registration order, and none kept. */
    method OnRedisClose() returns (fired: seq<nat>)
      modifies this
      ensures fired == old(errbacks) && errbacks == []
      ensures created == old(created) && connected == old(connected) && registry == old(registry)
    {
      fired := [];
      var i := 0;
      while i < |errbacks|
        invariant 0 <= i <= |errbacks|
        invariant fired == errbacks[..i]
      {
        fired := fired + [errbacks[i]];
        i := i + 1;
      }
      assert errbacks[..i] == errbacks;
      errbacks := [];
    }

    /** The backend drops the connection: listeners are fired by the `:disconnected` handler. */
    method Disconnect() returns (fired: seq<nat>)
      modifies this
      ensures !connected && fired == old(errbacks) && errbacks == []
      ensures created == old(created) && registry == old(registry)
    {
      connected := false;
      fired := OnRedisClose();
    }

    /** The client reconnects on its own once the backend is back. */
    method Reconnect()
      modifies this
      requires created
      ensures connected && errbacks == old(errbacks) && registry == old(registry) && created
    {
      connected := true;
    }

    /** `pubsub_subcribe`: subscribes the callback to each channel in turn. */
    method Subscribe(channels: seq<string>, cb: nat)
      modifies this
      ensures registry == SubscribeAll(old(registry), channels, cb)
      ensures created == old(created) && connected == old(connected) && errbacks == old(errbacks)
    {
      var i := 0;
      while i < |channels|
        invariant 0 <= i <= |channels|
        invariant registry == SubscribeAll(old(registry), channels[..i], cb)
        invariant created == old(created) && connected == old(connected) && errbacks == old(errbacks)
      {
        assert channels[..i + 1][..i] == channels[..i];
        registry := Subscribed(registry, channels[i], cb);
        i := i + 1;
      }
      assert channels[..i] == channels;
    }

    /** `pubsub_unsubscribe_proc`: takes the callback off each channel in turn. */
    method Unsubscribe(channels: seq<string>, cb: nat)
      modifies this
      ensures registry == UnsubscribeAll(old(registry), channels, cb)
      ensures created == old(created) && connected == old(connected) && errbacks == old(errbacks)
    {
      var i := 0;
      while i < |channels|
        invariant 0 <= i <= |channels|
        invariant registry == UnsubscribeAll(old(registry), channels[..i], cb)
        invariant created == old(created) && connected == old(connected) && errbacks == old(errbacks)
      {
        assert channels[..i + 1][..i] == channels[..i];
        registry := Unsubscribed(registry, channels[i], cb);
        i := i + 1;
      }
      assert channels[..i] == channels;
    }
  }
}
