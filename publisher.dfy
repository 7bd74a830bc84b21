/**
 * lib/redisse/publisher.rb: `RedisPublisher`, which numbers every event with one
 * global counter, sends it to the channel's live subscribers and keeps the newest
 * `HISTORY_SIZE` events of each channel in a sorted set scored by id; and
 * `TestPublisher`, an in-memory record of publishes with an optional type filter.
 */
module Publisher {
  import opened Wrappers
  import opened Text
  import opened ServerSentEvents
  import opened RedisStore

  /** `REDISSE_LAST_EVENT_ID`: the key of the global event counter. */
  const LastEventIdKey := "redisse:lastEventId"

  /** `HISTORY_SIZE`: the number of events kept per channel. */
  const HistorySize := 100

  /** `server_sent_event(message, type: type, id: event_id)`. */
  function EventFor(message: Option<string>, eventType: Option<string>, id: int): string {
    ServerSentEvent(message, Options(None, Some(IntToString(id)), eventType))
  }

  /** The commands `publish` sends once it has the id, each of which raises on an error reply. */
  datatype Write =
    | Publish(channel: string, payload: string)
    | ZAdd(key: string, score: int, member: string)
    | ZRemRangeByRank(key: string, start: int, stop: int)

  /** One command: the new store, and the error reply if there is one. */
  function Exec(st: Store, w: Write): (Store, Option<string>) {
    match w
    case Publish(channel, payload) => (PublishCmd(st, channel, payload), None)
    case ZAdd(key, score, member) =>
      var r := ZAddCmd(st, key, score, member);
      (r.0, if r.1.Err? then Some(r.1.message) else None)
    case ZRemRangeByRank(key, start, stop) =>
      var r := ZRemRangeByRankCmd(st, key, start, stop);
      (r.0, if r.1.Err? then Some(r.1.message) else None)
  }

  /** The commands in order; the first error reply raises, so the later ones are not sent. */
  function Run(st: Store, ws: seq<Write>): (Store, Option<string>)
    decreases |ws|
  {
    if |ws| == 0 then (st, None)
    else
      var first := Exec(st, ws[0]);
      if first.1.Some? then first else Run(first.0, ws[1..])
  }

  /** Three commands that succeed leave the store the last one leaves. */
  lemma RunThree(st: Store, a: Write, b: Write, c: Write)
    requires Exec(st, a).1.None? && Exec(Exec(st, a).0, b).1.None?
    ensures Run(st, [a, b, c]) == Exec(Exec(Exec(st, a).0, b).0, c)
  {
    var s1 := Exec(st, a).0;
    var s2 := Exec(s1, b).0;
    assert [a, b, c][0] == a && [a, b, c][1..] == [b, c];
    assert Run(st, [a, b, c]) == Run(s1, [b, c]);
    assert [b, c][0] == b && [b, c][1..] == [c];
    assert Run(s1, [b, c]) == Run(s2, [c]);
    assert [c][0] == c && [c][1..] == [];
    assert Run(Exec(s2, c).0, []) == (Exec(s2, c).0, None);
  }

  /** `PUBLISH` the encoded event, `ZADD` it under its id, then `ZREMRANGEBYRANK channel 0 -101`. */
  function Writes(channel: string, event: string, id: int): seq<Write> {
    [Publish(channel, event), ZAdd(channel, id, event), ZRemRangeByRank(channel, 0, -1 - HistorySize)]
  }

  /**
   * `publish(channel, message, type)`: `INCR` the counter, then the three writes
   * with the encoded event; the id, or the error of the first command that fails.
   */
  function PublishEffect(st: Store, channel: string, message: Option<string>, eventType: Option<string>)
    : (r: (Store, Result<int>))
  {
    var incr := IncrCmd(st, LastEventIdKey);
    if incr.1.Err? then (incr.0, Err(incr.1.message))
    else
      var run := Run(incr.0, Writes(channel, EventFor(message, eventType, incr.1.value), incr.1.value));
      if run.1.Some? then (run.0, Err(run.1.value)) else (run.0, Ok(incr.1.value))
  }

  // ---------------------------------------------------------------------------
  // The store as publishes leave it

  /** The last id handed out: the counter, 0 before the first publish. */
  function LastId(st: Store): int {
    if LastEventIdKey in st.keys && st.keys[LastEventIdKey].Counter? then st.keys[LastEventIdKey].n else 0
  }

  /** The first line of the event published with `id`. */
  function IdLine(id: int): string {
    "id: " + IntToString(id) + "\n"
  }

  /**
   * A channel history: at most `HISTORY_SIZE` entries with strictly increasing ids
   * between 1 and the last id handed out, each the event published with that id.
   */
  predicate History(s: seq<Entry>, last: int) {
    && |s| <= HistorySize
    && IncreasingScores(s)
    && forall i :: 0 <= i < |s| ==> 1 <= s[i].score <= last && StartsWith(s[i].member, IdLine(s[i].score))
  }

  /** The counter key holds a counter and every other key a channel history. */
  predicate Valid(st: Store) {
    && LastId(st) >= 0
    && (LastEventIdKey in st.keys ==> st.keys[LastEventIdKey].Counter?)
    && forall k :: k in st.keys && k != LastEventIdKey ==>
         st.keys[k].SortedSet? && History(st.keys[k].entries, LastId(st))
  }

  lemma EmptyValid()
    ensures Valid(Empty)
  {
  }

  /** What one publish on `channel` relies on: the counter, and that channel's history. */
  predicate Ready(st: Store, channel: string) {
    && LastId(st) >= 0
    && (LastEventIdKey in st.keys ==> st.keys[LastEventIdKey].Counter?)
    && (channel in st.keys ==> st.keys[channel].SortedSet?)
    && History(SetAt(st, channel), LastId(st))
  }

  lemma ValidReady(st: Store, channel: string)
    requires Valid(st) && channel != LastEventIdKey
    ensures Ready(st, channel)
  {
    if channel in st.keys {
      assert History(st.keys[channel].entries, LastId(st));
    }
  }

  /** Every published event starts with its id line (no `retry` option is given). */
  lemma EventIdLine(message: Option<string>, eventType: Option<string>, id: int)
    ensures StartsWith(EventFor(message, eventType, id), IdLine(id))
  {
    var o := Options(None, Some(IntToString(id)), eventType);
    var rest := FieldLine("event", eventType) + (DataField(Stringify(message)) + "\n");
    assert EventFor(message, eventType, id) == IdLine(id) + rest;
    StartsWithConcat(IdLine(id), rest);
  }

  /** In a string that starts with an id line, the digits run up to the first newline. */
  lemma IdLineShape(m: string, a: nat)
    requires StartsWith(m, IdLine(a))
    ensures 4 + |NatToString(a)| < |m| && m[4 + |NatToString(a)|] == '\n'
    ensures forall j :: 4 <= j < 4 + |NatToString(a)| ==> IsDigit(m[j])
  {
    var x := NatToString(a);
    assert IdLine(a) == "id: " + x + "\n";
    forall j | 4 <= j < 4 + |x| ensures IsDigit(m[j]) {
      assert m[j] == IdLine(a)[j] == x[j - 4];
    }
  }

  /** A string starts with the id line of at most one id. */
  lemma IdLineUnique(m: string, a: nat, b: nat)
    requires StartsWith(m, IdLine(a)) && StartsWith(m, IdLine(b))
    ensures a == b
  {
    var x, y := NatToString(a), NatToString(b);
    assert IdLine(a) == "id: " + x + "\n" && IdLine(b) == "id: " + y + "\n";
    IdLineShape(m, a);
    IdLineShape(m, b);
    assert |x| == |y|;
    IdLineDigits(m, a);
    IdLineDigits(m, b);
    NatToStringInjective(a, b);
  }

  /** The digits of an id line at the head of `m`. */
  lemma IdLineDigits(m: string, a: nat)
    requires StartsWith(m, IdLine(a))
    ensures m[4..4 + |NatToString(a)|] == NatToString(a)
  {
    var x, p := NatToString(a), IdLine(a);
    assert p == "id: " + x + "\n";
    assert m[..|p|] == p;
    forall j | 4 <= j < 4 + |x| ensures m[j] == x[j - 4] {
      assert m[j] == m[..|p|][j] == p[j];
    }
  }

  /** An event with a new id is not yet a member of any history. */
  lemma NewEventNotMember(s: seq<Entry>, last: int, event: string)
    requires History(s, last) && last >= 0
    requires StartsWith(event, IdLine(last + 1))
    ensures !HasMember(s, event)
  {
    forall i | 0 <= i < |s| ensures s[i].member != event {
      if s[i].member == event {
        IdLineUnique(event, s[i].score, last + 1);
      }
    }
  }

  /** Appending the event with the next id and keeping the newest entries gives a history again. */
  lemma AppendHistory(s: seq<Entry>, last: int, e: Entry)
    requires History(s, last) && last >= 0
    requires e.score == last + 1 && StartsWith(e.member, IdLine(e.score))
    ensures History(KeepNewest(s + [e], HistorySize), last + 1)
  {
    var t := s + [e];
    forall i, j | 0 <= i < j < |t| ensures t[i].score < t[j].score {
      if j == |s| {
        assert t[i] == s[i];
      } else {
        assert t[i] == s[i] && t[j] == s[j];
      }
    }
    assert IncreasingScores(t);
    forall i | 0 <= i < |t| ensures 1 <= t[i].score <= last + 1 && StartsWith(t[i].member, IdLine(t[i].score)) {
      if i < |s| {
        assert t[i] == s[i];
      }
    }
    KeepNewestHighest(t, HistorySize);
    var r := KeepNewest(t, HistorySize);
    forall i | 0 <= i < |r| ensures 1 <= r[i].score <= last + 1 && StartsWith(r[i].member, IdLine(r[i].score)) {
      assert r[i] == t[|t| - |r| + i];
    }
  }

  /** The store after a publish that succeeds: the counter at `id`, the history trimmed after the append. */
  function AfterPublish(st: Store, channel: string, event: string, id: int): Store {
    var kept := KeepNewest(SetAt(st, channel) + [Entry(event, id)], HistorySize);
    Store(st.keys[LastEventIdKey := Counter(id)][channel := SortedSet(kept)],
          st.messages + [Message(channel, event)])
  }

  /** A second update of the same key replaces the first. */
  lemma MapOverwrite<K, V>(m: map<K, V>, k: K, a: V, b: V)
    ensures m[k := a][k := b] == m[k := b]
  {
  }

  /** `ZADD` of a new member scored above every entry appends it. */
  lemma ZAddStep(st: Store, channel: string, e: Entry)
    requires channel !in st.keys || st.keys[channel].SortedSet?
    requires !HasMember(SetAt(st, channel), e.member)
    requires forall i :: 0 <= i < |SetAt(st, channel)| ==> SetAt(st, channel)[i].score < e.score
    ensures Exec(st, ZAdd(channel, e.score, e.member))
         == (st.(keys := st.keys[channel := SortedSet(SetAt(st, channel) + [e])]), None)
  {
    ZAddNewest(SetAt(st, channel), e);
  }

  /** The trim of a non-empty set keeps its newest `HISTORY_SIZE` entries under the key. */
  lemma TrimStep(st: Store, channel: string, t: seq<Entry>)
    requires channel in st.keys && st.keys[channel] == SortedSet(t) && |t| > 0
    ensures Exec(st, ZRemRangeByRank(channel, 0, -1 - HistorySize))
         == (st.(keys := st.keys[channel := SortedSet(KeepNewest(t, HistorySize))]), None)
  {
    TrimKeepsNewest(t, HistorySize);
  }

  /** The writes after `INCR`, for an event whose member is new and whose id is the highest. */
  lemma WritesSteps(st1: Store, channel: string, event: string, id: int)
    requires channel !in st1.keys || st1.keys[channel].SortedSet?
    requires !HasMember(SetAt(st1, channel), event)
    requires forall i :: 0 <= i < |SetAt(st1, channel)| ==> SetAt(st1, channel)[i].score < id
    ensures Run(st1, Writes(channel, event, id))
         == (Store(st1.keys[channel := SortedSet(KeepNewest(SetAt(st1, channel) + [Entry(event, id)], HistorySize))],
                   st1.messages + [Message(channel, event)]),
             None)
  {
    var st2 := PublishCmd(st1, channel, event);
    var t := SetAt(st1, channel) + [Entry(event, id)];
    ZAddStep(st2, channel, Entry(event, id));
    var st3 := st2.(keys := st2.keys[channel := SortedSet(t)]);
    TrimStep(st3, channel, t);
    RunThree(st1, Publish(channel, event), ZAdd(channel, id, event), ZRemRangeByRank(channel, 0, -1 - HistorySize));
    MapOverwrite(st1.keys, channel, SortedSet(t), SortedSet(KeepNewest(t, HistorySize)));
  }

  /** The four commands of a publish on an ordinary channel, one by one. */
  lemma PublishSteps(st: Store, channel: string, message: Option<string>, eventType: Option<string>)
    requires Ready(st, channel) && channel != LastEventIdKey
    ensures var id := LastId(st) + 1;
      PublishEffect(st, channel, message, eventType)
        == (AfterPublish(st, channel, EventFor(message, eventType, id), id), Ok(id))
  {
    var id := LastId(st) + 1;
    var event := EventFor(message, eventType, id);
    var s := SetAt(st, channel);
    var st1 := st.(keys := st.keys[LastEventIdKey := Counter(id)]);
    assert IncrCmd(st, LastEventIdKey) == (st1, Ok(id));
    assert SetAt(st1, channel) == s;
    EventIdLine(message, eventType, id);
    NewEventNotMember(s, LastId(st), event);
    WritesSteps(st1, channel, event, id);
  }

  /** Updates of two other keys leave a key as it was. */
  lemma OtherKeys<K, V>(m: map<K, V>, a: K, x: V, b: K, y: V, k: K)
    requires k != a && k != b
    ensures (k in m[a := x][b := y]) == (k in m)
    ensures k in m ==> m[a := x][b := y][k] == m[k]
  {
  }

  /** A history stays one when more ids have been handed out. */
  lemma HistoryLater(s: seq<Entry>, last: int, later: int)
    requires History(s, last) && last <= later
    ensures History(s, later)
  {
  }

  /** Raising the counter and replacing one channel's history by a history keeps the store valid. */
  lemma ValidAfterUpdate(st: Store, channel: string, kept: seq<Entry>, id: int, messages: seq<Message>)
    requires Valid(st) && channel != LastEventIdKey && LastId(st) <= id
    requires History(kept, id)
    ensures Valid(Store(st.keys[LastEventIdKey := Counter(id)][channel := SortedSet(kept)], messages))
  {
    var st' := Store(st.keys[LastEventIdKey := Counter(id)][channel := SortedSet(kept)], messages);
    assert LastId(st') == id;
    forall k | k in st'.keys && k != LastEventIdKey
      ensures st'.keys[k].SortedSet? && History(st'.keys[k].entries, id)
    {
      if k != channel {
        OtherKeys(st.keys, LastEventIdKey, Counter(id), channel, SortedSet(kept), k);
        HistoryLater(st.keys[k].entries, LastId(st), id);
      }
    }
  }

  /** The store after a successful publish is valid again. */
  lemma AfterPublishValid(st: Store, channel: string, message: Option<string>, eventType: Option<string>)
    requires Valid(st) && channel != LastEventIdKey
    ensures var id := LastId(st) + 1;
      Valid(AfterPublish(st, channel, EventFor(message, eventType, id), id))
  {
    var id := LastId(st) + 1;
    var event := EventFor(message, eventType, id);
    var kept := KeepNewest(SetAt(st, channel) + [Entry(event, id)], HistorySize);
    ValidReady(st, channel);
    AfterPublishReady(st, channel, message, eventType);
    ValidAfterUpdate(st, channel, kept, id, st.messages + [Message(channel, event)]);
  }



  /**
   * One publish on a channel other than the counter's key: the id is one more than
   * the last; the same encoded event is sent live and added to the history, which
   * then holds the newest `HISTORY_SIZE` of its entries and the new one; every other
   * channel is left as it was, and the store stays valid.
   */
  lemma PublishFresh(st: Store, channel: string, message: Option<string>, eventType: Option<string>)
    requires Valid(st) && channel != LastEventIdKey
    ensures var (st', r) := PublishEffect(st, channel, message, eventType);
      var id := LastId(st) + 1;
      var event := EventFor(message, eventType, id);
      && r == Ok(id)
      && LastId(st') == id
      && st'.messages == st.messages + [Message(channel, event)]
      && SetAt(st', channel) == KeepNewest(SetAt(st, channel) + [Entry(event, id)], HistorySize)
      && (forall k :: k != channel && k != LastEventIdKey ==>
            (k in st'.keys <==> k in st.keys) && (k in st.keys ==> st'.keys[k] == st.keys[k]))
      && Valid(st')
  {
    var id := LastId(st) + 1;
    var event := EventFor(message, eventType, id);
    var kept := KeepNewest(SetAt(st, channel) + [Entry(event, id)], HistorySize);
    var after := AfterPublish(st, channel, event, id);
    ValidReady(st, channel);
    PublishSteps(st, channel, message, eventType);
    assert PublishEffect(st, channel, message, eventType) == (after, Ok(id));
    AfterPublishReady(st, channel, message, eventType);
    AfterPublishValid(st, channel, message, eventType);
    forall k | k != channel && k != LastEventIdKey
      ensures (k in after.keys <==> k in st.keys) && (k in st.keys ==> after.keys[k] == st.keys[k])
    {
      OtherKeys(st.keys, LastEventIdKey, Counter(id), channel, SortedSet(kept), k);
    }
  }

  /**
   * The store after a successful publish holds the new id and the trimmed history,
   * and is ready for the next publish on the same channel.
   */
  lemma AfterPublishReady(st: Store, channel: string, message: Option<string>, eventType: Option<string>)
    requires Ready(st, channel) && channel != LastEventIdKey
    ensures var id := LastId(st) + 1;
      var after := AfterPublish(st, channel, EventFor(message, eventType, id), id);
      && SetAt(after, channel) == KeepNewest(SetAt(st, channel) + [Entry(EventFor(message, eventType, id), id)], HistorySize)
      && LastId(after) == id
      && Ready(after, channel)
  {
    var id := LastId(st) + 1;
    var event := EventFor(message, eventType, id);
    var kept := KeepNewest(SetAt(st, channel) + [Entry(event, id)], HistorySize);
    var after := AfterPublish(st, channel, event, id);
    var keys := st.keys[LastEventIdKey := Counter(id)][channel := SortedSet(kept)];
    assert after.keys == keys;
    assert keys[LastEventIdKey] == Counter(id);
    assert LastId(after) == id;
    assert keys[channel] == SortedSet(kept);
    assert SetAt(after, channel) == kept;
    EventIdLine(message, eventType, id);
    AppendHistory(SetAt(st, channel), LastId(st), Entry(event, id));
  }


  /**
   * A publish on the counter's own key: the counter still rises and the event is
   * still sent live, but `ZADD` meets a counter and fails with `WRONGTYPE`, so no
   * history is written and no id is returned.
   */
  lemma PublishOnCounterKey(st: Store, message: Option<string>, eventType: Option<string>)
    requires Valid(st)
    ensures var (st', r) := PublishEffect(st, LastEventIdKey, message, eventType);
      && r == Err(WrongType)
      && st'.keys == st.keys[LastEventIdKey := Counter(LastId(st) + 1)]
      && st'.messages == st.messages
           + [Message(LastEventIdKey, EventFor(message, eventType, LastId(st) + 1))]
  {
    var id := LastId(st) + 1;
    var event := EventFor(message, eventType, id);
    var st1 := st.(keys := st.keys[LastEventIdKey := Counter(id)]);
    assert IncrCmd(st, LastEventIdKey) == (st1, Ok(id));
    var ws := Writes(LastEventIdKey, event, id);
    assert ws[1..] == [ZAdd(LastEventIdKey, id, event), ZRemRangeByRank(LastEventIdKey, 0, -1 - HistorySize)];
    var st2 := PublishCmd(st1, LastEventIdKey, event);
    assert Run(st1, ws) == Run(st2, ws[1..]);
  }

  // ---------------------------------------------------------------------------
  // Successive publishes

  datatype Request = Request(channel: string, message: Option<string>, eventType: Option<string>)

  /** The publishes in order: the final store and each call's outcome. */
  function PublishAll(st: Store, reqs: seq<Request>): (r: (Store, seq<Result<int>>))
    ensures |r.1| == |reqs|
    decreases |reqs|
  {
    if |reqs| == 0 then (st, [])
    else
      var first := PublishEffect(st, reqs[0].channel, reqs[0].message, reqs[0].eventType);
      var rest := PublishAll(first.0, reqs[1..]);
      (rest.0, [first.1] + rest.1)
  }

  /** What one publish on an ordinary channel means for the next: the next id, and a valid store. */
  lemma PublishNext(st: Store, q: Request)
    requires Valid(st) && q.channel != LastEventIdKey
    ensures var r := PublishEffect(st, q.channel, q.message, q.eventType);
      r.1 == Ok(LastId(st) + 1) && LastId(r.0) == LastId(st) + 1 && Valid(r.0)
  {
    PublishFresh(st, q.channel, q.message, q.eventType);
  }

  /** The replies `Ok(first)`, `Ok(first + 1)`, ... of `n` successful publishes. */
  function Consecutive(first: int, n: nat): (r: seq<Result<int>>)
    ensures |r| == n
    ensures forall i :: 0 <= i < n ==> r[i] == Ok(first + i)
    decreases n
  {
    if n == 0 then [] else [Ok(first)] + Consecutive(first + 1, n - 1)
  }

  /** The ids successive publishes return, and the store they leave valid. */
  lemma {:induction false} PublishAllNext(st: Store, reqs: seq<Request>)
    requires Valid(st)
    requires forall i :: 0 <= i < |reqs| ==> reqs[i].channel != LastEventIdKey
    ensures PublishAll(st, reqs).1 == Consecutive(LastId(st) + 1, |reqs|)
    ensures LastId(PublishAll(st, reqs).0) == LastId(st) + |reqs|
    ensures Valid(PublishAll(st, reqs).0)
    decreases |reqs|
  {
    if |reqs| > 0 {
      var q := reqs[0];
      PublishNext(st, q);
      var first := PublishEffect(st, q.channel, q.message, q.eventType);
      PublishAllNext(first.0, reqs[1..]);
      var rest := PublishAll(first.0, reqs[1..]);
      assert PublishAll(st, reqs) == (rest.0, [first.1] + rest.1);
    }
  }

  /**
   * Successive publishes, on any channels other than the counter's key, return the
   * consecutive ids after the last one, so the ids are unique and strictly
   * increasing whichever channel each targets.
   */
  lemma PublishAllIds(st: Store, reqs: seq<Request>)
    requires Valid(st)
    requires forall i :: 0 <= i < |reqs| ==> reqs[i].channel != LastEventIdKey
    ensures var (st', rs) := PublishAll(st, reqs);
      && (forall i :: 0 <= i < |rs| ==> rs[i] == Ok(LastId(st) + i + 1))
      && (forall i, j :: 0 <= i < j < |rs| ==> rs[i].value < rs[j].value)
      && LastId(st') == LastId(st) + |reqs|
      && Valid(st')
  {
    PublishAllNext(st, reqs);
  }

  // ---------------------------------------------------------------------------
  // Ids across channels

  /**
   * No id is stored under two channels: the counter hands each id out once, and
   * a publish stores its event in one channel's history only.
   */
  ghost predicate DistinctIds(st: Store) {
    forall c1, c2, e1, e2 :: c1 != c2 && e1 in SetAt(st, c1) && e2 in SetAt(st, c2) ==> e1.score != e2.score
  }

  /** In a valid store every stored id has already been handed out. */
  lemma StoredIdHandedOut(st: Store, c: string, e: Entry)
    requires Valid(st) && e in SetAt(st, c)
    ensures e.score <= LastId(st)
  {
    var h := SetAt(st, c);
    var i :| 0 <= i < |h| && h[i] == e;
    assert History(st.keys[c].entries, LastId(st));
  }

  /** What the newest of a history and `e` keep is from the history, or `e`. */
  lemma KeptEntry(h: seq<Entry>, e: Entry, x: Entry)
    requires x in KeepNewest(h + [e], HistorySize)
    ensures x == e || x in h
  {
    var s := h + [e];
    var k := KeepNewest(s, HistorySize);
    var i :| 0 <= i < |k| && k[i] == x;
    assert x == s[|s| - |k| + i];
  }

  /**
   * After a write that only replaces `channel`'s history by the newest of it and
   * `e`, and sets the counter, each channel holds entries it held before, or `e`.
   */
  lemma EntryOrOld(st: Store, st': Store, channel: string, e: Entry, c: string, x: Entry)
    requires LastEventIdKey in st'.keys ==> st'.keys[LastEventIdKey].Counter?
    requires channel != LastEventIdKey
    requires SetAt(st', channel) == KeepNewest(SetAt(st, channel) + [e], HistorySize)
    requires forall k :: k != channel && k != LastEventIdKey ==>
               (k in st'.keys <==> k in st.keys) && (k in st.keys ==> st'.keys[k] == st.keys[k])
    requires x in SetAt(st', c)
    ensures (c == channel && x == e) || x in SetAt(st, c)
  {
    if c == channel {
      KeptEntry(SetAt(st, channel), e, x);
    } else if c != LastEventIdKey {
      assert c in st'.keys && st'.keys[c] == st.keys[c];
    }
  }

  /** A publish keeps the ids of different channels apart: its id is new to every history. */
  lemma PublishKeepsDistinctIds(st: Store, channel: string, message: Option<string>, eventType: Option<string>)
    requires Valid(st) && DistinctIds(st) && channel != LastEventIdKey
    ensures DistinctIds(PublishEffect(st, channel, message, eventType).0)
  {
    PublishFresh(st, channel, message, eventType);
    var st' := PublishEffect(st, channel, message, eventType).0;
    var id := LastId(st) + 1;
    var e := Entry(EventFor(message, eventType, id), id);
    forall c1, c2, e1, e2 | c1 != c2 && e1 in SetAt(st', c1) && e2 in SetAt(st', c2)
      ensures e1.score != e2.score
    {
      EntryOrOld(st, st', channel, e, c1, e1);
      EntryOrOld(st, st', channel, e, c2, e2);
      if e1 in SetAt(st, c1) && e2 in SetAt(st, c2) {
      } else if e1 in SetAt(st, c1) {
        StoredIdHandedOut(st, c1, e1);
      } else {
        StoredIdHandedOut(st, c2, e2);
      }
    }
  }

  /** Publishes to ordinary channels keep the store valid and its ids apart across channels. */
  lemma {:induction false} PublishAllKeepsDistinctIds(st: Store, reqs: seq<Request>)
    requires Valid(st) && DistinctIds(st)
    requires forall i :: 0 <= i < |reqs| ==> reqs[i].channel != LastEventIdKey
    ensures Valid(PublishAll(st, reqs).0) && DistinctIds(PublishAll(st, reqs).0)
    decreases |reqs|
  {
    if |reqs| > 0 {
      var q := reqs[0];
      PublishFresh(st, q.channel, q.message, q.eventType);
      PublishKeepsDistinctIds(st, q.channel, q.message, q.eventType);
      var tail := reqs[1..];
      assert forall i :: 0 <= i < |tail| ==> tail[i].channel != LastEventIdKey;
      PublishAllKeepsDistinctIds(PublishEffect(st, q.channel, q.message, q.eventType).0, tail);
    }
  }

  /** Every store the publisher builds from an empty Redis keeps each id in one channel at most. */
  lemma FromEmptyDistinctIds(reqs: seq<Request>)
    requires forall i :: 0 <= i < |reqs| ==> reqs[i].channel != LastEventIdKey
    ensures Valid(PublishAll(Empty, reqs).0) && DistinctIds(PublishAll(Empty, reqs).0)
  {
    EmptyValid();
    PublishAllKeepsDistinctIds(Empty, reqs);
  }

  /** Keeping the newest entries before an append does not change what an append then keeps. */
  lemma KeepNewestAppend(s: seq<Entry>, e: Entry, k: nat)
    ensures KeepNewest(KeepNewest(s, k) + [e], k) == KeepNewest(s + [e], k)
  {
    if |s| > k > 0 {
      var t := s[|s| - k..];
      assert KeepNewest(s, k) == t;
      assert KeepNewest(t + [e], k) == (t + [e])[1..];
      assert (t + [e])[1..] == s[|s| - k + 1..] + [e];
      assert KeepNewest(s + [e], k) == (s + [e])[|s| + 1 - k..];
      assert (s + [e])[|s| + 1 - k..] == s[|s| - k + 1..] + [e];
    }
  }

  /** The entries that publishes add to one channel: each event with its id. */
  function NewEntries(first: int, reqs: seq<Request>): (r: seq<Entry>)
    ensures |r| == |reqs|
    decreases |reqs|
  {
    if |reqs| == 0 then []
    else [Entry(EventFor(reqs[0].message, reqs[0].eventType, first), first)] + NewEntries(first + 1, reqs[1..])
  }

  /** The entry added by the `i`-th publish carries the id `first + i`. */
  lemma {:induction false} NewEntriesIds(first: int, reqs: seq<Request>)
    ensures forall i :: 0 <= i < |reqs| ==> NewEntries(first, reqs)[i].score == first + i
    decreases |reqs|
  {
    if |reqs| > 0 {
      NewEntriesIds(first + 1, reqs[1..]);
    }
  }

  lemma PublishAllFirst(st: Store, reqs: seq<Request>)
    requires |reqs| > 0
    ensures PublishAll(st, reqs).0
         == PublishAll(PublishEffect(st, reqs[0].channel, reqs[0].message, reqs[0].eventType).0, reqs[1..]).0
  {
  }

  /** Trimming after the first append and again after the rest keeps what one trim at the end keeps. */
  lemma TrimTwice(s: seq<Entry>, e: Entry, rest: seq<Entry>)
    ensures KeepNewest(KeepNewest(s + [e], HistorySize) + rest, HistorySize) == KeepNewest(s + ([e] + rest), HistorySize)
  {
    KeepNewestConcat(s + [e], rest, HistorySize);
    assert s + [e] + rest == s + ([e] + rest);
  }

  /** One publish on a ready channel: the next id, the trimmed history, and still ready. */
  lemma PublishOnce(st: Store, channel: string, q: Request)
    requires Ready(st, channel) && channel != LastEventIdKey && q.channel == channel
    ensures var id := LastId(st) + 1;
      var st1 := PublishEffect(st, q.channel, q.message, q.eventType).0;
      && SetAt(st1, channel) == KeepNewest(SetAt(st, channel) + [Entry(EventFor(q.message, q.eventType, id), id)], HistorySize)
      && LastId(st1) == id
      && Ready(st1, channel)
  {
    PublishSteps(st, channel, q.message, q.eventType);
    AfterPublishReady(st, channel, q.message, q.eventType);
  }

  /**
   * After any number of publishes to one channel its history is the newest
   * `HISTORY_SIZE` of all the events it has received, in id order.
   */
  lemma {:induction false} HistoryAfterPublishes(st: Store, channel: string, reqs: seq<Request>)
    requires Ready(st, channel) && channel != LastEventIdKey
    requires forall i :: 0 <= i < |reqs| ==> reqs[i].channel == channel
    ensures SetAt(PublishAll(st, reqs).0, channel)
         == KeepNewest(SetAt(st, channel) + NewEntries(LastId(st) + 1, reqs), HistorySize)
    decreases |reqs|
  {
    var s := SetAt(st, channel);
    if |reqs| == 0 {
      assert s + [] == s;
    } else {
      var q := reqs[0];
      var id := LastId(st) + 1;
      var e := Entry(EventFor(q.message, q.eventType, id), id);
      var rest := NewEntries(id + 1, reqs[1..]);
      PublishOnce(st, channel, q);
      var st1 := PublishEffect(st, q.channel, q.message, q.eventType).0;
      var tail := reqs[1..];
      assert forall i :: 0 <= i < |tail| ==> tail[i].channel == channel;
      HistoryAfterPublishes(st1, channel, tail);
      PublishAllFirst(st, reqs);
      TrimTwice(s, e, rest);
      assert NewEntries(id, reqs) == [e] + rest;
    }
  }

  /**
   * Publishes to a channel with no history yet: it then holds exactly the newest
   * `min(n, HISTORY_SIZE)` of the `n` events, whose ids are the last ones handed out, in order.
   */
  lemma HistoryFromEmpty(st: Store, channel: string, reqs: seq<Request>)
    requires Valid(st) && channel != LastEventIdKey && SetAt(st, channel) == []
    requires forall i :: 0 <= i < |reqs| ==> reqs[i].channel == channel
    ensures var h := SetAt(PublishAll(st, reqs).0, channel);
      && h == KeepNewest(NewEntries(LastId(st) + 1, reqs), HistorySize)
      && |h| == (if |reqs| <= HistorySize then |reqs| else HistorySize)
      && forall i :: 0 <= i < |h| ==> h[i].score == LastId(st) + 1 + |reqs| - |h| + i
  {
    var all := NewEntries(LastId(st) + 1, reqs);
    ValidReady(st, channel);
    HistoryAfterPublishes(st, channel, reqs);
    assert [] + all == all;
    NewEntriesIds(LastId(st) + 1, reqs);
    var h := KeepNewest(all, HistorySize);
    forall i | 0 <= i < |h| ensures h[i].score == LastId(st) + 1 + |reqs| - |h| + i {
      assert h[i] == all[|all| - |h| + i];
    }
  }

  /** Keeping the newest entries before appending several does not change what is kept afterwards. */
  lemma {:induction false} KeepNewestConcat(s: seq<Entry>, rest: seq<Entry>, k: nat)
    ensures KeepNewest(KeepNewest(s, k) + rest, k) == KeepNewest(s + rest, k)
    decreases |rest|
  {
    if |rest| == 0 {
      assert KeepNewest(s, k) + rest == KeepNewest(s, k);
      assert s + rest == s;
    } else {
      var last := rest[|rest| - 1];
      var init := rest[..|rest| - 1];
      assert rest == init + [last];
      KeepNewestConcat(s, init, k);
      KeepNewestAppend(KeepNewest(s, k) + init, last, k);
      KeepNewestAppend(s + init, last, k);
      assert KeepNewest(s, k) + rest == KeepNewest(s, k) + init + [last];
      assert s + rest == s + init + [last];
    }
  }

  // ---------------------------------------------------------------------------
  // The publisher objects

  class RedisPublisher {
    const redis: Redis

    constructor (redis: Redis)
      ensures this.redis == redis
    {
      this.redis := redis;
    }

    /** `RedisPublisher.new(redis)`, which raises without a client. */
    static method Create(redis: Redis?) returns (r: Result<RedisPublisher>)
      ensures r.Err? <==> redis == null
      ensures r.Err? ==> r.message == "RedisPublisher needs a Redis client"
      ensures r.Ok? ==> r.value.redis == redis
    {
      if redis == null {
        return Err("RedisPublisher needs a Redis client");
      }
      var p := new RedisPublisher(redis);
      r := Ok(p);
    }

    /** `publish(channel, message, type)`: the four commands in order, each on the shared store. */
    method Publish(channel: string, message: Option<string>, eventType: Option<string>) returns (r: Result<int>)
      modifies redis
      ensures (redis.store, r) == PublishEffect(old(redis.store), channel, message, eventType)
    {
      var id := redis.Incr(LastEventIdKey);
      if id.Err? {
        return Err(id.message);
      }
      var event := EventFor(message, eventType, id.value);
      ghost var ws := Writes(channel, event, id.value);
      ghost var st1 := redis.store;
      redis.Publish(channel, event);
      ghost var st2 := redis.store;
      var added := redis.ZAdd(channel, id.value, event);
      if added.Err? {
        assert Run(st1, ws) == Run(st2, ws[1..]) == (redis.store, Some(added.message));
        return Err(added.message);
      }
      ghost var st3 := redis.store;
      var removed := redis.ZRemRangeByRank(channel, 0, -1 - HistorySize);
      assert Run(st1, ws) == Run(st2, ws[1..]) == Run(st3, ws[2..]);
      match removed {
        case Err(m) => r := Err(m);
        case Ok(_) =>
          assert Run(redis.store, ws[3..]) == (redis.store, None);
          r := Ok(id.value);
      }
    }
  }

  /** `TestPublisher::Event = Struct.new :channel, :json, :type`. */
  datatype Record = Record(channel: string, json: string, eventType: Option<string>)

  /** `return if filter && type != filter`: whether a publish of that type is stored. */
  predicate Passes(filter: Option<string>, eventType: Option<string>) {
    !(filter.Some? && eventType != filter)
  }

  /** The records a run of publishes stores under one filter, in order. */
  function Kept(filter: Option<string>, calls: seq<Record>): (r: seq<Record>)
    ensures |r| <= |calls|
  {
    if |calls| == 0 then []
    else (if Passes(filter, calls[0].eventType) then [calls[0]] else []) + Kept(filter, calls[1..])
  }

  /** The stored records are exactly the publishes whose type passes the filter. */
  lemma {:induction false} KeptMembers(filter: Option<string>, calls: seq<Record>, x: Record)
    ensures x in Kept(filter, calls) <==> x in calls && Passes(filter, x.eventType)
    decreases |calls|
  {
    if |calls| > 0 {
      KeptMembers(filter, calls[1..], x);
      assert calls == [calls[0]] + calls[1..];
    }
  }

  lemma {:induction false} KeptConcat(filter: Option<string>, a: seq<Record>, b: seq<Record>)
    ensures Kept(filter, a + b) == Kept(filter, a) + Kept(filter, b)
    decreases |a|
  {
    if |a| == 0 {
      assert a + b == b;
    } else {
      var h := if Passes(filter, a[0].eventType) then [a[0]] else [];
      assert (a + b)[0] == a[0] && (a + b)[1..] == a[1..] + b;
      assert Kept(filter, a + b) == h + Kept(filter, a[1..] + b);
      KeptConcat(filter, a[1..], b);
      assert Kept(filter, a) == h + Kept(filter, a[1..]);
      RecordsAssoc(h, Kept(filter, a[1..]), Kept(filter, b));
    }
  }

  lemma RecordsAssoc(a: seq<Record>, b: seq<Record>, c: seq<Record>)
    ensures a + (b + c) == (a + b) + c
  {
  }

  /** Without a filter every publish is stored, in order. */
  lemma {:induction false} KeptUnfiltered(calls: seq<Record>)
    ensures Kept(None, calls) == calls
    decreases |calls|
  {
    if |calls| > 0 {
      KeptUnfiltered(calls[1..]);
      assert [calls[0]] + calls[1..] == calls;
    }
  }

  class TestPublisher {
    var published: seq<Record>
    var filter: Option<string>

    /** `TestPublisher.new`: nothing published, no filter. */
    constructor ()
      ensures published == [] && filter == None
    {
      published, filter := [], None;
    }

    /** `filter=`. */
    method SetFilter(f: Option<string>)
      modifies this
      ensures filter == f && published == old(published)
    {
      filter := f;
    }

    /**
     * `publish(channel, message, type)`: one record appended at the end, unless a
     * filter is set and the type differs from it.
     */
    method Publish(channel: string, message: string, eventType: Option<string>)
      modifies this
      ensures filter == old(filter)
      ensures published == old(published) + Kept(filter, [Record(channel, message, eventType)])
    {
      if filter.Some? && eventType != filter {
        return;
      }
      published := published + [Record(channel, message, eventType)];
    }
  }
}
