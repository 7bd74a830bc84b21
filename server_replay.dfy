/**
 * The history a connection is sent when it subscribes (lib/redisse/server.rb):
 * every entry of its channels from the cursor on, merged by id, with the cursor's
 * own event dropped or a `missedevents` marker in front when it is gone; or, with
 * nothing to replay, a `lastEventId` event carrying the current id.
 */
module ServerReplay {
  import opened Wrappers
  import opened Text
  import opened ServerSentEvents
  import opened RedisStore
  import opened Publisher
  import opened ServerRequests

  /** The marker put in front of a replay that starts after a gap. */
  const MissedEvents := ServerSentEvent(None, Options(None, None, Some("missedevents")))

  /** `LAST_EVENT_ID_EVENT % id`: an event with no data whose id is the store's current id. */
  function LastEventIdEvent(id: string): string {
    ServerSentEvent(None, Options(None, Some(id), Some("lastEventId")))
  }

  lemma MissedEventsShape()
    ensures MissedEvents == "event: missedevents\ndata: \n\n"
  {
    assert DataField("") == "data: \n";
    assert FieldLine("event", Some("missedevents")) == "event: missedevents\n";
  }

  lemma LastEventIdEventShape(id: string)
    ensures LastEventIdEvent(id) == "id: " + id + "\n" + "event: lastEventId\ndata: \n\n"
  {
    assert FieldLine("event", Some("lastEventId")) + (DataField("") + "\n") == "event: lastEventId\ndata: \n\n";
    assert FieldLine("retry", None) == "";
  }

  // ---------------------------------------------------------------------------
  // Gathering the channels' histories

  /**
   * `events_for_channels` before sorting: each channel's entries with an id at
   * least the cursor (`events_for_channel`), channel after channel. A channel
   * holding a counter makes the range query fail, and the replay with it.
   */
  function Gathered(st: Store, channels: seq<string>, cursor: int): Result<seq<Entry>>
    decreases |channels|
  {
    if |channels| == 0 then Ok([])
    else
      var n := |channels| - 1;
      match Gathered(st, channels[..n], cursor)
      case Err(m) => Err(m)
      case Ok(acc) =>
        match ZRangeByScoreCmd(st, channels[n], cursor)
        case Err(m) => Err(m)
        case Ok(es) => Ok(acc + es)
  }

  /** The range query fails exactly on a channel that holds a counter. */
  predicate OnCounter(st: Store, channels: seq<string>) {
    exists c :: c in channels && c in st.keys && st.keys[c].Counter?
  }

  /**
   * The gathered entries are exactly those of the channels' histories with an id
   * at least the cursor; the gathering fails exactly when a channel holds a counter.
   */
  lemma {:induction false} GatheredEntries(st: Store, channels: seq<string>, cursor: int)
    ensures Gathered(st, channels, cursor).Err? <==> OnCounter(st, channels)
    ensures Gathered(st, channels, cursor).Ok? ==> forall e ::
      e in Gathered(st, channels, cursor).value <==>
        e.score >= cursor && exists c :: c in channels && e in SetAt(st, c)
    decreases |channels|
  {
    if |channels| > 0 {
      var n := |channels| - 1;
      var init := channels[..n];
      GatheredEntries(st, init, cursor);
      assert forall c :: c in channels <==> c in init || c == channels[n] by {
        forall c | c in channels ensures c in init || c == channels[n] {
          var i :| 0 <= i < |channels| && channels[i] == c;
          if i < n { assert init[i] == c; }
        }
      }
      if Gathered(st, channels, cursor).Ok? {
        var h := SetAt(st, channels[n]);
        forall e | e in h && e.score >= cursor ensures e in RangeFrom(h, cursor) {
          var i :| 0 <= i < |h| && h[i] == e;
        }
      }
    }
  }

  // ---------------------------------------------------------------------------
  // `sort_by!(&:last)`

  predicate SortedById(s: seq<Entry>) {
    forall i, j :: 0 <= i < j < |s| ==> s[i].score <= s[j].score
  }

  /** `e` put in front of the first entry whose id is not below its own. */
  function InsertById(e: Entry, s: seq<Entry>): seq<Entry> {
    if |s| == 0 || e.score <= s[0].score then [e] + s
    else [s[0]] + InsertById(e, s[1..])
  }

  lemma {:induction false} InsertByIdSorted(e: Entry, s: seq<Entry>)
    requires SortedById(s)
    ensures SortedById(InsertById(e, s))
    ensures multiset(InsertById(e, s)) == multiset(s) + multiset{e}
    ensures |InsertById(e, s)| > 0 && InsertById(e, s)[0] == (if |s| == 0 || e.score <= s[0].score then e else s[0])
  {
    InsertByIdPermutes(e, s);
    if |s| == 0 || e.score <= s[0].score {
      ConsSorted(e, s);
    } else {
      InsertByIdSorted(e, s[1..]);
      InsertByIdBound(e, s[1..], s[0].score);
      ConsSorted(s[0], InsertById(e, s[1..]));
    }
  }

  lemma {:induction false} InsertByIdPermutes(e: Entry, s: seq<Entry>)
    ensures multiset(InsertById(e, s)) == multiset(s) + multiset{e}
  {
    if |s| > 0 && e.score > s[0].score {
      InsertByIdPermutes(e, s[1..]);
      assert s == [s[0]] + s[1..];
    }
  }

  /** A lower bound on the ids of `s` and of `e` bounds the ids after the insertion. */
  lemma {:induction false} InsertByIdBound(e: Entry, s: seq<Entry>, b: int)
    requires b <= e.score && forall i :: 0 <= i < |s| ==> b <= s[i].score
    ensures forall j :: 0 <= j < |InsertById(e, s)| ==> b <= InsertById(e, s)[j].score
  {
    if |s| > 0 && e.score > s[0].score {
      InsertByIdBound(e, s[1..], b);
    }
  }

  lemma ConsSorted(x: Entry, t: seq<Entry>)
    requires SortedById(t) && forall j :: 0 <= j < |t| ==> x.score <= t[j].score
    ensures SortedById([x] + t)
  {
  }

  /** An insertion sort by id: the result is ordered by id and holds the same entries. */
  function SortById(s: seq<Entry>): (r: seq<Entry>)
    ensures SortedById(r)
    ensures multiset(r) == multiset(s)
  {
    if |s| == 0 then []
    else
      var rest := SortById(s[1..]);
      InsertByIdSorted(s[0], rest);
      assert s == [s[0]] + s[1..];
      InsertById(s[0], rest)
  }

  /** A history already in id order is left as it is. */
  lemma {:induction false} SortIncreasing(s: seq<Entry>)
    requires IncreasingScores(s)
    ensures SortById(s) == s
  {
    if |s| > 0 {
      assert IncreasingScores(s[1..]);
      SortIncreasing(s[1..]);
    }
  }

  // ---------------------------------------------------------------------------
  // `handle_missing_events`

  function Members(s: seq<Entry>): (r: seq<string>)
    ensures |r| == |s| && forall i :: 0 <= i < |s| ==> r[i] == s[i].member
  {
    if |s| == 0 then [] else [s[0].member] + Members(s[1..])
  }

  /**
   * `handle_missing_events` then `map(&:first)`: nothing to do on an empty list;
   * the first event dropped when it is the cursor's own; otherwise the marker in front.
   */
  function HandleMissing(events: seq<Entry>, cursor: int): seq<string> {
    if |events| == 0 then []
    else if events[0].score == cursor then Members(events[1..])
    else [MissedEvents] + Members(events)
  }

  /** The entries with an id above `k`. */
  function Above(s: seq<Entry>, k: int): (r: seq<Entry>)
    ensures forall e :: e in r <==> e in s && e.score > k
  {
    if |s| == 0 then []
    else if s[0].score > k then [s[0]] + Above(s[1..], k)
    else Above(s[1..], k)
  }

  lemma {:induction false} AboveAll(s: seq<Entry>, k: int)
    requires forall i :: 0 <= i < |s| ==> s[i].score > k
    ensures Above(s, k) == s
  {
    if |s| > 0 {
      AboveAll(s[1..], k);
    }
  }

  /** The cursor's event is missing from the history while later ones exist. */
  predicate Gap(s: seq<Entry>, cursor: int) {
    (forall e :: e in s ==> e.score != cursor) && exists e :: e in s && e.score > cursor
  }

  /**
   * Gap detection on a list in strictly increasing id order, none below the cursor:
   * what is replayed is every event after the cursor, with the marker in front
   * exactly when the cursor's event is no longer there.
   */
  lemma GapDetection(events: seq<Entry>, cursor: int)
    requires IncreasingScores(events)
    requires forall i :: 0 <= i < |events| ==> events[i].score >= cursor
    ensures HandleMissing(events, cursor) ==
      (if Gap(events, cursor) then [MissedEvents] else []) + Members(Above(events, cursor))
  {
    if |events| > 0 {
      AfterFirst(events);
      if events[0].score == cursor {
        CursorKept(events, cursor);
      } else {
        CursorGone(events, cursor);
      }
    }
  }

  lemma CursorKept(events: seq<Entry>, cursor: int)
    requires |events| > 0 && events[0].score == cursor
    requires forall i :: 0 <= i < |events[1..]| ==> events[1..][i].score > cursor
    ensures !Gap(events, cursor)
    ensures HandleMissing(events, cursor) == Members(Above(events, cursor))
  {
    assert events[0] in events;
    AboveAll(events[1..], cursor);
    assert Above(events, cursor) == Above(events[1..], cursor);
  }

  lemma CursorGone(events: seq<Entry>, cursor: int)
    requires |events| > 0 && events[0].score > cursor
    requires forall e :: e in events ==> e.score >= events[0].score
    ensures Gap(events, cursor)
    ensures HandleMissing(events, cursor) == [MissedEvents] + Members(Above(events, cursor))
  {
    assert forall i :: 0 <= i < |events| ==> events[i] in events;
    AboveAll(events, cursor);
    assert events[0] in events;
  }

  /** In strictly increasing order, every entry but the first comes after the first. */
  lemma AfterFirst(s: seq<Entry>)
    requires IncreasingScores(s) && |s| > 0
    ensures forall i :: 0 <= i < |s[1..]| ==> s[1..][i].score > s[0].score
    ensures forall e :: e in s ==> e.score >= s[0].score
  {
    forall i | 0 <= i < |s[1..]| ensures s[1..][i].score > s[0].score {
      assert s[1..][i] == s[i + 1];
    }
  }

  // ---------------------------------------------------------------------------
  // The whole replay

  /** `events_for_channels`: gathered, sorted by id, then gap handling. */
  function Replay(st: Store, channels: seq<string>, cursor: int): Result<seq<string>> {
    match Gathered(st, channels, cursor)
    case Err(m) => Err(m)
    case Ok(g) => Ok(HandleMissing(SortById(g), cursor))
  }

  /**
   * Replaying one channel of a store the publisher keeps: the events published
   * after the cursor, in id order, with the marker exactly when the history no
   * longer holds the cursor's event.
   */
  lemma SingleChannelReplay(st: Store, channel: string, cursor: int)
    requires Valid(st) && channel != LastEventIdKey
    ensures var h := SetAt(st, channel);
      Replay(st, [channel], cursor) == Ok((if Gap(h, cursor) then [MissedEvents] else []) + Members(Above(h, cursor)))
  {
    var h := SetAt(st, channel);
    assert [channel][..0] == [];
    assert Gathered(st, [channel], cursor) == Ok([] + RangeFrom(h, cursor));
    assert [] + RangeFrom(h, cursor) == RangeFrom(h, cursor);
    var r := RangeFrom(h, cursor);
    RangeFromIncreasing(h, cursor);
    SortIncreasing(r);
    GapDetection(r, cursor);
    AboveRange(h, cursor);
    GapRange(h, cursor);
  }

  lemma {:induction false} RangeFromIncreasing(s: seq<Entry>, min: int)
    requires IncreasingScores(s)
    ensures IncreasingScores(RangeFrom(s, min))
  {
    if |s| > 0 {
      assert IncreasingScores(s[1..]);
      RangeFromIncreasing(s[1..], min);
      var t := RangeFrom(s[1..], min);
      forall j | 0 <= j < |t| ensures s[0].score < t[j].score {
        assert t[j] in t;
        var k :| 0 <= k < |s[1..]| && s[1..][k] == t[j];
        assert s[k + 1] == t[j];
      }
    }
  }

  /** Above the cursor, the range from the cursor is the whole history. */
  lemma {:induction false} AboveRange(s: seq<Entry>, min: int)
    ensures Above(RangeFrom(s, min), min) == Above(s, min)
  {
    if |s| > 0 {
      AboveRange(s[1..], min);
      if s[0].score >= min {
        var t := RangeFrom(s[1..], min);
        assert ([s[0]] + t)[1..] == t;
      }
    }
  }

  /** The range from the cursor has a gap exactly when the whole history has one. */
  lemma GapRange(s: seq<Entry>, min: int)
    ensures Gap(RangeFrom(s, min), min) == Gap(s, min)
  {
    var r := RangeFrom(s, min);
    forall e | e in s && e.score >= min ensures e in r {
      var i :| 0 <= i < |s| && s[i] == e;
    }
  }

  /** A channel whose every retained event is newer than the cursor replays after a marker. */
  lemma ReplayPastCursor(st: Store, channel: string, cursor: int)
    requires Valid(st) && channel != LastEventIdKey
    requires var h := SetAt(st, channel); |h| > 0 && forall i :: 0 <= i < |h| ==> h[i].score > cursor
    ensures Replay(st, [channel], cursor) == Ok([MissedEvents] + Members(SetAt(st, channel)))
  {
    var h := SetAt(st, channel);
    SingleChannelReplay(st, channel, cursor);
    AboveAll(h, cursor);
    assert h[0] in h;
  }

  /**
   * More than `HISTORY_SIZE` publishes on a channel that had no history: a client
   * whose cursor is the first of them gets the `missedevents` marker, then the
   * newest `HISTORY_SIZE` events in id order (the first ones were evicted).
   */
  lemma ReplayAfterEviction(st: Store, channel: string, reqs: seq<Publisher.Request>)
    requires Valid(st) && channel != LastEventIdKey && SetAt(st, channel) == []
    requires forall i :: 0 <= i < |reqs| ==> reqs[i].channel == channel
    requires |reqs| > HistorySize
    ensures var first := LastId(st) + 1;
      Replay(PublishAll(st, reqs).0, [channel], first)
        == Ok([MissedEvents] + Members(NewEntries(first, reqs)[|reqs| - HistorySize..]))
  {
    var first := LastId(st) + 1;
    var fin := PublishAll(st, reqs).0;
    HistoryFromEmpty(st, channel, reqs);
    var h := SetAt(fin, channel);
    assert |h| == HistorySize;
    assert h == NewEntries(first, reqs)[|reqs| - HistorySize..];
    assert forall i :: 0 <= i < |h| ==> h[i].score > first;
    PublishAllNext(st, reqs);
    ReplayPastCursor(fin, channel, first);
  }

  // ---------------------------------------------------------------------------
  // Several channels

  /** The channels' histories, channel after channel. */
  function Histories(st: Store, channels: seq<string>): seq<Entry>
    decreases |channels|
  {
    if |channels| == 0 then []
    else Histories(st, channels[..|channels| - 1]) + SetAt(st, channels[|channels| - 1])
  }

  lemma {:induction false} HistoriesMembers(st: Store, channels: seq<string>)
    ensures forall e :: e in Histories(st, channels) <==> exists c :: c in channels && e in SetAt(st, c)
    decreases |channels|
  {
    if |channels| > 0 {
      var n := |channels| - 1;
      var init := channels[..n];
      HistoriesMembers(st, init);
      assert forall c :: c in channels <==> c in init || c == channels[n] by {
        forall c | c in channels ensures c in init || c == channels[n] {
          var i :| 0 <= i < |channels| && channels[i] == c;
          if i < n { assert init[i] == c; }
        }
      }
    }
  }

  lemma {:induction false} RangeFromConcat(a: seq<Entry>, b: seq<Entry>, min: int)
    ensures RangeFrom(a + b, min) == RangeFrom(a, min) + RangeFrom(b, min)
    decreases |a|
  {
    if |a| == 0 {
      assert a + b == b;
    } else {
      assert (a + b)[0] == a[0] && (a + b)[1..] == a[1..] + b;
      RangeFromConcat(a[1..], b, min);
    }
  }

  /** With no channel on the counter, the gathering is the range of all the histories. */
  lemma {:induction false} GatheredHistories(st: Store, channels: seq<string>, cursor: int)
    requires !OnCounter(st, channels)
    ensures Gathered(st, channels, cursor) == Ok(RangeFrom(Histories(st, channels), cursor))
    decreases |channels|
  {
    if |channels| > 0 {
      var n := |channels| - 1;
      var init := channels[..n];
      assert forall c :: c in init ==> c in channels;
      GatheredHistories(st, init, cursor);
      RangeFromConcat(Histories(st, init), SetAt(st, channels[n]), cursor);
    }
  }

  /** No two entries share an id. */
  predicate UniqueScores(s: seq<Entry>) {
    |s| == 0 || ((forall e :: e in s[1..] ==> e.score != s[0].score) && UniqueScores(s[1..]))
  }

  lemma {:induction false} IncreasingUnique(s: seq<Entry>)
    requires IncreasingScores(s)
    ensures UniqueScores(s)
  {
    if |s| > 0 {
      forall e | e in s[1..] ensures e.score != s[0].score {
        var k :| 0 <= k < |s[1..]| && s[1..][k] == e;
        assert e == s[k + 1];
      }
      assert IncreasingScores(s[1..]);
      IncreasingUnique(s[1..]);
    }
  }

  lemma {:induction false} UniqueConcat(a: seq<Entry>, b: seq<Entry>)
    requires UniqueScores(a) && UniqueScores(b)
    requires forall x, y :: x in a && y in b ==> x.score != y.score
    ensures UniqueScores(a + b)
    decreases |a|
  {
    if |a| == 0 {
      assert a + b == b;
    } else {
      assert (a + b)[0] == a[0] && (a + b)[1..] == a[1..] + b;
      assert a[0] in a;
      UniqueConcat(a[1..], b);
    }
  }

  lemma {:induction false} RangeFromUnique(s: seq<Entry>, min: int)
    requires UniqueScores(s)
    ensures UniqueScores(RangeFrom(s, min))
  {
    if |s| > 0 {
      RangeFromUnique(s[1..], min);
      if s[0].score >= min {
        var r := RangeFrom(s, min);
        assert r[0] == s[0] && r[1..] == RangeFrom(s[1..], min);
      }
    }
  }

  /** Each channel of a valid store is in id order, the counter's key holding no entries. */
  lemma ChannelIncreasing(st: Store, c: string)
    requires Valid(st)
    ensures IncreasingScores(SetAt(st, c))
  {
    if c in st.keys && st.keys[c].SortedSet? {
      assert c != LastEventIdKey;
      assert History(st.keys[c].entries, LastId(st));
    }
  }

  /** Distinct channels of a store whose ids are apart hold entries with distinct ids. */
  lemma {:induction false} HistoriesUnique(st: Store, channels: seq<string>)
    requires Valid(st) && DistinctIds(st)
    requires forall i, j :: 0 <= i < j < |channels| ==> channels[i] != channels[j]
    ensures UniqueScores(Histories(st, channels))
    decreases |channels|
  {
    if |channels| > 0 {
      var n := |channels| - 1;
      var init := channels[..n];
      var last := channels[n];
      HistoriesUnique(st, init);
      ChannelIncreasing(st, last);
      IncreasingUnique(SetAt(st, last));
      HistoriesMembers(st, init);
      forall x, y | x in Histories(st, init) && y in SetAt(st, last) ensures x.score != y.score {
        var c :| c in init && x in SetAt(st, c);
        var i :| 0 <= i < n && init[i] == c;
        assert channels[i] == c;
      }
      UniqueConcat(Histories(st, init), SetAt(st, last));
    }
  }

  /** Inserting an entry whose id is new into a list in strictly increasing id order keeps it so. */
  lemma {:induction false} InsertStrict(x: Entry, s: seq<Entry>)
    requires IncreasingScores(s) && forall e :: e in s ==> e.score != x.score
    ensures IncreasingScores(InsertById(x, s))
  {
    if |s| > 0 && x.score > s[0].score {
      assert IncreasingScores(s[1..]);
      assert forall e :: e in s[1..] ==> e in s;
      InsertStrict(x, s[1..]);
      forall i | 0 <= i < |s[1..]| ensures s[0].score + 1 <= s[1..][i].score {
        assert s[1..][i] == s[i + 1];
      }
      InsertByIdBound(x, s[1..], s[0].score + 1);
    } else if |s| > 0 {
      assert s[0] in s;
    }
  }

  /** Entries with distinct ids are sorted into strictly increasing id order. */
  lemma {:induction false} SortStrict(s: seq<Entry>)
    requires UniqueScores(s)
    ensures IncreasingScores(SortById(s))
  {
    if |s| > 0 {
      var rest := SortById(s[1..]);
      assert UniqueScores(s[1..]) && forall e :: e in s[1..] ==> e.score != s[0].score;
      SortStrict(s[1..]);
      forall e | e in rest ensures e.score != s[0].score {
        assert e in multiset(rest);
      }
      InsertStrict(s[0], rest);
      assert SortById(s) == InsertById(s[0], rest);
    }
  }

  /** Two lists in strictly increasing id order holding the same entries are the same list. */
  lemma {:induction false} IncreasingSame(a: seq<Entry>, b: seq<Entry>)
    requires IncreasingScores(a) && IncreasingScores(b)
    requires forall e :: e in a <==> e in b
    ensures a == b
    decreases |a|
  {
    SameEmptiness(a, b);
    if |a| > 0 {
      HeadsSame(a, b);
      forall e ensures e in a[1..] <==> e in b[1..] {
        if e in a[1..] { InTail(a, b, e); }
        if e in b[1..] { InTail(b, a, e); }
      }
      assert IncreasingScores(a[1..]) && IncreasingScores(b[1..]);
      IncreasingSame(a[1..], b[1..]);
      assert a == [a[0]] + a[1..] && b == [b[0]] + b[1..];
    }
  }

  lemma SameEmptiness(a: seq<Entry>, b: seq<Entry>)
    requires forall e :: e in a <==> e in b
    ensures |a| == 0 <==> |b| == 0
  {
    if |a| > 0 { assert a[0] in b; }
    if |b| > 0 { assert b[0] in a; }
  }

  /** Two lists in strictly increasing id order holding the same entries start alike. */
  lemma HeadsSame(a: seq<Entry>, b: seq<Entry>)
    requires IncreasingScores(a) && IncreasingScores(b) && |a| > 0 && |b| > 0
    requires forall e :: e in a <==> e in b
    ensures a[0] == b[0]
  {
    assert a[0] in b && b[0] in a;
    var i :| 0 <= i < |a| && a[i] == b[0];
    var j :| 0 <= j < |b| && b[j] == a[0];
    assert a[0].score >= b[0].score;
  }

  /** An entry after the common first one of `a` is after it in `b` too. */
  lemma InTail(a: seq<Entry>, b: seq<Entry>, e: Entry)
    requires IncreasingScores(a) && |a| > 0 && |b| > 0 && a[0] == b[0]
    requires forall x :: x in a <==> x in b
    requires e in a[1..]
    ensures e in b[1..]
  {
    var k :| 0 <= k < |a[1..]| && a[1..][k] == e;
    assert e == a[k + 1] && e.score > a[0].score;
    assert e in b;
    var m :| 0 <= m < |b| && b[m] == e;
    assert m != 0;
    assert b[1..][m - 1] == e;
  }

  lemma {:induction false} AboveIncreasing(s: seq<Entry>, k: int)
    requires IncreasingScores(s)
    ensures IncreasingScores(Above(s, k))
  {
    if |s| > 0 {
      assert IncreasingScores(s[1..]);
      AboveIncreasing(s[1..], k);
      if s[0].score > k {
        var t := Above(s[1..], k);
        forall j | 0 <= j < |t| ensures s[0].score < t[j].score {
          assert t[j] in t;
          var m :| 0 <= m < |s[1..]| && s[1..][m] == t[j];
          assert s[m + 1] == t[j];
        }
      }
    }
  }

  /**
   * Above the cursor, sorting the range from the cursor gives what sorting all
   * the entries gives, when no two of them share an id.
   */
  lemma SortedRangeAbove(all: seq<Entry>, cursor: int)
    requires UniqueScores(all)
    ensures Above(SortById(RangeFrom(all, cursor)), cursor) == Above(SortById(all), cursor)
  {
    var g := RangeFrom(all, cursor);
    var r, q := SortById(g), SortById(all);
    RangeFromUnique(all, cursor);
    SortStrict(g);
    SortStrict(all);
    AboveIncreasing(r, cursor);
    AboveIncreasing(q, cursor);
    forall e ensures e in Above(r, cursor) <==> e in Above(q, cursor) {
      assert e in r <==> e in multiset(g);
      assert e in q <==> e in multiset(all);
      if e in all && e.score >= cursor {
        var i :| 0 <= i < |all| && all[i] == e;
      }
    }
    IncreasingSame(Above(r, cursor), Above(q, cursor));
  }

  /** The range from the cursor, sorted, is in strictly increasing id order and not below the cursor. */
  lemma SortedRange(all: seq<Entry>, cursor: int)
    requires UniqueScores(all)
    ensures var r := SortById(RangeFrom(all, cursor));
      && IncreasingScores(r)
      && (forall i :: 0 <= i < |r| ==> r[i].score >= cursor)
      && Gap(r, cursor) == Gap(all, cursor)
  {
    var g := RangeFrom(all, cursor);
    RangeFromUnique(all, cursor);
    SortStrict(g);
    SortedFrom(g, cursor);
    SortGap(g, cursor);
    GapRange(all, cursor);
  }

  /** Sorting keeps a lower bound on the ids. */
  lemma SortedFrom(g: seq<Entry>, cursor: int)
    requires forall i :: 0 <= i < |g| ==> g[i].score >= cursor
    ensures forall i :: 0 <= i < |SortById(g)| ==> SortById(g)[i].score >= cursor
  {
    var r := SortById(g);
    forall i | 0 <= i < |r| ensures r[i].score >= cursor {
      assert r[i] in multiset(g);
      var k :| 0 <= k < |g| && g[k] == r[i];
    }
  }

  /** Sorting does not change whether there is a gap. */
  lemma SortGap(g: seq<Entry>, cursor: int)
    ensures Gap(SortById(g), cursor) == Gap(g, cursor)
  {
    var r := SortById(g);
    assert forall e :: e in r <==> e in multiset(g);
  }

  /**
   * `events_for_channels` over several distinct channels of a store the publisher
   * keeps: the events of all of them after the cursor, merged in id order, with the
   * marker exactly when none of them still holds the cursor's event and some later
   * event exists.
   */
  lemma MultiChannelReplay(st: Store, channels: seq<string>, cursor: int)
    requires Valid(st) && DistinctIds(st) && LastEventIdKey !in channels
    requires forall i, j :: 0 <= i < j < |channels| ==> channels[i] != channels[j]
    ensures var all := Histories(st, channels);
      Replay(st, channels, cursor)
        == Ok((if Gap(all, cursor) then [MissedEvents] else []) + Members(Above(SortById(all), cursor)))
  {
    var all := Histories(st, channels);
    forall c | c in channels && c in st.keys ensures !st.keys[c].Counter? {
      assert c != LastEventIdKey;
    }
    GatheredHistories(st, channels, cursor);
    HistoriesUnique(st, channels);
    var r := SortById(RangeFrom(all, cursor));
    SortedRange(all, cursor);
    GapDetection(r, cursor);
    SortedRangeAbove(all, cursor);
  }

  /** A publish on a channel with fewer than `HISTORY_SIZE` entries appends, and leaves another channel alone. */
  lemma PublishAppends(st: Store, channel: string, other: string, m: Option<string>, t: Option<string>)
    requires Valid(st) && DistinctIds(st) && channel != LastEventIdKey && other != LastEventIdKey && other != channel
    requires |SetAt(st, channel)| < HistorySize
    ensures var st' := PublishEffect(st, channel, m, t).0;
      var id := LastId(st) + 1;
      && Valid(st') && DistinctIds(st') && LastId(st') == id
      && SetAt(st', channel) == SetAt(st, channel) + [Entry(EventFor(m, t, id), id)]
      && SetAt(st', other) == SetAt(st, other)
  {
    PublishFresh(st, channel, m, t);
    PublishKeepsDistinctIds(st, channel, m, t);
    var st' := PublishEffect(st, channel, m, t).0;
    if other in st.keys {
      assert st'.keys[other] == st.keys[other];
    }
  }

  /**
   * Two events on one channel, then one on another: a client of both channels whose
   * cursor is the first event's id is sent the other two, in id order.
   */
  lemma HistoryAcrossChannels(st: Store, a: string, b: string, t: Option<string>,
                              m1: Option<string>, m2: Option<string>, m3: Option<string>)
    requires Valid(st) && DistinctIds(st)
    requires a != b && a != LastEventIdKey && b != LastEventIdKey
    requires SetAt(st, a) == [] && SetAt(st, b) == []
    ensures var id := LastId(st) + 1;
      var st1 := PublishEffect(st, a, m1, t).0;
      var st2 := PublishEffect(st1, a, m2, t).0;
      var st3 := PublishEffect(st2, b, m3, t).0;
      Replay(st3, [a, b], id) == Ok([EventFor(m2, t, id + 1), EventFor(m3, t, id + 2)])
  {
    var id := LastId(st) + 1;
    var st1 := PublishEffect(st, a, m1, t).0;
    var st2 := PublishEffect(st1, a, m2, t).0;
    var st3 := PublishEffect(st2, b, m3, t).0;
    var e1, e2, e3 := Entry(EventFor(m1, t, id), id), Entry(EventFor(m2, t, id + 1), id + 1),
                      Entry(EventFor(m3, t, id + 2), id + 2);
    PublishAppends(st, a, b, m1, t);
    assert SetAt(st1, a) == [e1];
    PublishAppends(st1, a, b, m2, t);
    assert SetAt(st2, a) == [e1, e2];
    PublishAppends(st2, b, a, m3, t);
    assert SetAt(st3, b) == [e3];
    TwoChannelsReplay(st3, a, b, e1, e2, e3);
  }

  /** The replay of two channels holding `[e1, e2]` and `[e3]`, from `e1`'s id. */
  lemma TwoChannelsReplay(st: Store, a: string, b: string, e1: Entry, e2: Entry, e3: Entry)
    requires Valid(st) && DistinctIds(st)
    requires a != b && a != LastEventIdKey && b != LastEventIdKey
    requires SetAt(st, a) == [e1, e2] && SetAt(st, b) == [e3]
    requires e1.score < e2.score < e3.score
    ensures Replay(st, [a, b], e1.score) == Ok([e2.member, e3.member])
  {
    MultiChannelReplay(st, [a, b], e1.score);
    AcrossChannelsHistories(st, a, b, e1, e2, e3);
    AcrossChannelsValue(e1, e2, e3);
  }

  /** What the replay of `[e1, e2, e3]` from `e1`'s id comes to. */
  lemma AcrossChannelsValue(e1: Entry, e2: Entry, e3: Entry)
    requires e1.score < e2.score < e3.score
    ensures var all := [e1, e2, e3];
      (if Gap(all, e1.score) then [MissedEvents] else []) + Members(Above(SortById(all), e1.score))
        == [e2.member, e3.member]
  {
    CursorFirstReplay([e1, e2, e3]);
    AboveFirst(e1, e2, e3);
  }

  /** A list in id order that starts with the cursor's event has no gap and sorts to itself. */
  lemma CursorFirstReplay(all: seq<Entry>)
    requires |all| > 0 && IncreasingScores(all)
    ensures !Gap(all, all[0].score) && SortById(all) == all
  {
    assert all[0] in all;
    SortIncreasing(all);
  }

  lemma AcrossChannelsHistories(st: Store, a: string, b: string, e1: Entry, e2: Entry, e3: Entry)
    requires SetAt(st, a) == [e1, e2] && SetAt(st, b) == [e3]
    requires e1.score < e2.score < e3.score
    ensures Histories(st, [a, b]) == [e1, e2, e3] && IncreasingScores([e1, e2, e3])
  {
    assert [a, b][..1] == [a] && [a][..0] == [];
    assert Histories(st, [a]) == [] + [e1, e2];
  }

  lemma AboveFirst(e1: Entry, e2: Entry, e3: Entry)
    requires e1.score < e2.score < e3.score
    ensures Members(Above([e1, e2, e3], e1.score)) == [e2.member, e3.member]
  {
    var s := [e1, e2, e3];
    assert s[1..] == [e2, e3];
    AboveAll([e2, e3], e1.score);
    assert Above(s, e1.score) == [e2, e3];
  }

  // ---------------------------------------------------------------------------
  // `send_history_events`

  /** What a new connection is sent first: the `lastEventId` event, or the replay. */
  datatype Backlog = Backlog(lastId: Option<string>, events: seq<string>)

  /**
   * The `lastEventId` event for the reply to `GET` on the counter: none while no
   * id was handed out; an error reply is formatted into the event like a value.
   */
  function IdMarker(reply: Result<Option<string>>): Option<string> {
    match reply
    case Ok(None) => None
    case Ok(Some(id)) => Some(LastEventIdEvent(id))
    case Err(m) => Some(LastEventIdEvent(m))
  }

  /**
   * The replay when the request has a cursor; when it has none, or nothing is left
   * to replay, the `lastEventId` event instead. A failed range query aborts it all.
   */
  function PlanHistory(st: Store, req: ServerRequests.Request, channels: seq<string>): Result<Backlog> {
    var events := if Cursor(req).Some? then Replay(st, channels, Cursor(req).value) else Ok([]);
    match events
    case Err(m) => Err(m)
    case Ok(evs) =>
      if |evs| > 0 then Ok(Backlog(None, evs))
      else Ok(Backlog(IdMarker(GetCmd(st, LastEventIdKey)), []))
  }

  /** The test that raises `stats.missing`: the replay starts with the marker. */
  predicate MarksGap(events: seq<string>) {
    |events| > 0 && StartsWith(events[0], "event: missedevents")
  }

  /** A published event starts with its id line, never with the marker's event line. */
  lemma EventNotMarker(m: string, id: int)
    requires StartsWith(m, IdLine(id))
    ensures !StartsWith(m, "event: missedevents")
  {
    assert m[0] == IdLine(id)[0] == 'i';
  }

  /** Every gathered entry of a store the publisher keeps is a published event. */
  lemma GatheredPublished(st: Store, channels: seq<string>, cursor: int, g: seq<Entry>)
    requires Valid(st) && Gathered(st, channels, cursor) == Ok(g)
    ensures forall e :: e in g ==> StartsWith(e.member, IdLine(e.score))
  {
    GatheredEntries(st, channels, cursor);
    forall e | e in g ensures StartsWith(e.member, IdLine(e.score)) {
      var c :| c in channels && e in SetAt(st, c);
      var h := SetAt(st, c);
      var i :| 0 <= i < |h| && h[i] == e;
    }
  }

  /**
   * On a store the publisher keeps, `stats.missing` is raised exactly when the
   * replay found a gap: its first event, in id order, is not the cursor's.
   */
  lemma MissingCountsGaps(st: Store, channels: seq<string>, cursor: int, g: seq<Entry>)
    requires Valid(st) && Gathered(st, channels, cursor) == Ok(g)
    ensures var r := SortById(g);
      MarksGap(HandleMissing(r, cursor)) <==> |r| > 0 && r[0].score != cursor
  {
    var r := SortById(g);
    var out := HandleMissing(r, cursor);
    if |r| > 0 {
      if r[0].score != cursor {
        assert out[0] == MissedEvents;
        MarkerMarks();
      } else if |r| > 1 {
        assert out[0] == r[1].member;
        GatheredPublished(st, channels, cursor, g);
        assert r[1] in multiset(g);
        EventNotMarker(r[1].member, r[1].score);
      }
    }
  }

  lemma MarkerMarks()
    ensures StartsWith(MissedEvents, "event: missedevents")
  {
    MissedEventsShape();
    StartsWithConcat("event: missedevents", "\ndata: \n\n");
  }

  /**
   * Nothing is replayed alongside the `lastEventId` event; on a store the publisher
   * keeps, that event carries the last id handed out, and it is sent whenever
   * there is nothing to replay and an id was handed out.
   */
  lemma LastIdMarker(st: Store, req: ServerRequests.Request, channels: seq<string>)
    requires Valid(st) && PlanHistory(st, req, channels).Ok?
    ensures var b := PlanHistory(st, req, channels).value;
      && (b.lastId.Some? ==> b.events == [])
      && (b.events == [] ==>
            b.lastId == if LastEventIdKey in st.keys then Some(LastEventIdEvent(IntToString(LastId(st)))) else None)
  {
  }
}
