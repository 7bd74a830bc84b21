/**
 * The part of Redis that Redisse relies on, as an abstract store: string keys
 * holding either an integer counter (`INCR`, `GET`) or a sorted set of members
 * with scores (`ZADD`, `ZREMRANGEBYRANK`, `ZRANGEBYSCORE`), and the log of
 * messages sent with `PUBLISH`. A command on a key of the other kind fails with
 * Redis's `WRONGTYPE` error.
 */
module RedisStore {
  import opened Wrappers
  import opened Text

  /**
   * A sorted-set member and its score. Redis keeps scores as doubles; the
   * model keeps the integer ids Redisse stores there exactly.
   */
  datatype Entry = Entry(member: string, score: int)

  /** Members compare byte by byte; on UTF-8 text that is code point order. */
  predicate StringLess(a: string, b: string) {
    if |a| == 0 then |b| > 0
    else if |b| == 0 then false
    else a[0] < b[0] || (a[0] == b[0] && StringLess(a[1..], b[1..]))
  }

  /** The order of a sorted set: by score, then by member. */
  predicate Before(x: Entry, y: Entry) {
    x.score < y.score || (x.score == y.score && StringLess(x.member, y.member))
  }

  /** Scores strictly increase along the set (the shape of every history Redisse writes). */
  predicate IncreasingScores(s: seq<Entry>) {
    forall i, j :: 0 <= i < j < |s| ==> s[i].score < s[j].score
  }

  predicate HasMember(s: seq<Entry>, m: string) {
    exists i :: 0 <= i < |s| && s[i].member == m
  }

  /** The set without the entry for `m`. */
  function Without(s: seq<Entry>, m: string): (r: seq<Entry>)
    ensures |r| <= |s|
    ensures !HasMember(s, m) ==> r == s
    ensures !HasMember(r, m)
  {
    if |s| == 0 then []
    else
      var rest := Without(s[1..], m);
      assert !HasMember(s[1..], m) ==> !HasMember(s, m) || s[0].member == m;
      if s[0].member == m then rest
      else
        assert forall i :: 1 <= i < |[s[0]] + rest| ==> ([s[0]] + rest)[i] == rest[i - 1];
        [s[0]] + rest
  }

  /** `e` placed before the first entry it precedes. */
  function Insert(s: seq<Entry>, e: Entry): (r: seq<Entry>)
    ensures |r| == |s| + 1
  {
    if |s| == 0 then [e]
    else if Before(e, s[0]) then [e] + s
    else [s[0]] + Insert(s[1..], e)
  }

  /** `ZADD key score member` on a set: the member's old entry, if any, is replaced. */
  function ZAddSet(s: seq<Entry>, e: Entry): seq<Entry> {
    Insert(Without(s, e.member), e)
  }

  /** An entry scored above every entry of the set goes at its end. */
  lemma {:induction false} InsertLast(s: seq<Entry>, e: Entry)
    requires forall i :: 0 <= i < |s| ==> s[i].score < e.score
    ensures Insert(s, e) == s + [e]
  {
    if |s| > 0 {
      InsertLast(s[1..], e);
      assert [s[0]] + (s[1..] + [e]) == s + [e];
    }
  }

  /** Adding a new member with the highest score appends it. */
  lemma ZAddNewest(s: seq<Entry>, e: Entry)
    requires !HasMember(s, e.member)
    requires forall i :: 0 <= i < |s| ==> s[i].score < e.score
    ensures ZAddSet(s, e) == s + [e]
  {
    InsertLast(s, e);
  }

  /**
   * `ZREMRANGEBYRANK key start stop` on a set: ranks count from 0, negative ones
   * from the end (-1 is the last); the range is clamped to the set, and an empty
   * range removes nothing.
   */
  function RemoveRanks(s: seq<Entry>, start: int, stop: int): (r: seq<Entry>)
    ensures |r| <= |s|
  {
    var n := |s|;
    var a := if start < 0 then n + start else start;
    var b := if stop < 0 then n + stop else stop;
    var a' := if a < 0 then 0 else a;
    if a' > b || a' >= n then s
    else
      var b' := if b >= n then n - 1 else b;
      s[..a'] + s[b' + 1..]
  }

  /** The newest `k` entries: the last `k`, or all of them when there are fewer. */
  function KeepNewest(s: seq<Entry>, k: nat): (r: seq<Entry>)
    ensures |r| == if |s| <= k then |s| else k
    ensures r == s[|s| - |r|..]
  {
    if |s| <= k then s else s[|s| - k..]
  }

  /** `ZREMRANGEBYRANK key 0 -1-k` keeps exactly the newest `k` entries. */
  lemma TrimKeepsNewest(s: seq<Entry>, k: nat)
    ensures RemoveRanks(s, 0, -1 - k) == KeepNewest(s, k)
  {
    if |s| > k {
      assert s[..0] + s[|s| - 1 - k + 1..] == s[|s| - k..];
    }
  }

  /** In a set ordered by score the newest entries are those with the highest scores. */
  lemma KeepNewestHighest(s: seq<Entry>, k: nat)
    requires IncreasingScores(s)
    ensures IncreasingScores(KeepNewest(s, k))
    ensures forall i, j :: 0 <= i < |s| - |KeepNewest(s, k)| <= j < |s| ==> s[i].score < s[j].score
  {
  }

  /**
   * `ZRANGEBYSCORE key min +inf WITHSCORES` on a set: the entries scored at least
   * `min` (an inclusive bound), in the set's order.
   */
  function RangeFrom(s: seq<Entry>, min: int): (r: seq<Entry>)
    ensures forall i :: 0 <= i < |r| ==> r[i].score >= min
    ensures forall i :: 0 <= i < |s| && s[i].score >= min ==> s[i] in r
    ensures forall e :: e in r ==> e in s
  {
    if |s| == 0 then []
    else if s[0].score >= min then [s[0]] + RangeFrom(s[1..], min)
    else RangeFrom(s[1..], min)
  }

  // ---------------------------------------------------------------------------
  // The keyspace and the pub/sub log

  datatype Value = Counter(n: int) | SortedSet(entries: seq<Entry>)

  /** A message sent with `PUBLISH channel payload`. */
  datatype Message = Message(channel: string, payload: string)

  datatype Store = Store(keys: map<string, Value>, messages: seq<Message>)

  const Empty := Store(map[], [])

  const WrongType := "WRONGTYPE Operation against a key holding the wrong kind of value"

  /** The entries under `key`; a missing key is an empty set. */
  function SetAt(st: Store, key: string): seq<Entry> {
    if key in st.keys && st.keys[key].SortedSet? then st.keys[key].entries else []
  }

  /** `INCR key`: a missing key counts from 0; the reply is the new value. */
  function IncrCmd(st: Store, key: string): (r: (Store, Result<int>))
    ensures r.1.Ok? <==> key !in st.keys || st.keys[key].Counter?
    ensures r.1.Ok? ==> (r.0.keys == st.keys[key := Counter(r.1.value)]
                      && r.1.value == (if key in st.keys then st.keys[key].n else 0) + 1)
    ensures r.1.Err? ==> r.0 == st
    ensures r.0.messages == st.messages
  {
    if key !in st.keys then (st.(keys := st.keys[key := Counter(1)]), Ok(1))
    else match st.keys[key]
      case Counter(n) => (st.(keys := st.keys[key := Counter(n + 1)]), Ok(n + 1))
      case SortedSet(_) => (st, Err(WrongType))
  }

  /** `GET key`: the counter as a decimal string, `nil` for a missing key. */
  function GetCmd(st: Store, key: string): (r: Result<Option<string>>)
    ensures r.Err? <==> key in st.keys && st.keys[key].SortedSet?
    ensures r == Ok(None) <==> key !in st.keys
    ensures r.Ok? && r.value.Some? ==> ToI(r.value.value) == st.keys[key].n
  {
    if key !in st.keys then Ok(None)
    else match st.keys[key]
      case Counter(n) => ToIIntToString(n); Ok(Some(IntToString(n)))
      case SortedSet(_) => Err(WrongType)
  }

  /** `PUBLISH channel payload`: the pub/sub namespace is separate from the keys. */
  function PublishCmd(st: Store, channel: string, payload: string): (r: Store)
    ensures r.keys == st.keys && r.messages == st.messages + [Message(channel, payload)]
  {
    st.(messages := st.messages + [Message(channel, payload)])
  }

  /** `ZADD key score member`: the reply is 1 for a new member, 0 for a re-scored one. */
  function ZAddCmd(st: Store, key: string, score: int, member: string): (r: (Store, Result<int>))
    ensures r.1.Ok? <==> key !in st.keys || st.keys[key].SortedSet?
    ensures r.1.Ok? ==> (r.0.keys == st.keys[key := SortedSet(ZAddSet(SetAt(st, key), Entry(member, score)))]
                      && r.1.value == (if HasMember(SetAt(st, key), member) then 0 else 1))
    ensures r.1.Err? ==> r.0 == st
    ensures r.0.messages == st.messages
  {
    if key in st.keys && st.keys[key].Counter? then (st, Err(WrongType))
    else
      var s := SetAt(st, key);
      var added := if HasMember(s, member) then 0 else 1;
      (st.(keys := st.keys[key := SortedSet(ZAddSet(s, Entry(member, score)))]), Ok(added))
  }

  /**
   * `ZREMRANGEBYRANK key start stop`: the reply is the number of entries removed;
   * a set left empty is deleted, and a missing key removes nothing.
   */
  function ZRemRangeByRankCmd(st: Store, key: string, start: int, stop: int): (r: (Store, Result<int>))
    ensures r.1.Ok? <==> key !in st.keys || st.keys[key].SortedSet?
    ensures r.1.Ok? ==> (SetAt(r.0, key) == RemoveRanks(SetAt(st, key), start, stop)
                      && r.1.value == |SetAt(st, key)| - |SetAt(r.0, key)|)
    ensures r.1.Err? ==> r.0 == st
    ensures forall k :: k != key ==> (k in r.0.keys <==> k in st.keys) && (k in st.keys ==> r.0.keys[k] == st.keys[k])
    ensures r.0.messages == st.messages
  {
    if key !in st.keys then (st, Ok(0))
    else match st.keys[key]
      case Counter(_) => (st, Err(WrongType))
      case SortedSet(s) =>
        var s' := RemoveRanks(s, start, stop);
        var keys := if |s'| == 0 then st.keys - {key} else st.keys[key := SortedSet(s')];
        (st.(keys := keys), Ok(|s| - |s'|))
  }

  /** `ZRANGEBYSCORE key min +inf WITHSCORES`: each member with its score. */
  function ZRangeByScoreCmd(st: Store, key: string, min: int): (r: Result<seq<Entry>>)
    ensures r.Err? <==> key in st.keys && st.keys[key].Counter?
    ensures r.Ok? ==> r.value == RangeFrom(SetAt(st, key), min)
  {
    if key in st.keys && st.keys[key].Counter? then Err(WrongType)
    else Ok(RangeFrom(SetAt(st, key), min))
  }

  /** `INCR` then `GET` reads back the new counter value. */
  lemma IncrThenGet(st: Store, key: string)
    requires key !in st.keys || st.keys[key].Counter?
    ensures var (st', r) := IncrCmd(st, key);
      r.Ok? && GetCmd(st', key) == Ok(Some(IntToString(r.value))) && ToI(GetCmd(st', key).value.value) == r.value
  {
    var (st', r) := IncrCmd(st, key);
    ToIIntToString(r.value);
  }

  // ---------------------------------------------------------------------------
  // The Redis server, as the one shared mutable object that clients change

  class Redis {
    var store: Store

    constructor ()
      ensures store == Empty
    {
      store := Empty;
    }

    method Incr(key: string) returns (r: Result<int>)
      modifies this
      ensures (store, r) == IncrCmd(old(store), key)
    {
      var next := IncrCmd(store, key);
      store, r := next.0, next.1;
    }

    method Get(key: string) returns (r: Result<Option<string>>)
      ensures r == GetCmd(store, key)
    {
      r := GetCmd(store, key);
    }

    method Publish(channel: string, payload: string)
      modifies this
      ensures store == PublishCmd(old(store), channel, payload)
    {
      store := PublishCmd(store, channel, payload);
    }

    method ZAdd(key: string, score: int, member: string) returns (r: Result<int>)
      modifies this
      ensures (store, r) == ZAddCmd(old(store), key, score, member)
    {
      var next := ZAddCmd(store, key, score, member);
      store, r := next.0, next.1;
    }

    method ZRemRangeByRank(key: string, start: int, stop: int) returns (r: Result<int>)
      modifies this
      ensures (store, r) == ZRemRangeByRankCmd(old(store), key, start, stop)
    {
      var next := ZRemRangeByRankCmd(store, key, start, stop);
      store, r := next.0, next.1;
    }

    method ZRangeByScore(key: string, min: int) returns (r: Result<seq<Entry>>)
      ensures r == ZRangeByScoreCmd(store, key, min)
    {
      r := ZRangeByScoreCmd(store, key, min);
    }
  }
}
