/**
 * What the server reads off a request (lib/redisse/server.rb): the accepted media
 * types, the cursor, the long-polling flag, the admission decision, and the
 * channel list of a standalone server.
 */
module ServerRequests {
  import opened Wrappers
  import opened Text
  import opened Responses
  import opened ServerStats

  /**
   * A request as the server sees it: the media types of its `Accept` header as
   * parsed by Rack, its `Last-Event-Id` header, and its parsed query parameters
   * (a parameter given without `=` has no value).
   */
  datatype Request = Request(accept: seq<string>, lastEventIdHeader: Option<string>,
                             query: map<string, Option<string>>)

  /** `acceptable?`: the client takes an event stream. */
  predicate Acceptable(req: Request) {
    "text/event-stream" in req.accept
  }

  /** `long_polling?`: the query has a `polling` parameter, with or without a value. */
  predicate LongPolling(req: Request) {
    "polling" in req.query
  }

  /** The cursor text: the header when it is sent at all, the query parameter otherwise. */
  function CursorText(req: Request): string {
    if req.lastEventIdHeader.Some? then req.lastEventIdHeader.value
    else if "lastEventId" in req.query then req.query["lastEventId"].GetOr("")
    else ""
  }

  /** `last_event_id`: the cursor text read with `to_i`; zero means there is no cursor. */
  function Cursor(req: Request): (r: Option<int>)
    ensures r.Some? ==> r.value != 0
  {
    var n := ToI(CursorText(req));
    if n != 0 then Some(n) else None
  }

  /** A `Last-Event-Id` header, even an empty one, hides the query parameter. */
  lemma CursorHeaderWins(req: Request, query: map<string, Option<string>>)
    requires req.lastEventIdHeader.Some?
    ensures Cursor(req) == Cursor(req.(query := query))
  {
  }

  /** The id a client sends back comes out as the cursor, from either place. */
  lemma CursorOfId(accept: seq<string>, id: int, query: map<string, Option<string>>)
    requires id != 0
    ensures Cursor(Request(accept, Some(IntToString(id)), query)) == Some(id)
    ensures Cursor(Request(accept, None, query["lastEventId" := Some(IntToString(id))])) == Some(id)
  {
    ToIIntToString(id);
  }

  /** A zero, a missing value or a non-numeric value is no cursor at all. */
  lemma NoCursor(accept: seq<string>, query: map<string, Option<string>>)
    ensures Cursor(Request(accept, Some("0"), query)) == None
    ensures Cursor(Request(accept, Some("abc"), query)) == None
    ensures Cursor(Request(accept, None, query - {"lastEventId"})) == None
    ensures Cursor(Request(accept, None, query["lastEventId" := None])) == None
  {
    assert SkipSpaces("abc") == "abc";
    assert SkipSpaces("0") == "0";
    ToIIntToString(0);
  }

  // ---------------------------------------------------------------------------
  // Admission

  /**
   * `response`, as a decision: the stats document for a JSON client, then 406,
   * 404 and 503 in that order, then the event stream. `subscribed` is whether the
   * pub/sub connection accepted the subscription.
   */
  function Decide(stats: Counters, req: Request, channels: seq<string>, subscribed: bool): Response {
    if ServerStatsRequested(req.accept) then StatsResponse(stats)
    else if !Acceptable(req) then NotAcceptable
    else if |channels| == 0 then NotFound
    else if !subscribed then ServiceUnavailable
    else Streaming
  }

  /** Each response of the server happens exactly in its own case of the decision. */
  lemma AdmissionOrder(stats: Counters, req: Request, channels: seq<string>, subscribed: bool)
    ensures var r := Decide(stats, req, channels, subscribed);
      && (r == StatsResponse(stats) <==> ServerStatsRequested(req.accept))
      && (r == NotAcceptable <==> !ServerStatsRequested(req.accept) && !Acceptable(req))
      && (r == NotFound <==> !ServerStatsRequested(req.accept) && Acceptable(req) && channels == [])
      && (r == ServiceUnavailable <==>
            !ServerStatsRequested(req.accept) && Acceptable(req) && channels != [] && !subscribed)
      && (r == Streaming <==>
            !ServerStatsRequested(req.accept) && Acceptable(req) && channels != [] && subscribed)
  {
    assert StatsResponse(stats).headers[0].1 == "application/json";
    assert NotAcceptable.headers[0].1 == "text/plain";
    assert Streaming.headers[0].1 == "text/event-stream";
  }

  // ---------------------------------------------------------------------------
  // The channels of a standalone server

  function DecodeAll(items: seq<string>, decode: string -> string): (r: seq<string>)
    ensures |r| == |items| && forall i :: 0 <= i < |items| ==> r[i] == decode(items[i])
  {
    if |items| == 0 then [] else [decode(items[0])] + DecodeAll(items[1..], decode)
  }

  /** A decoded query item that names a channel: not an option of the server. */
  predicate IsChannel(item: string) {
    item != "polling" && !StartsWith(item, "lastEventId=")
  }

  /**
   * `delete('polling')`, then `delete_if { |c| c.start_with?('lastEventId=') }`:
   * the channel items, in their order and with their repeats.
   */
  function KeepChannels(items: seq<string>): (r: seq<string>)
    ensures forall c :: c in r <==> c in items && IsChannel(c)
  {
    if |items| == 0 then []
    else if IsChannel(items[0]) then [items[0]] + KeepChannels(items[1..])
    else KeepChannels(items[1..])
  }

  /** `delete` and `delete_if` keep the order and the repeats of what they keep: filtering splits over `+`. */
  lemma {:induction false} KeepChannelsConcat(a: seq<string>, b: seq<string>)
    ensures KeepChannels(a + b) == KeepChannels(a) + KeepChannels(b)
  {
    if |a| > 0 {
      assert (a + b)[0] == a[0] && (a + b)[1..] == a[1..] + b;
      KeepChannelsConcat(a[1..], b);
    } else {
      assert a + b == b;
    }
  }

  /** Items that are all channels are kept as they are, in order and with repeats. */
  lemma {:induction false} KeepAllChannels(items: seq<string>)
    requires forall i :: 0 <= i < |items| ==> IsChannel(items[i])
    ensures KeepChannels(items) == items
  {
    if |items| > 0 {
      KeepAllChannels(items[1..]);
    }
  }

  /** Items none of which is a channel are all removed. */
  lemma {:induction false} KeepNoChannel(items: seq<string>)
    requires forall i :: 0 <= i < |items| ==> !IsChannel(items[i])
    ensures KeepChannels(items) == []
  {
    if |items| > 0 {
      KeepNoChannel(items[1..]);
    }
  }

  /**
   * `run_as_standalone`: the `&`-separated items of the query string, each
   * decoded with `decode` (`URI.decode_www_form_component`), without `polling`
   * and without any item starting with `lastEventId=`.
   */
  function StandaloneChannels(queryString: Option<string>, decode: string -> string): seq<string> {
    KeepChannels(DecodeAll(RubySplit(queryString.GetOr(""), '&'), decode))
  }

  /** Exactly the decoded items that are not server options become channels. */
  lemma StandaloneChannelsMembers(queryString: Option<string>, decode: string -> string, c: string)
    ensures c in StandaloneChannels(queryString, decode) <==>
      IsChannel(c) && exists item :: item in RubySplit(queryString.GetOr(""), '&') && decode(item) == c
  {
    var items := RubySplit(queryString.GetOr(""), '&');
    var d := DecodeAll(items, decode);
    if c in d {
      var i :| 0 <= i < |d| && d[i] == c;
      assert items[i] in items;
    }
    if exists item :: item in items && decode(item) == c {
      var item :| item in items && decode(item) == c;
      var i :| 0 <= i < |items| && items[i] == item;
      assert d[i] == c;
    }
  }

  /**
   * The parser with the options recognised on the raw items, before decoding:
   * an encoded channel name never holds `=`, so no channel can pass for an option.
   */
  function StandaloneChannelsRaw(queryString: Option<string>, decode: string -> string): seq<string> {
    DecodeAll(KeepChannels(RubySplit(queryString.GetOr(""), '&')), decode)
  }
}
