/**
 * The server's statistics (lib/redisse/server/stats.rb): four counters shared by
 * every connection, and the JSON document the stats endpoint renders them into.
 */
module ServerStats {
  import opened Wrappers
  import opened Text
  import opened Responses

  /** A reading of the four counters. */
  datatype Counters = Counters(connected: int, events: int, served: int, missing: int)

  /** The `status[:stats]` hash, updated in place by the connections. */
  class Stats {
    var connected: int
    var events: int
    var served: int
    var missing: int

    /** `Stats#initialize`: every counter starts at zero. */
    constructor ()
      ensures connected == 0 && events == 0 && served == 0 && missing == 0
    {
      connected, events, served, missing := 0, 0, 0, 0;
    }

    function Snapshot(): Counters
      reads this
    {
      Counters(connected, events, served, missing)
    }
  }

  // ---------------------------------------------------------------------------
  // JSON_BODY

  /** The key part of each line, padded so that the values line up. */
  const ConnectedKey := "  \"connected\": "
  const EventsKey := "  \"events\":    "
  const ServedKey := "  \"served\":    "
  const MissingKey := "  \"missing\":   "

  function Lines(c: Counters): seq<string> {
    ["{", ConnectedKey + IntToString(c.connected) + ",", EventsKey + IntToString(c.events) + ",",
     ServedKey + IntToString(c.served) + ",", MissingKey + IntToString(c.missing), "}"]
  }

  /** `JSON_BODY % stats`: the heredoc with its final newline stripped, one `%d` per counter. */
  function JsonBody(c: Counters): string {
    Join(Lines(c), '\n')
  }

  /** `server_stats?`: the client accepts `application/json`. */
  predicate ServerStatsRequested(accept: seq<string>) {
    "application/json" in accept
  }

  /** `server_stats`: the rendered counters, as JSON. */
  function StatsResponse(c: Counters): (r: Response)
    ensures r.status == 200 && r.headers == [("Content-Type", "application/json")]
    ensures r.body == JsonBody(c)
  {
    Response(200, [("Content-Type", "application/json")], JsonBody(c))
  }

  // ---------------------------------------------------------------------------
  // Reading the document back

  /** An integer as `%d` writes it: a non-empty run of digits and minus signs. */
  predicate Numeral(v: string) {
    |v| > 0 && forall k :: 0 <= k < |v| ==> v[k] == '-' || IsDigit(v[k])
  }

  /** The integer on a line `<key><integer><tail>`, if the line has that shape. */
  function Field(line: string, key: string, tail: string): (r: Option<int>)
    ensures r.Some? ==> |key| + |tail| <= |line| && line == key + line[|key|..|line| - |tail|] + tail
  {
    if |key| + |tail| <= |line| && line[..|key|] == key && line[|line| - |tail|..] == tail
       && Numeral(line[|key|..|line| - |tail|])
    then
      assert line == line[..|key|] + line[|key|..|line| - |tail|] + line[|line| - |tail|..];
      Some(ToI(line[|key|..|line| - |tail|]))
    else None
  }

  /**
   * A reader for the stats document: exactly six lines, the braces on their own,
   * and the four keys in order, each followed by one integer.
   */
  function ReadCounters(body: string): Option<Counters> {
    var lines := SplitAll(body, '\n');
    if |lines| != 6 || lines[0] != "{" || lines[5] != "}" then None
    else
      var c := Field(lines[1], ConnectedKey, ",");
      var e := Field(lines[2], EventsKey, ",");
      var s := Field(lines[3], ServedKey, ",");
      var m := Field(lines[4], MissingKey, "");
      if c.Some? && e.Some? && s.Some? && m.Some? then Some(Counters(c.value, e.value, s.value, m.value))
      else None
  }

  lemma FieldOfLine(key: string, n: int, tail: string)
    ensures Field(key + IntToString(n) + tail, key, tail) == Some(n)
  {
    var line := key + IntToString(n) + tail;
    assert line[..|key|] == key;
    assert line[|line| - |tail|..] == tail;
    assert line[|key|..|line| - |tail|] == IntToString(n);
    ToIIntToString(n);
  }

  lemma NoNewlineInLine(key: string, n: int, tail: string)
    requires '\n' !in key && '\n' !in tail
    ensures '\n' !in key + IntToString(n) + tail
  {
    var s := IntToString(n);
    assert forall k :: 0 <= k < |s| ==> s[k] != '\n';
  }

  /** The stats document reads back as the counters it was rendered from. */
  lemma JsonRoundTrip(c: Counters)
    ensures ReadCounters(JsonBody(c)) == Some(c)
  {
    LinesOfBody(c);
    FieldOfLine(ConnectedKey, c.connected, ",");
    FieldOfLine(EventsKey, c.events, ",");
    FieldOfLine(ServedKey, c.served, ",");
    FieldOfLine(MissingKey, c.missing, "");
    assert MissingKey + IntToString(c.missing) + "" == MissingKey + IntToString(c.missing);
  }

  lemma LinesOfBody(c: Counters)
    ensures SplitAll(JsonBody(c), '\n') == Lines(c)
  {
    NoNewlineInLine(ConnectedKey, c.connected, ",");
    NoNewlineInLine(EventsKey, c.events, ",");
    NoNewlineInLine(ServedKey, c.served, ",");
    NoNewlineInLine(MissingKey, c.missing, "");
    SplitJoin(Lines(c), '\n');
  }

  /** Different readings never render to the same document. */
  lemma JsonBodyInjective(a: Counters, b: Counters)
    requires JsonBody(a) == JsonBody(b)
    ensures a == b
  {
    JsonRoundTrip(a);
    JsonRoundTrip(b);
  }
}
