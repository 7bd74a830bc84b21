/**
 * The event-stream decoder of spec/spec_system_helper.rb (`EventScanner#<<`): a
 * buffer that collects the segments read from a stream, consumes the first
 * block ending in a blank line, and turns its `id`, `event` and `data` lines
 * into one event.
 */
module EventScanner {
  import opened Wrappers
  import opened Text
  import opened ServerSentEvents

  /** `Event = Struct.new :data, :type, :id`. */
  datatype Event = Event(data: string, eventType: Option<string>, id: Option<string>)

  /** `Event.new ""`: empty data, no type, no id. */
  const Fresh := Event("", None, None)

  // ---------------------------------------------------------------------------
  // Finding the end of a block: `scan_until(/\n\n/)`

  /** No `"\n\n"` starts at an index `j` with `from <= j` and `j + 1 < to`. */
  predicate NoBlankFrom(s: string, from: nat, to: nat)
    requires to <= |s|
  {
    forall j :: from <= j && j + 1 < to ==> !(s[j] == '\n' && s[j + 1] == '\n')
  }

  /**
   * The position just after the first `"\n\n"` at or after `from`, if there is
   * one: where `scan_until` leaves the scan position.
   */
  function FindTerminator(s: string, from: nat): (r: Option<nat>)
    requires from <= |s|
    ensures r.Some? ==> from + 2 <= r.value <= |s| && s[r.value - 2] == '\n' && s[r.value - 1] == '\n'
    ensures r.Some? ==> NoBlankFrom(s, from, r.value - 1)
    ensures r.None? ==> NoBlankFrom(s, from, |s|)
    decreases |s| - from
  {
    if from + 2 > |s| then None
    else if s[from] == '\n' && s[from + 1] == '\n' then Some(from + 2)
    else FindTerminator(s, from + 1)
  }

  /**
   * Text whose only `"\n\n"` is its last two characters ends the first block
   * found after anything that precedes it.
   */
  lemma TerminatorAtEnd(prefix: string, w: string)
    requires EndsWith(w, "\n\n")
    requires forall i :: 0 <= i < |w| - 2 ==> !(w[i] == '\n' && w[i + 1] == '\n')
    ensures FindTerminator(prefix + w, |prefix|) == Some(|prefix + w|)
  {
    var s := prefix + w;
    var n := |s|;
    assert s[n - 2] == w[|w| - 2] && s[n - 1] == w[|w| - 1];
    assert w[|w| - 2..] == "\n\n";
    assert w[|w| - 2] == '\n' && w[|w| - 1] == '\n';
  }

  // ---------------------------------------------------------------------------
  // One line: `field, value = line.split(/: ?/, 2)` and the `case`

  /**
   * `line.split(/: ?/, 2)` on a non-empty line: the text before the first colon
   * and, when there is a colon, the text after it less one optional space.
   */
  function SplitField(line: string): (r: (string, Option<string>))
    ensures ':' !in r.0
    ensures r.1.None? <==> ':' !in line
    ensures r.1.None? ==> r.0 == line
    ensures r.1.Some? ==> line == r.0 + ": " + r.1.value || line == r.0 + ":" + r.1.value
  {
    match SplitAtFirst(line, ':')
    case None => (line, None)
    case Some((field, rest)) =>
      if StartsWith(rest, " ") then
        assert line == field + ": " + rest[1..] by { assert rest == " " + rest[1..]; }
        (field, Some(rest[1..]))
      else
        (field, Some(rest))
  }

  /**
   * The effect of one line on the event under construction, or `None` for an
   * empty line, whose split gives no field and raises `NoMethodError` on
   * `nil.empty?`. A line with an empty field name (a comment such as the
   * heartbeat `": hb"`) and a line with an unknown field change nothing; `id`
   * and `event` set the id and the type (to `nil` when the line has no colon);
   * `data` appends its value, if any, and a newline.
   */
  function ApplyLine(e: Event, line: string): (r: Option<Event>)
    ensures r.None? <==> line == ""
    ensures r.Some? ==> r.value.data == e.data || (|r.value.data| > |e.data| && r.value.data[..|e.data|] == e.data)
  {
    if line == "" then None
    else
      var (field, value) := SplitField(line);
      if field == "id" then Some(e.(id := value))
      else if field == "event" then Some(e.(eventType := value))
      else if field == "data" then
        var d := e.data + value.GetOr("") + "\n";
        assert d[..|e.data|] == e.data;
        Some(e.(data := d))
      else Some(e)
  }

  /** The event after the lines in order, and whether every line was applied. */
  datatype Applied = Applied(event: Event, ok: bool)

  /** The lines applied in order; at the first empty line the loop stops with the event so far. */
  function ApplyLines(e: Event, lines: seq<string>): Applied
    decreases |lines|
  {
    if |lines| == 0 then Applied(e, true)
    else match ApplyLine(e, lines[0])
      case None => Applied(e, false)
      case Some(e1) => ApplyLines(e1, lines[1..])
  }

  /** The lines all apply exactly when none of them is empty. */
  lemma {:induction false} ApplyLinesOk(e: Event, lines: seq<string>)
    ensures ApplyLines(e, lines).ok <==> forall i :: 0 <= i < |lines| ==> lines[i] != ""
    decreases |lines|
  {
    if |lines| > 0 && lines[0] != "" {
      ApplyLinesOk(ApplyLine(e, lines[0]).value, lines[1..]);
      assert forall i :: 1 <= i < |lines| ==> lines[i] == lines[1..][i - 1];
    }
  }

  lemma {:induction false} ApplyLinesConcat(e: Event, a: seq<string>, b: seq<string>)
    ensures var ra := ApplyLines(e, a);
      ApplyLines(e, a + b) == if ra.ok then ApplyLines(ra.event, b) else ra
    decreases |a|
  {
    if |a| > 0 {
      assert (a + b)[0] == a[0] && (a + b)[1..] == a[1..] + b;
      match ApplyLine(e, a[0])
      case None =>
      case Some(e1) => ApplyLinesConcat(e1, a[1..], b);
    } else {
      assert a + b == b;
    }
  }

  /** `@event.data.chomp!`: the event as it is handed to the block. */
  function Close(e: Event): Event {
    e.(data := Chomp(e.data))
  }

  /** The lines of a consumed block, `lines.split("\n")`. */
  function BlockLines(block: string): seq<string> {
    RubySplit(block, '\n')
  }

  // ---------------------------------------------------------------------------
  // The scanner's state and one `<<` call

  /**
   * The scanner's state: the whole text received (`@body.string`), the scan
   * position (`@body.pos`), the event under construction (`@event`) and the events
   * handed to the block so far.
   */
  datatype ScanState = ScanState(body: string, pos: nat, event: Event, emitted: seq<Event>)

  predicate WellFormed(st: ScanState) {
    st.pos <= |st.body|
  }

  /** `EventScanner.new`. */
  const Initial := ScanState("", 0, Fresh, [])

  /** The new state after `<<`, and whether the call raised. */
  datatype Fed = Fed(state: ScanState, raised: bool)

  /**
   * `<<(segment)`: append the segment; if a `"\n\n"` now follows the scan position,
   * consume up to it and apply the block's lines; when every line applies, emit the
   * chomped event and start a fresh one. A call emits at most one event, even when
   * the buffer holds several complete blocks.
   */
  function Feed(st: ScanState, segment: string): (r: Fed)
    requires WellFormed(st)
    ensures WellFormed(r.state) && r.state.body == st.body + segment && st.pos <= r.state.pos
    ensures r.state.emitted == st.emitted
         || (|r.state.emitted| == |st.emitted| + 1 && r.state.emitted[..|st.emitted|] == st.emitted)
    ensures r.raised ==> r.state.emitted == st.emitted
  {
    var body := st.body + segment;
    match FindTerminator(body, st.pos)
    case None => Fed(st.(body := body), false)
    case Some(end) =>
      var applied := ApplyLines(st.event, BlockLines(body[st.pos..end]));
      if applied.ok then
        Fed(ScanState(body, end, Fresh, st.emitted + [Close(applied.event)]), false)
      else Fed(ScanState(body, end, applied.event, st.emitted), true)
  }

  // ---------------------------------------------------------------------------
  // Decoding what the encoder writes

  /** Each part followed by a newline: what the `data` lines append. */
  function Terminated(parts: seq<string>): string {
    if |parts| == 0 then "" else parts[0] + "\n" + Terminated(parts[1..])
  }

  lemma {:induction false} TerminatedJoin(parts: seq<string>)
    requires |parts| > 0
    ensures Terminated(parts) == Join(parts, '\n') + "\n"
  {
    if |parts| > 1 {
      TerminatedJoin(parts[1..]);
      assert Terminated(parts) == parts[0] + "\n" + (Join(parts[1..], '\n') + "\n");
    } else {
      assert Terminated(parts[1..]) == "";
    }
  }

  lemma LineAssoc(x: string, p: string, t: string)
    ensures x + p + "\n" + t == x + (p + "\n" + t)
  {
  }

  lemma TerminatedCons(x: string, parts: seq<string>)
    requires |parts| > 0
    ensures x + parts[0] + "\n" + Terminated(parts[1..]) == x + Terminated(parts)
  {
    LineAssoc(x, parts[0], Terminated(parts[1..]));
  }

  /** A line `"<name>: <value>"` whose name has no colon splits into that name and value. */
  lemma SplitFieldLine(name: string, v: string)
    requires ':' !in name
    ensures SplitField(name + ": " + v) == (name, Some(v))
  {
    var rest := " " + v;
    assert name + ": " + v == name + [':'] + rest;
    SplitAtFirstConcat(name, ':', rest);
    assert StartsWith(rest, " ") && rest[1..] == v;
  }

  /** A comment line, such as the heartbeat `": hb"`, leaves the event as it is. */
  lemma CommentIgnored(e: Event, line: string)
    requires |line| > 0 && line[0] == ':'
    ensures ApplyLine(e, line) == Some(e)
  {
    assert SplitAtFirst(line, ':') == Some(([], line[1..]));
  }

  /** The field lines of an encoded block set the id and the type and nothing else; `retry` is ignored. */
  lemma ApplyFieldLines(o: Options)
    requires LineSafe(o)
    ensures ApplyLines(Fresh, FieldLines(o)) == Applied(Event("", o.eventType, o.id), true)
  {
    var rl, il, el := OptionalLine("retry", o.retry), OptionalLine("id", o.id), OptionalLine("event", o.eventType);
    if o.retry.Some? { SplitFieldLine("retry", o.retry.value); }
    if o.id.Some? { SplitFieldLine("id", o.id.value); }
    if o.eventType.Some? { SplitFieldLine("event", o.eventType.value); }
    assert ApplyLines(Fresh, rl) == Applied(Fresh, true);
    ApplyLinesConcat(Fresh, rl, il);
    var e1 := Event("", None, o.id);
    assert ApplyLines(Fresh, rl + il) == Applied(e1, true);
    ApplyLinesConcat(Fresh, rl + il, el);
  }

  lemma ApplyDataLine(e: Event, p: string)
    ensures ApplyLine(e, "data: " + p) == Some(e.(data := e.data + p + "\n"))
  {
    SplitFieldLine("data", p);
    assert "data" + ": " + p == "data: " + p;
  }

  /** The data lines of an encoded block append each payload line and a newline. */
  lemma {:induction false} ApplyDataLines(e: Event, parts: seq<string>)
    ensures ApplyLines(e, DataLines(parts)) == Applied(e.(data := e.data + Terminated(parts)), true)
    decreases |parts|
  {
    if |parts| == 0 {
      assert e.data + "" == e.data;
    } else {
      var lines := DataLines(parts);
      var e1 := e.(data := e.data + parts[0] + "\n");
      ApplyDataLine(e, parts[0]);
      assert lines[1..] == DataLines(parts[1..]);
      ApplyDataLines(e1, parts[1..]);
      TerminatedCons(e.data, parts);
    }
  }

  /**
   * The round trip: the block that `server_sent_event` writes decodes to its data,
   * type and id, when the data does not end in a carriage return (which `chomp`
   * would also remove) and no option value holds a newline.
   */
  lemma DecodeEncoded(data: Option<string>, o: Options)
    requires LineSafe(o) && !EndsWith(Stringify(data), "\r")
    ensures var applied := ApplyLines(Fresh, BlockLines(ServerSentEvent(data, o)));
      applied.ok && Close(applied.event) == Event(Stringify(data), o.eventType, o.id)
  {
    var d := Stringify(data);
    var parts := SplitAll(d, '\n');
    EncodedBlockLines(data, o);
    ApplyEncodedLines(o, parts);
    EventLines(data, o);
    TerminatedJoin(parts);
    assert "" + Terminated(parts) == d + "\n";
    ChompNewline(d);
  }

  /** The lines a block splits into are its field lines and then its data lines. */
  lemma EncodedBlockLines(data: Option<string>, o: Options)
    requires LineSafe(o)
    ensures BlockLines(ServerSentEvent(data, o)) == FieldLines(o) + DataLines(SplitAll(Stringify(data), '\n'))
  {
    var parts := SplitAll(Stringify(data), '\n');
    var fl, dl := FieldLines(o), DataLines(parts);
    EventLines(data, o);
    assert dl[|dl| - 1] == "data: " + parts[|parts| - 1];
    assert (fl + dl)[|fl + dl| - 1] == dl[|dl| - 1];
    DropTrailingEmptyPad(fl + dl, ["", ""]);
  }

  /** Applying the field lines and then the data lines gives the options and the terminated payload. */
  lemma ApplyEncodedLines(o: Options, parts: seq<string>)
    requires LineSafe(o)
    ensures ApplyLines(Fresh, FieldLines(o) + DataLines(parts))
         == Applied(Event("" + Terminated(parts), o.eventType, o.id), true)
  {
    ApplyLinesConcat(Fresh, FieldLines(o), DataLines(parts));
    ApplyFieldLines(o);
    ApplyDataLines(Event("", o.eventType, o.id), parts);
  }

  /**
   * Feeding an encoded block to a scanner that has consumed everything it was
   * given emits that block's event, consumes the whole block and starts afresh.
   */
  lemma FeedEncoded(st: ScanState, data: Option<string>, o: Options)
    requires WellFormed(st) && st.pos == |st.body| && st.event == Fresh
    requires LineSafe(o) && !EndsWith(Stringify(data), "\r")
    ensures var w := ServerSentEvent(data, o);
      Feed(st, w) == Fed(ScanState(st.body + w, |st.body + w|, Fresh,
                                   st.emitted + [Event(Stringify(data), o.eventType, o.id)]), false)
  {
    var w := ServerSentEvent(data, o);
    TerminatorIsOnlyBlankLine(data, o);
    TerminatorAtEnd(st.body, w);
    DecodeEncoded(data, o);
    FeedWholeBlock(st, w);
  }

  /** A segment that is exactly one block whose lines all apply is consumed whole. */
  lemma FeedWholeBlock(st: ScanState, w: string)
    requires WellFormed(st) && st.pos == |st.body| && st.event == Fresh
    requires FindTerminator(st.body + w, |st.body|) == Some(|st.body + w|)
    requires ApplyLines(Fresh, BlockLines(w)).ok
    ensures Feed(st, w) == Fed(ScanState(st.body + w, |st.body + w|, Fresh,
                                         st.emitted + [Close(ApplyLines(Fresh, BlockLines(w)).event)]), false)
  {
    assert (st.body + w)[st.pos..|st.body + w|] == w;
  }

  /** What the server writes for one event: its data and options. */
  datatype Message = Message(data: Option<string>, options: Options)

  predicate Decodable(m: Message) {
    LineSafe(m.options) && !EndsWith(Stringify(m.data), "\r")
  }

  function Decoded(m: Message): Event {
    Event(Stringify(m.data), m.options.eventType, m.options.id)
  }

  function Encoded(m: Message): string {
    ServerSentEvent(m.data, m.options)
  }

  /** `<<` once per segment, in order. */
  function FeedAll(st: ScanState, segments: seq<string>): (r: ScanState)
    requires WellFormed(st)
    ensures WellFormed(r)
    decreases |segments|
  {
    if |segments| == 0 then st else FeedAll(Feed(st, segments[0]).state, segments[1..])
  }

  function EncodedAll(ms: seq<Message>): (r: seq<string>)
    ensures |r| == |ms| && forall i :: 0 <= i < |ms| ==> r[i] == Encoded(ms[i])
  {
    if |ms| == 0 then [] else [Encoded(ms[0])] + EncodedAll(ms[1..])
  }

  function DecodedAll(ms: seq<Message>): (r: seq<Event>)
    ensures |r| == |ms| && forall i :: 0 <= i < |ms| ==> r[i] == Decoded(ms[i])
  {
    if |ms| == 0 then [] else [Decoded(ms[0])] + DecodedAll(ms[1..])
  }

  lemma EventsAssoc(a: seq<Event>, x: Event, b: seq<Event>)
    ensures a + [x] + b == a + ([x] + b)
  {
  }

  /**
   * A stream of encoded events, one per `<<`, is decoded into exactly those events,
   * in order, each with its data, type and id.
   */
  lemma {:induction false} FeedStream(st: ScanState, ms: seq<Message>)
    requires WellFormed(st) && st.pos == |st.body| && st.event == Fresh
    requires forall i :: 0 <= i < |ms| ==> Decodable(ms[i])
    ensures var r := FeedAll(st, EncodedAll(ms));
      r.emitted == st.emitted + DecodedAll(ms) && r.pos == |r.body| && r.event == Fresh
    decreases |ms|
  {
    if |ms| == 0 {
      assert st.emitted + [] == st.emitted;
    } else {
      var m := ms[0];
      var segs := EncodedAll(ms);
      FeedEncoded(st, m.data, m.options);
      var st1 := Feed(st, segs[0]).state;
      assert segs[1..] == EncodedAll(ms[1..]);
      assert FeedAll(st, segs) == FeedAll(st1, segs[1..]);
      FeedStream(st1, ms[1..]);
      assert DecodedAll(ms) == [Decoded(m)] + DecodedAll(ms[1..]);
      EventsAssoc(st.emitted, Decoded(m), DecodedAll(ms[1..]));
    }
  }

  /** The scanner as it starts decodes a stream of encoded events into those events. */
  lemma DecodeStream(ms: seq<Message>)
    requires forall i :: 0 <= i < |ms| ==> Decodable(ms[i])
    ensures FeedAll(Initial, EncodedAll(ms)).emitted == DecodedAll(ms)
  {
    FeedStream(Initial, ms);
  }

  /** The heartbeat the server writes between events. */
  const Heartbeat := ": hb\n"

  /** An encoded block starts with a field name, never with a newline. */
  lemma EncodedStart(data: Option<string>, o: Options)
    requires LineSafe(o)
    ensures ServerSentEvent(data, o)[0] != '\n'
  {
    var x := DataField(Stringify(data));
    var fe, fi, fr := FieldLine("event", o.eventType), FieldLine("id", o.id), FieldLine("retry", o.retry);
    DataPartNoBlank(Stringify(data));
    FieldLineNoBlank("event", o.eventType);
    FieldLineNoBlank("id", o.id);
    FieldLineNoBlank("retry", o.retry);
    PrependFieldLine(fe, x);
    PrependFieldLine(fi, fe + x);
    PrependFieldLine(fr, fi + (fe + x));
    assert ServerSentEvent(data, o) == fr + (fi + (fe + x)) + "\n";
  }

  /** A heartbeat in front of a block adds no blank line. */
  lemma HeartbeatPrefix(w: string)
    requires EndsWith(w, "\n\n") && w[0] != '\n'
    requires forall i :: 0 <= i < |w| - 2 ==> !(w[i] == '\n' && w[i + 1] == '\n')
    ensures var x := Heartbeat + w;
      && EndsWith(x, "\n\n")
      && forall i :: 0 <= i < |x| - 2 ==> !(x[i] == '\n' && x[i + 1] == '\n')
  {
    var x := Heartbeat + w;
    assert x[|x| - 2..] == w[|w| - 2..];
    forall i | 0 <= i < |x| - 2 ensures !(x[i] == '\n' && x[i + 1] == '\n') {
      if i >= 5 {
        assert x[i] == w[i - 5] && x[i + 1] == w[i - 4];
      } else if i == 4 {
        assert x[i + 1] == w[0];
      } else {
        assert x[i] == Heartbeat[i];
      }
    }
  }

  /** The heartbeat is one comment line in front of the block's own lines. */
  lemma HeartbeatLines(w: string)
    ensures BlockLines(Heartbeat + w) == [": hb"] + BlockLines(w)
  {
    assert Heartbeat + w == ": hb" + ['\n'] + w;
    SplitAllAfterSeparator(": hb", w, '\n');
    DropTrailingEmptyCons(": hb", SplitAll(w, '\n'));
  }

  /** A heartbeat on its own holds no blank line, so nothing is consumed. */
  lemma HeartbeatPending(body: string)
    ensures FindTerminator(body + Heartbeat, |body|) == None
  {
    var s := body + Heartbeat;
    var n := |body|;
    assert s[n] == ':' && s[n + 1] == ' ' && s[n + 2] == 'h' && s[n + 3] == 'b';
  }

  /** A segment that completes exactly one block whose lines all apply emits that block's event. */
  lemma FeedBlock(st: ScanState, segment: string, ev: Event)
    requires WellFormed(st)
    requires FindTerminator(st.body + segment, st.pos) == Some(|st.body + segment|)
    requires var a := ApplyLines(st.event, BlockLines((st.body + segment)[st.pos..]));
      a.ok && Close(a.event) == ev
    ensures Feed(st, segment) == Fed(ScanState(st.body + segment, |st.body + segment|, Fresh, st.emitted + [ev]), false)
  {
    var b := st.body + segment;
    assert b[st.pos..|b|] == b[st.pos..];
  }

  lemma StringAssoc(a: string, b: string, c: string)
    ensures a + b + c == a + (b + c)
  {
  }

  lemma DecodeAfterHeartbeat(data: Option<string>, o: Options)
    requires LineSafe(o) && !EndsWith(Stringify(data), "\r")
    ensures var applied := ApplyLines(Fresh, BlockLines(Heartbeat + ServerSentEvent(data, o)));
      applied.ok && Close(applied.event) == Event(Stringify(data), o.eventType, o.id)
  {
    var w := ServerSentEvent(data, o);
    HeartbeatLines(w);
    CommentIgnored(Fresh, ": hb");
    ApplyLinesConcat(Fresh, [": hb"], BlockLines(w));
    DecodeEncoded(data, o);
  }

  /** An encoded block after a pending heartbeat emits the block's event. */
  lemma FeedAfterHeartbeat(st: ScanState, data: Option<string>, o: Options)
    requires WellFormed(st) && st.event == Fresh
    requires |st.body| == st.pos + |Heartbeat| && st.body[st.pos..] == Heartbeat
    requires LineSafe(o) && !EndsWith(Stringify(data), "\r")
    ensures Feed(st, ServerSentEvent(data, o)).state.emitted
         == st.emitted + [Event(Stringify(data), o.eventType, o.id)]
  {
    var w := ServerSentEvent(data, o);
    var prefix := st.body[..st.pos];
    var x := Heartbeat + w;
    assert st.body == prefix + Heartbeat;
    StringAssoc(prefix, Heartbeat, w);
    TerminatorIsOnlyBlankLine(data, o);
    EncodedStart(data, o);
    HeartbeatPrefix(w);
    TerminatorAtEnd(prefix, x);
    assert (prefix + x)[st.pos..] == x;
    DecodeAfterHeartbeat(data, o);
    FeedBlock(st, w, Event(Stringify(data), o.eventType, o.id));
  }

  /**
   * A heartbeat received before an event emits nothing on its own, and the event
   * that follows it decodes as if the heartbeat had not been sent.
   */
  lemma HeartbeatIgnored(st: ScanState, data: Option<string>, o: Options)
    requires WellFormed(st) && st.pos == |st.body| && st.event == Fresh
    requires LineSafe(o) && !EndsWith(Stringify(data), "\r")
    ensures var hb := Feed(st, Heartbeat);
      && !hb.raised && hb.state.emitted == st.emitted && hb.state.event == Fresh
      && Feed(hb.state, ServerSentEvent(data, o)).state.emitted
         == st.emitted + [Event(Stringify(data), o.eventType, o.id)]
  {
    HeartbeatPending(st.body);
    var hb := Feed(st, Heartbeat);
    assert hb.state.body[st.pos..] == Heartbeat;
    FeedAfterHeartbeat(hb.state, data, o);
  }

  // ---------------------------------------------------------------------------
  // The scanner object

  /** `EventScanner`: the buffer, the event under construction and the events handed to the block. */
  class Scanner {
    var body: string
    var pos: nat
    var event: Event
    var emitted: seq<Event>

    function State(): ScanState
      reads this
    {
      ScanState(body, pos, event, emitted)
    }

    predicate Valid()
      reads this
    {
      pos <= |body|
    }

    /** `EventScanner.new { |event| ... }`; the block's calls are recorded in `emitted`. */
    constructor ()
      ensures Valid() && State() == Initial
    {
      body, pos, event, emitted := "", 0, Fresh, [];
    }

    /** `<<(segment)`; `raised` is the `NoMethodError` an empty line in a block raises. */
    method Push(segment: string) returns (raised: bool)
      requires Valid()
      modifies this
      ensures Valid() && Fed(State(), raised) == Feed(old(State()), segment)
    {
      ghost var st := State();
      body := body + segment;
      raised := false;
      var found := FindTerminator(body, pos);
      if found.None? {
        return;
      }
      var applied := ApplyBlock(event, BlockLines(body[pos..found.value]));
      pos := found.value;
      event := applied.event;
      if !applied.ok {
        raised := true;
        return;
      }
      event := Close(event);
      emitted := emitted + [event];
      event := Fresh;
    }
  }

  /** The loop of `<<` over the lines of one block, stopping at the first that raises. */
  method ApplyBlock(start: Event, lines: seq<string>) returns (r: Applied)
    ensures r == ApplyLines(start, lines)
  {
    var event := start;
    var i := 0;
    while i < |lines|
      invariant 0 <= i <= |lines|
      invariant ApplyLines(event, lines[i..]) == ApplyLines(start, lines)
    {
      assert lines[i..][1..] == lines[i + 1..];
      var next := ApplyLine(event, lines[i]);
      if next.None? {
        return Applied(event, false);
      }
      event := next.value;
      i := i + 1;
    }
    assert lines[i..] == [];
    return Applied(event, true);
  }

  /**
   * What the system tests do with one event: a new scanner is given the encoded
   * block and hands back the event it decodes, with the data, type and id encoded.
   */
  method RoundTrip(data: Option<string>, o: Options) returns (e: Event)
    requires LineSafe(o) && !EndsWith(Stringify(data), "\r")
    ensures e == Event(Stringify(data), o.eventType, o.id)
  {
    var scanner := new Scanner();
    var raised := scanner.Push(ServerSentEvent(data, o));
    FeedEncoded(Initial, data, o);
    e := scanner.emitted[0];
  }
}
