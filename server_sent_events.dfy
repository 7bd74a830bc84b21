/**
 * The wire encoder of lib/redisse/server_sent_events.rb: one text/event-stream
 * block (section 9.2.5, "Parsing an event stream", of the WHATWG HTML Living
 * Standard) built from a payload and the optional `retry`, `id` and `type` options.
 */
module ServerSentEvents {
  import opened Wrappers
  import opened Text

  /** The options hash: each value already rendered with `to_s`; `None` is an absent key. */
  datatype Options = Options(retry: Option<string>, id: Option<string>, eventType: Option<string>)

  const NoOptions := Options(None, None, None)

  /** `String(data)`: `nil` becomes the empty string. */
  function Stringify(data: Option<string>): string {
    data.GetOr("")
  }

  /** `s.gsub("\n", "\ndata: ")`: every newline starts a new `data` line. */
  function ExpandNewlines(s: string): string {
    if |s| == 0 then ""
    else (if s[0] == '\n' then "\ndata: " else [s[0]]) + ExpandNewlines(s[1..])
  }

  /** `"<name>: <value>\n"` when the option is given, nothing otherwise. */
  function FieldLine(name: string, value: Option<string>): string {
    if value.Some? then name + ": " + value.value + "\n" else ""
  }

  /** `"data: " + String(data).gsub("\n", "\ndata: ") + "\n"`. */
  function DataField(d: string): string {
    "data: " + ExpandNewlines(d) + "\n"
  }

  /**
   * `server_sent_event(data, options)`: the optional `retry`, `id` and `event`
   * lines, the data lines, then the empty line that ends the block.
   */
  function ServerSentEvent(data: Option<string>, o: Options): (wire: string)
    ensures EndsWith(wire, "\n\n")
  {
    FieldLine("retry", o.retry) + (FieldLine("id", o.id) + (FieldLine("event", o.eventType)
      + (DataField(Stringify(data)) + "\n")))
  }

  // ---------------------------------------------------------------------------
  // The block, line by line

  predicate NoNewline(v: Option<string>) {
    v.Some? ==> '\n' !in v.value
  }

  /** The option values that keep the block's line structure: none holds a newline. */
  predicate LineSafe(o: Options) {
    NoNewline(o.retry) && NoNewline(o.id) && NoNewline(o.eventType)
  }

  function OptionalLine(name: string, value: Option<string>): seq<string> {
    if value.Some? then [name + ": " + value.value] else []
  }

  /** The field lines in the order they are written: `retry`, `id`, `event`. */
  function FieldLines(o: Options): seq<string> {
    OptionalLine("retry", o.retry) + OptionalLine("id", o.id) + OptionalLine("event", o.eventType)
  }

  function DataLines(parts: seq<string>): (lines: seq<string>)
    ensures |lines| == |parts|
    ensures forall i :: 0 <= i < |parts| ==> lines[i] == "data: " + parts[i]
  {
    if |parts| == 0 then [] else ["data: " + parts[0]] + DataLines(parts[1..])
  }

  lemma {:induction false} SplitExpand(p: string, d: string)
    requires '\n' !in p
    ensures var parts := SplitAll(d, '\n');
      SplitAll(p + ExpandNewlines(d), '\n') == [p + parts[0]] + DataLines(parts[1..])
    decreases |d|
  {
    if |d| == 0 {
      SplitAllNoSeparator(p, '\n');
      assert p + ExpandNewlines(d) == p;
    } else {
      var s1 := SplitAll(d[1..], '\n');
      if d[0] == '\n' {
        assert p + ExpandNewlines(d) == p + ['\n'] + ("data: " + ExpandNewlines(d[1..]));
        SplitAllAfterSeparator(p, "data: " + ExpandNewlines(d[1..]), '\n');
        SplitExpand("data: ", d[1..]);
        assert SplitAll(d, '\n') == [""] + s1;
        assert DataLines(s1) == ["data: " + s1[0]] + DataLines(s1[1..]);
        assert ([""] + s1)[1..] == s1;
        assert p + "" == p;
      } else {
        assert p + ExpandNewlines(d) == (p + [d[0]]) + ExpandNewlines(d[1..]);
        assert '\n' !in p + [d[0]];
        SplitExpand(p + [d[0]], d[1..]);
        assert SplitAll(d, '\n') == [[d[0]] + s1[0]] + s1[1..];
        assert (p + [d[0]]) + s1[0] == p + ([d[0]] + s1[0]);
      }
    }
  }

  lemma DataPartLines(d: string)
    ensures SplitAll(DataField(d) + "\n", '\n') == DataLines(SplitAll(d, '\n')) + ["", ""]
  {
    var parts := SplitAll(d, '\n');
    var x := "data: " + ExpandNewlines(d);
    SplitExpand("data: ", d);
    assert SplitAll(x, '\n') == DataLines(parts);
    SplitAllConcat(x, "\n\n", '\n');
    assert SplitAll("\n\n", '\n') == ["", "", ""];
    var dl := DataLines(parts);
    assert ConcatFields(dl, ["", "", ""], SplitAll(x + "\n\n", '\n'));
    LastFieldEmpty(dl, ["", ""]);
    assert SplitAll(x + "\n\n", '\n') == dl + ["", ""];
    assert DataField(d) + "\n" == x + "\n\n";
  }

  lemma LastFieldEmpty(a: seq<string>, b: seq<string>)
    requires |a| > 0
    ensures a[..|a| - 1] + [a[|a| - 1] + ""] + b == a + b
  {
    assert a[|a| - 1] + "" == a[|a| - 1];
    assert a[..|a| - 1] + [a[|a| - 1]] == a;
  }

  lemma FieldLinePrefix(name: string, value: Option<string>, rest: string)
    requires '\n' !in name && NoNewline(value)
    ensures SplitAll(FieldLine(name, value) + rest, '\n') == OptionalLine(name, value) + SplitAll(rest, '\n')
  {
    if value.Some? {
      NoNewlineLine(name, value.value);
      var line := name + ": " + value.value;
      assert FieldLine(name, value) + rest == line + ['\n'] + rest;
      SplitAllAfterSeparator(line, rest, '\n');
    } else {
      assert FieldLine(name, value) + rest == rest;
    }
  }

  lemma NoNewlineLine(name: string, v: string)
    requires '\n' !in name && '\n' !in v
    ensures '\n' !in name + ": " + v
  {
    forall i | 0 <= i < |name + ": " + v| ensures (name + ": " + v)[i] != '\n' {
      if i < |name| {
        assert (name + ": " + v)[i] == name[i];
      } else if i >= |name| + 2 {
        assert (name + ": " + v)[i] == v[i - |name| - 2];
      }
    }
  }

  lemma SeqAssoc<T>(a: seq<T>, b: seq<T>, c: seq<T>, r: seq<T>)
    ensures a + (b + (c + r)) == a + b + c + r
  {
  }

  /** The three optional field lines in front of `rest` split into their own lines. */
  lemma FieldsPrefix(o: Options, rest: string)
    requires LineSafe(o)
    ensures SplitAll(FieldLine("retry", o.retry) + (FieldLine("id", o.id) + (FieldLine("event", o.eventType) + rest)), '\n')
         == FieldLines(o) + SplitAll(rest, '\n')
  {
    var fe, fi := FieldLine("event", o.eventType), FieldLine("id", o.id);
    var r := SplitAll(rest, '\n');
    var rl, il, el := OptionalLine("retry", o.retry), OptionalLine("id", o.id), OptionalLine("event", o.eventType);
    FieldLinePrefix("event", o.eventType, rest);
    assert SplitAll(fe + rest, '\n') == el + r;
    FieldLinePrefix("id", o.id, fe + rest);
    assert SplitAll(fi + (fe + rest), '\n') == il + (el + r);
    FieldLinePrefix("retry", o.retry, fi + (fe + rest));
    SeqAssoc(rl, il, el, r);
  }

  /**
   * The lines of an encoded block: the given options in the order `retry`, `id`,
   * `event`, then one `data: ` line per line of the payload, in order (k embedded
   * newlines give k + 1 of them), then the empty line of the terminator.
   */
  lemma EventLines(data: Option<string>, o: Options)
    requires LineSafe(o)
    ensures var d := Stringify(data);
      var parts := SplitAll(d, '\n');
      && SplitAll(ServerSentEvent(data, o), '\n') == FieldLines(o) + DataLines(parts) + ["", ""]
      && |parts| == Count(d, '\n') + 1
      && Join(parts, '\n') == d
  {
    var d := Stringify(data);
    DataPartLines(d);
    FieldsPrefix(o, DataField(d) + "\n");
    SplitAllCount(d, '\n');
    JoinSplit(d, '\n');
  }

  // ---------------------------------------------------------------------------
  // The terminator is the only blank line

  /** No two consecutive newlines in `s`. */
  predicate NoBlankLine(s: string) {
    forall i :: 0 <= i < |s| - 1 ==> !(s[i] == '\n' && s[i + 1] == '\n')
  }

  lemma NoBlankLineConcat(a: string, b: string)
    requires NoBlankLine(a) && NoBlankLine(b)
    requires |a| > 0 && |b| > 0 ==> !(a[|a| - 1] == '\n' && b[0] == '\n')
    ensures NoBlankLine(a + b)
  {
    forall i | 0 <= i < |a + b| - 1 ensures !((a + b)[i] == '\n' && (a + b)[i + 1] == '\n') {
      if i + 1 < |a| {
        assert (a + b)[i] == a[i] && (a + b)[i + 1] == a[i + 1];
      } else if i >= |a| {
        assert (a + b)[i] == b[i - |a|] && (a + b)[i + 1] == b[i - |a| + 1];
      } else {
        assert (a + b)[i] == a[|a| - 1] && (a + b)[i + 1] == b[0];
      }
    }
  }

  /** Every newline in `s` is followed by `"data: "`. */
  predicate NewlinesFollowed(e: string) {
    forall i :: 0 <= i < |e| && e[i] == '\n' ==> i + 7 <= |e| && e[i + 1..i + 7] == "data: "
  }

  /** A newline that `gsub` wrote is followed by its own `"data: "`. */
  lemma ExpandedHeadFollowed(e1: string)
    ensures var e := "\ndata: " + e1; 7 <= |e| && e[1..7] == "data: "
  {
  }

  /** A newline of the tail is still followed by `"data: "` once something is put in front. */
  lemma TailFollowed(head: string, e1: string, j: int)
    requires 0 <= j < |e1| && j + 7 <= |e1| && e1[j + 1..j + 7] == "data: "
    ensures var i := |head| + j; i + 7 <= |head + e1| && (head + e1)[i + 1..i + 7] == "data: "
  {
    var i := |head| + j;
    assert (head + e1)[i + 1..i + 7] == e1[j + 1..j + 7];
  }

  lemma NewlinesFollowedCons(head: string, e1: string)
    requires head == "\ndata: " || (|head| == 1 && head[0] != '\n')
    requires NewlinesFollowed(e1)
    ensures NewlinesFollowed(head + e1)
  {
    var e := head + e1;
    forall i | 0 <= i < |e| && e[i] == '\n' ensures i + 7 <= |e| && e[i + 1..i + 7] == "data: " {
      if i < |head| {
        assert e[i] == head[i];
        assert i == 0 && head == "\ndata: ";
        ExpandedHeadFollowed(e1);
      } else {
        assert e[i] == e1[i - |head|];
        TailFollowed(head, e1, i - |head|);
      }
    }
  }

  /** Every newline that `gsub` leaves in the payload is followed by `"data: "`. */
  lemma {:induction false} ExpandedNewlinesFollowed(d: string)
    ensures NewlinesFollowed(ExpandNewlines(d))
  {
    if |d| > 0 {
      ExpandedNewlinesFollowed(d[1..]);
      var head := if d[0] == '\n' then "\ndata: " else [d[0]];
      NewlinesFollowedCons(head, ExpandNewlines(d[1..]));
    }
  }

  lemma {:induction false} ExpandedLast(d: string)
    ensures var e := ExpandNewlines(d); |e| > 0 ==> e[|e| - 1] != '\n'
  {
    if |d| > 0 {
      ExpandedLast(d[1..]);
      var head := if d[0] == '\n' then "\ndata: " else [d[0]];
      var e1 := ExpandNewlines(d[1..]);
      assert ExpandNewlines(d) == head + e1;
      if |e1| == 0 {
        assert (head + e1)[|head + e1| - 1] == head[|head| - 1];
      } else {
        assert (head + e1)[|head + e1| - 1] == e1[|e1| - 1];
      }
    }
  }

  lemma DataPartNoBlank(d: string)
    ensures var x := DataField(d);
      NoBlankLine(x) && x[0] == 'd'
  {
    var e := ExpandNewlines(d);
    var x := DataField(d);
    ExpandedNewlinesFollowed(d);
    ExpandedLast(d);
    forall i | 0 <= i < |x| - 1 ensures !(x[i] == '\n' && x[i + 1] == '\n') {
      if 6 <= i < |x| - 2 {
        assert x[i] == e[i - 6];
        if e[i - 6] == '\n' {
          assert e[i - 5..i + 1] == "data: ";
          assert x[i + 1] == e[i - 5];
        }
      } else if i == |x| - 2 && |e| > 0 {
        assert x[i] == e[|e| - 1];
      }
    }
  }

  /** A field line: no blank line inside, not starting with a newline, ending with one. */
  predicate FieldLineShape(f: string) {
    NoBlankLine(f) && (|f| > 0 ==> f[0] != '\n' && f[|f| - 1] == '\n')
  }

  lemma FieldLineNoBlank(name: string, value: Option<string>)
    requires '\n' !in name && |name| > 0 && NoNewline(value)
    ensures FieldLineShape(FieldLine(name, value))
  {
    if value.Some? {
      var line := name + ": " + value.value;
      NoNewlineLine(name, value.value);
      var f := line + "\n";
      assert FieldLine(name, value) == f;
      forall i | 0 <= i < |f| - 1 ensures f[i] != '\n' {
        assert f[i] == line[i];
      }
      assert f[0] == name[0];
    }
  }

  /** Putting a field line in front of a part that does not start with a newline. */
  lemma PrependFieldLine(f: string, x: string)
    requires FieldLineShape(f) && NoBlankLine(x) && |x| > 0 && x[0] != '\n'
    ensures NoBlankLine(f + x) && (f + x)[0] != '\n'
  {
    NoBlankLineConcat(f, x);
    if |f| > 0 {
      assert (f + x)[0] == f[0];
    } else {
      assert f + x == x;
    }
  }

  /**
   * When no option value holds a newline, the only blank line of an encoded block
   * is its terminator: the first `"\n\n"` is the last two characters.
   */
  lemma TerminatorIsOnlyBlankLine(data: Option<string>, o: Options)
    requires LineSafe(o)
    ensures var wire := ServerSentEvent(data, o);
      forall i :: 0 <= i < |wire| - 2 ==> !(wire[i] == '\n' && wire[i + 1] == '\n')
  {
    var x := DataField(Stringify(data));
    var fe, fi, fr := FieldLine("event", o.eventType), FieldLine("id", o.id), FieldLine("retry", o.retry);
    DataPartNoBlank(Stringify(data));
    FieldLineNoBlank("event", o.eventType);
    FieldLineNoBlank("id", o.id);
    FieldLineNoBlank("retry", o.retry);
    PrependFieldLine(fe, x);
    PrependFieldLine(fi, fe + x);
    PrependFieldLine(fr, fi + (fe + x));
    var body := fr + (fi + (fe + x));
    var wire := ServerSentEvent(data, o);
    assert wire == body + "\n";
    forall i | 0 <= i < |wire| - 2 ensures !(wire[i] == '\n' && wire[i + 1] == '\n') {
      assert wire[i] == body[i] && wire[i + 1] == body[i + 1];
    }
  }

  // ---------------------------------------------------------------------------
  // The examples of spec/server_sent_events_spec.rb

  lemma BasicEvent()
    ensures ServerSentEvent(Some("foobar"), NoOptions) == "data: foobar\n\n"
  {
  }

  /** `gsub` works piece by piece. */
  lemma {:induction false} ExpandNewlinesConcat(a: string, b: string)
    ensures ExpandNewlines(a + b) == ExpandNewlines(a) + ExpandNewlines(b)
  {
    if |a| == 0 {
      assert a + b == b;
    } else {
      assert (a + b)[0] == a[0] && (a + b)[1..] == a[1..] + b;
      ExpandNewlinesConcat(a[1..], b);
    }
  }

  lemma {:induction false} ExpandNoNewline(s: string)
    requires '\n' !in s
    ensures ExpandNewlines(s) == s
  {
    if |s| > 0 {
      assert s[0] != '\n' && '\n' !in s[1..];
      ExpandNoNewline(s[1..]);
      assert [s[0]] + s[1..] == s;
    }
  }

  /** A newline-free line followed by a newline: the rest starts a new `data` line. */
  lemma ExpandLine(a: string, rest: string)
    requires '\n' !in a
    ensures ExpandNewlines(a + ("\n" + rest)) == a + ("\ndata: " + ExpandNewlines(rest))
  {
    ExpandNewlinesConcat(a, "\n" + rest);
    ExpandNoNewline(a);
    assert ("\n" + rest)[0] == '\n' && ("\n" + rest)[1..] == rest;
  }

  /** With no options, the block is the data field and the blank line. */
  lemma NoOptionsEvent(d: string)
    ensures ServerSentEvent(Some(d), NoOptions) == "data: " + ExpandNewlines(d) + "\n\n"
  {
  }

  /** Three newline-free lines joined by newlines: the second and third start `data` lines. */
  lemma ExpandThreeLines(a: string, b: string, c: string)
    requires '\n' !in a && '\n' !in b && '\n' !in c
    ensures ExpandNewlines(a + ("\n" + (b + ("\n" + c)))) == a + ("\ndata: " + (b + ("\ndata: " + c)))
  {
    ExpandNoNewline(c);
    ExpandLine(b, c);
    ExpandLine(a, b + ("\n" + c));
  }

  /**
   * A payload of three lines, as in the example `"hello\nworld\n!"`: three `data`
   * lines, then the blank line.
   */
  lemma MultiLineEvent(a: string, b: string, c: string)
    requires '\n' !in a && '\n' !in b && '\n' !in c
    ensures ServerSentEvent(Some(a + ("\n" + (b + ("\n" + c)))), NoOptions)
         == "data: " + a + ("\ndata: " + (b + ("\ndata: " + c))) + "\n\n"
  {
    ExpandThreeLines(a, b, c);
    NoOptionsEvent(a + ("\n" + (b + ("\n" + c))));
  }

  lemma NilData()
    ensures ServerSentEvent(None, NoOptions) == "data: \n\n"
  {
  }

}
