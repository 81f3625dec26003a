/**
 * The text/event-stream wire format: the frames the server writes and the
 * interpretation a browser's EventSource applies to them, after section 9.2.6
 * ("Interpreting an event stream") of the WHATWG HTML Living Standard.
 */
module SseWire {
  import opened Wrappers
  import opened Text

  /** `event: <type>\n` followed by `data: <json>\n\n`. */
  function EventFrame(kind: string, json: string): string
  {
    "event: " + kind + "\n" + "data: " + json + "\n\n"
  }

  /** A comment frame, `: <text>\n\n`, ignored by the receiver. */
  function CommentFrame(text: string): string
  {
    ": " + text + "\n\n"
  }

  /** The blank line written when a stream is opened, to get past proxy buffering. */
  const Preamble: string := "\n"

  /** One event the receiver hands to the page: its type and its data. */
  datatype Dispatched = Dispatched(kind: string, data: string)

  /** The receiver's state: the current line, whether the last character was a CR
      (so that a following LF ends nothing), the event type and data buffers, and
      the events dispatched so far. The last-event-id and retry fields are not kept. */
  datatype Receiver = Receiver(line: string, afterCR: bool, eventType: string, data: string,
                               dispatched: seq<Dispatched>)

  /** Between frames: nothing buffered, `events` dispatched so far. */
  function Idle(events: seq<Dispatched>): Receiver
  {
    Receiver("", false, "", "", events)
  }

  /** "Dispatch the event": nothing happens for an empty data buffer; otherwise one
      trailing LF is dropped and the type defaults to "message". Both buffers are reset. */
  function DispatchEvent(r: Receiver): (r': Receiver)
    ensures r'.eventType == "" && r'.data == ""
    ensures r.data == "" ==> r'.dispatched == r.dispatched
    ensures r.data != "" ==> |r'.dispatched| == |r.dispatched| + 1
  {
    if r.data == "" then r.(eventType := "", data := "")
    else
      var data := if r.data[|r.data| - 1] == '\n' then r.data[..|r.data| - 1] else r.data;
      var kind := if r.eventType == "" then "message" else r.eventType;
      r.(dispatched := r.dispatched + [Dispatched(kind, data)], eventType := "", data := "")
  }

  function ProcessField(r: Receiver, field: string, value: string): Receiver
  {
    if field == "event" then r.(eventType := value)
    else if field == "data" then r.(data := r.data + value + "\n")
    else r
  }

  /** One complete line: blank dispatches, ':' starts a comment, otherwise
      `field:value` with one leading space of the value removed. */
  function ProcessLine(r: Receiver, line: string): Receiver
  {
    if line == "" then DispatchEvent(r)
    else if line[0] == ':' then r
    else
      match SplitFirst(line, ':')
      case Some(parts) =>
        ProcessField(r, parts.0, if parts.1 != "" && parts.1[0] == ' ' then parts.1[1..] else parts.1)
      case None => ProcessField(r, line, "")
  }

  /** One character of the stream; CRLF, LF and CR each end a line. */
  function Step(r: Receiver, c: char): Receiver
  {
    if c == '\n' && r.afterCR then r.(afterCR := false)
    else if c == '\n' || c == '\r' then ProcessLine(r, r.line).(line := "", afterCR := c == '\r')
    else r.(line := r.line + [c], afterCR := false)
  }

  function Run(r: Receiver, s: string): Receiver
    decreases s
  {
    if s == [] then r else Run(Step(r, s[0]), s[1..])
  }

  /** What a fresh receiver has dispatched after reading `s`. */
  function Interpret(s: string): seq<Dispatched>
  {
    Run(Idle([]), s).dispatched
  }

  /** Reading `a + b` is reading `a` and then `b`. */
  lemma {:induction false} RunConcat(r: Receiver, a: string, b: string)
    ensures Run(r, a + b) == Run(Run(r, a), b)
    decreases a
  {
    if a == [] {
      assert a + b == b;
    } else {
      assert (a + b)[0] == a[0];
      assert (a + b)[1..] == a[1..] + b;
      RunConcat(Step(r, a[0]), a[1..], b);
    }
  }

  /** Characters of one line are only collected. */
  lemma {:induction false} RunText(r: Receiver, s: string)
    requires !r.afterCR && NoLineBreak(s)
    ensures Run(r, s) == r.(line := r.line + s)
    decreases s
  {
    if s != [] {
      assert r.line + [s[0]] + s[1..] == r.line + s;
      RunText(Step(r, s[0]), s[1..]);
    }
  }

  /** A line terminated by LF is processed as a whole. */
  lemma RunLine(r: Receiver, s: string)
    requires !r.afterCR && r.line == "" && NoLineBreak(s)
    ensures Run(r, s + "\n") == ProcessLine(r, s).(line := "", afterCR := false)
  {
    RunConcat(r, s, "\n");
    RunText(r, s);
    assert r.line + s == s;
    var r' := r.(line := s);
    assert Run(r, s) == r';
    assert Run(r', "\n") == Run(Step(r', '\n'), "\n"[1..]);
    assert "\n"[1..] == "";
    assert Step(r', '\n') == ProcessLine(r', s).(line := "", afterCR := false);
    ProcessLineIgnoresLine(r, s, s);
  }

  lemma ProcessLineIgnoresLine(r: Receiver, line: string, x: string)
    ensures ProcessLine(r.(line := x), line) == ProcessLine(r, line).(line := x)
  {
  }

  lemma FieldLine(r: Receiver, field: string, value: string)
    requires field != "" && field[0] != ':' && forall i :: 0 <= i < |field| ==> field[i] != ':'
    ensures ProcessLine(r, field + ": " + value) == ProcessField(r, field, value)
  {
    assert field + ": " + value == field + [':'] + (" " + value);
    SplitFirstJoin(field, ':', " " + value);
    assert (" " + value)[1..] == value;
  }

  /** A field line `name: value` terminated by LF, read at the start of a line. */
  lemma FieldLineRun(r: Receiver, field: string, value: string)
    requires !r.afterCR && r.line == "" && NoLineBreak(field) && NoLineBreak(value)
    requires field != "" && forall i :: 0 <= i < |field| ==> field[i] != ':'
    ensures Run(r, field + ": " + value + "\n") == ProcessField(r, field, value)
  {
    NoLineBreakConcat(field, ": ");
    NoLineBreakConcat(field + ": ", value);
    RunLine(r, field + ": " + value);
    FieldLine(r, field, value);
  }

  lemma EventLineRun(events: seq<Dispatched>, kind: string)
    requires NoLineBreak(kind)
    ensures Run(Idle(events), "event: " + kind + "\n") == Idle(events).(eventType := kind)
  {
    assert "event: " + kind + "\n" == "event" + ": " + kind + "\n";
    FieldLineRun(Idle(events), "event", kind);
  }

  lemma DataLineRun(r: Receiver, json: string)
    requires !r.afterCR && r.line == "" && r.data == "" && NoLineBreak(json)
    ensures Run(r, "data: " + json + "\n") == r.(data := json + "\n")
  {
    assert "data: " + json + "\n" == "data" + ": " + json + "\n";
    FieldLineRun(r, "data", json);
    assert r.data + json + "\n" == json + "\n";
  }

  lemma BlankLineDispatches(r: Receiver, json: string)
    requires !r.afterCR && r.line == "" && r.data == json + "\n"
    ensures Run(r, "\n") ==
            Idle(r.dispatched + [Dispatched(if r.eventType == "" then "message" else r.eventType, json)])
  {
    RunLine(r, "");
    assert "" + "\n" == "\n";
    assert (json + "\n")[..|json + "\n"| - 1] == json;
  }

  /** An event frame read between frames dispatches exactly one event, carrying the
      frame's type (or "message" for an empty type) and its data line, and leaves the
      receiver between frames again. */
  lemma EventFrameDispatches(events: seq<Dispatched>, kind: string, json: string)
    requires NoLineBreak(kind) && NoLineBreak(json)
    ensures Run(Idle(events), EventFrame(kind, json)) ==
            Idle(events + [Dispatched(if kind == "" then "message" else kind, json)])
  {
    var l1 := "event: " + kind + "\n";
    var l2 := "data: " + json + "\n";
    assert EventFrame(kind, json) == l1 + (l2 + "\n");
    RunConcat(Idle(events), l1, l2 + "\n");
    EventLineRun(events, kind);
    var r1 := Idle(events).(eventType := kind);
    RunConcat(r1, l2, "\n");
    DataLineRun(r1, json);
    BlankLineDispatches(r1.(data := json + "\n"), json);
  }

  /** A comment frame dispatches nothing. */
  lemma CommentFrameIsSilent(events: seq<Dispatched>, text: string)
    requires NoLineBreak(text)
    ensures Run(Idle(events), CommentFrame(text)) == Idle(events)
  {
    var r0 := Idle(events);
    var l := ": " + text;
    NoLineBreakConcat(": ", text);
    assert CommentFrame(text) == (l + "\n") + "\n";
    RunConcat(r0, l + "\n", "\n");
    RunLine(r0, l);
    RunLine(r0, "");
  }

  /** The preamble dispatches nothing. */
  lemma PreambleIsSilent(events: seq<Dispatched>)
    ensures Run(Idle(events), Preamble) == Idle(events)
  {
    RunLine(Idle(events), "");
  }

  /** A CR is only ever pending at the start of a line. */
  predicate LineStart(r: Receiver)
  {
    r.afterCR ==> r.line == ""
  }

  lemma {:induction false} RunKeepsLineStart(r: Receiver, s: string)
    requires LineStart(r)
    ensures LineStart(Run(r, s))
    decreases s
  {
    if s != [] {
      RunKeepsLineStart(Step(r, s[0]), s[1..]);
    }
  }

  /** Whatever came before, a text ending in two LFs leaves the receiver between
      frames: the second LF always ends a blank line, which resets both buffers. */
  lemma FrameEndLeavesIdle(r: Receiver, s: string)
    requires LineStart(r)
    ensures Run(r, s + "\n\n") == Idle(Run(r, s + "\n\n").dispatched)
  {
    RunConcat(r, s, "\n\n");
    var x := Run(r, s);
    RunKeepsLineStart(r, s);
    assert Run(x, "\n\n") == Step(Step(x, '\n'), '\n') by {
      assert "\n\n"[1..] == "\n";
      assert "\n"[1..] == "";
    }
  }
}
