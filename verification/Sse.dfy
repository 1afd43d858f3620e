/**
  Event-stream frames, and the reader of the WHATWG HTML Living Standard, section 9.2.6, that a client runs on them.
 */
module Sse {
  import opened Prelude

  /** An event as sent: its name, and its data already as JSON text. */
  datatype SseEvent = SseEvent(name: string, data: string)

  function Serialize(event: SseEvent): string {
    "event: " + event.name + "\n" + "data: " + event.data + "\n\n"
  }

  function SerializeAll(events: seq<SseEvent>): string {
    if events == [] then "" else Serialize(events[0]) + SerializeAll(events[1..])
  }

  // ---------------------------------------------------------------------------
  // The standard's reader
  // ---------------------------------------------------------------------------

  predicate OneLine(s: string) {
    forall i :: 0 <= i < |s| ==> s[i] != '\n' && s[i] != '\r'
  }

  /** The first line and what follows its end (LF, CR LF, or CR alone); nothing while the line is unfinished. */
  function FirstLine(text: string): (r: Option<(string, string)>)
    ensures r.Some? ==> OneLine(r.value.0) && |r.value.1| < |text|
  {
    if text == "" then None
    else if text[0] == '\n' then Some(("", text[1..]))
    else if text[0] == '\r' then Some(("", if |text| > 1 && text[1] == '\n' then text[2..] else text[1..]))
    else match FirstLine(text[1..])
         case None => None
         case Some((line, rest)) => Some(([text[0]] + line, rest))
  }

  function FirstColon(line: string): (k: nat)
    ensures k <= |line|
    ensures k < |line| ==> line[k] == ':'
    ensures forall i :: 0 <= i < k ==> line[i] != ':'
  {
    if line == "" || line[0] == ':' then 0 else 1 + FirstColon(line[1..])
  }

  /** Field name and value of a line; one space after the colon is not part of the value. */
  function Field(line: string): (string, string) {
    var k := FirstColon(line);
    if k == |line| then (line, "")
    else (line[..k], if k + 1 < |line| && line[k + 1] == ' ' then line[k + 2..] else line[k + 1..])
  }

  /** The buffers of the event being read. Fields other than these two change nothing that is dispatched here. */
  datatype Buffers = Buffers(eventType: string, data: string)

  const EMPTY := Buffers("", "")

  function Dispatch(b: Buffers): Option<SseEvent> {
    if b.data == "" then None
    else Some(SseEvent(if b.eventType == "" then "message" else b.eventType,
                       if b.data[|b.data| - 1] == '\n' then b.data[..|b.data| - 1] else b.data))
  }

  function AfterField(b: Buffers, field: (string, string)): Buffers {
    if field.0 == "event" then b.(eventType := field.1)
    else if field.0 == "data" then b.(data := b.data + field.1 + "\n")
    else b
  }

  /** All events a client sees; an event without its closing blank line is not one. */
  function Read(b: Buffers, text: string): seq<SseEvent>
    decreases |text|
  {
    match FirstLine(text)
    case None => []
    case Some((line, rest)) =>
      if line == "" then
        match Dispatch(b)
        case None => Read(EMPTY, rest)
        case Some(e) => [e] + Read(EMPTY, rest)
      else if line[0] == ':' then Read(b, rest)
      else Read(AfterField(b, Field(line)), rest)
  }

  // ---------------------------------------------------------------------------
  // Frames read back
  // ---------------------------------------------------------------------------

  lemma {:induction false} LineReadsBack(line: string, rest: string)
    requires OneLine(line)
    ensures FirstLine(line + "\n" + rest) == Some((line, rest))
  {
    var text := line + "\n" + rest;
    if line == "" {
      assert text == "\n" + rest && text[1..] == rest;
    } else {
      LineReadsBack(line[1..], rest);
      assert text[0] == line[0] && text[1..] == line[1..] + "\n" + rest;
      assert [line[0]] + line[1..] == line;
    }
  }

  lemma {:induction false} ColonAt(before: string, after: string)
    requires ':' !in before
    ensures FirstColon(before + ":" + after) == |before|
  {
    var line := before + ":" + after;
    if before == "" {
      assert line[0] == ':';
    } else {
      ColonAt(before[1..], after);
      assert line[0] == before[0] && line[1..] == before[1..] + ":" + after;
    }
  }

  /** Whatever the value, leading spaces included, the field line gives it back. */
  lemma FieldReadsBack(name: string, value: string)
    requires ':' !in name
    ensures Field(name + ": " + value) == (name, value)
  {
    var line := name + ": " + value;
    assert line == name + ":" + (" " + value);
    ColonAt(name, " " + value);
    assert line[..|name|] == name && line[|name| + 2..] == value;
  }

  lemma ReadFieldLine(b: Buffers, name: string, value: string, rest: string)
    requires name == "event" || name == "data"
    requires OneLine(value)
    ensures Read(b, name + ": " + value + "\n" + rest) == Read(AfterField(b, (name, value)), rest)
  {
    var line := name + ": " + value;
    assert OneLine(line);
    LineReadsBack(line, rest);
    FieldReadsBack(name, value);
    assert line[0] == name[0];
  }

  /** What the reader makes of a frame whose parts keep to one line each. */
  function Seen(event: SseEvent): SseEvent {
    event.(name := if event.name == "" then "message" else event.name)
  }

  lemma FrameSplit(event: SseEvent, rest: string)
    ensures Serialize(event) + rest
            == "event" + ": " + event.name + "\n" + ("data" + ": " + event.data + "\n" + ("\n" + rest))
  {
    assert "event" + ": " == "event: " && "data" + ": " == "data: " && "\n" + "\n" == "\n\n";
    Join("event: " + event.name + "\n", "data: " + event.data, "\n", "\n", rest);
  }

  lemma Join(a: string, b: string, c: string, d: string, e: string)
    ensures a + (b + c + (d + e)) == a + b + (c + d) + e
  {
  }

  lemma BlankLineDispatches(b: Buffers, data: string, rest: string)
    requires b.data == data + "\n"
    ensures Read(b, "\n" + rest)
            == [SseEvent(if b.eventType == "" then "message" else b.eventType, data)] + Read(EMPTY, rest)
  {
    LineReadsBack("", rest);
    assert "" + "\n" + rest == "\n" + rest;
    assert b.data[..|b.data| - 1] == data;
  }

  function NamedBy(event: SseEvent): Buffers {
    AfterField(EMPTY, ("event", event.name))
  }

  function FilledBy(event: SseEvent): Buffers {
    AfterField(NamedBy(event), ("data", event.data))
  }

  /** `Read`, by another name, so that equal readings chain. */
  function ReadFrom(b: Buffers, text: string): seq<SseEvent> {
    Read(b, text)
  }

  lemma NameIsRead(event: SseEvent, rest: string)
    requires OneLine(event.name) && OneLine(event.data)
    ensures ReadFrom(EMPTY, Serialize(event) + rest)
            == ReadFrom(NamedBy(event), "data" + ": " + event.data + "\n" + ("\n" + rest))
  {
    FrameSplit(event, rest);
    ReadFieldLine(EMPTY, "event", event.name, "data" + ": " + event.data + "\n" + ("\n" + rest));
  }

  lemma DataIsRead(event: SseEvent, rest: string)
    requires OneLine(event.name) && OneLine(event.data)
    ensures ReadFrom(NamedBy(event), "data" + ": " + event.data + "\n" + ("\n" + rest))
            == ReadFrom(FilledBy(event), "\n" + rest)
  {
    ReadFieldLine(NamedBy(event), "data", event.data, "\n" + rest);
  }

  lemma FrameDispatches(event: SseEvent, rest: string)
    requires OneLine(event.name) && OneLine(event.data)
    ensures ReadFrom(FilledBy(event), "\n" + rest) == [Seen(event)] + ReadFrom(EMPTY, rest)
  {
    assert FilledBy(event).data == event.data + "\n";
    BlankLineDispatches(FilledBy(event), event.data, rest);
  }

  lemma FrameIsRead(event: SseEvent, rest: string)
    requires OneLine(event.name) && OneLine(event.data)
    ensures ReadFrom(EMPTY, Serialize(event) + rest) == [Seen(event)] + ReadFrom(EMPTY, rest)
  {
    NameIsRead(event, rest);
    DataIsRead(event, rest);
    FrameDispatches(event, rest);
  }

  /** A frame in front of anything reads back as its event, then the rest. */
  lemma FrameReadsBack(event: SseEvent, rest: string)
    requires OneLine(event.name) && OneLine(event.data)
    ensures Read(EMPTY, Serialize(event) + rest) == [Seen(event)] + Read(EMPTY, rest)
  {
    FrameIsRead(event, rest);
  }

  /** A whole stream of named one-line events reads back as those events, in order, none merged or lost. */
  lemma {:induction false} StreamReadsBack(events: seq<SseEvent>)
    requires forall e :: e in events ==> e.name != "" && OneLine(e.name) && OneLine(e.data)
    ensures Read(EMPTY, SerializeAll(events)) == events
  {
    if events != [] {
      FrameReadsBack(events[0], SerializeAll(events[1..]));
      StreamReadsBack(events[1..]);
      assert events == [events[0]] + events[1..];
    }
  }

  /** A stream cut off inside a frame loses that frame only. */
  lemma CutInsideFrame(events: seq<SseEvent>, last: SseEvent, cut: nat)
    requires forall e :: e in events ==> e.name != "" && OneLine(e.name) && OneLine(e.data)
    requires last.name != "" && OneLine(last.name) && OneLine(last.data) && cut < |Serialize(last)|
    ensures Read(EMPTY, SerializeAll(events) + Serialize(last)[..cut]) == events
  {
    ReadPrefix(events, Serialize(last)[..cut]);
    CutFrameIsSilent(last, cut);
    assert events + [] == events;
  }

  lemma {:induction false} ReadPrefix(events: seq<SseEvent>, rest: string)
    requires forall e :: e in events ==> e.name != "" && OneLine(e.name) && OneLine(e.data)
    ensures Read(EMPTY, SerializeAll(events) + rest) == events + Read(EMPTY, rest)
  {
    if events == [] {
      assert SerializeAll(events) + rest == rest;
    } else {
      var tail := SerializeAll(events[1..]) + rest;
      Regroup(Serialize(events[0]), SerializeAll(events[1..]), rest);
      FrameReadsBack(events[0], tail);
      ReadPrefix(events[1..], rest);
      Regroup([events[0]], events[1..], Read(EMPTY, rest));
      assert events == [events[0]] + events[1..];
    }
  }

  /** Text without an empty line dispatches nothing. */
  ghost predicate NoBlankLine(text: string)
    decreases |text|
  {
    match FirstLine(text)
    case None => true
    case Some((line, rest)) => line != "" && NoBlankLine(rest)
  }

  lemma {:induction false} SilentWithoutBlank(b: Buffers, text: string)
    requires NoBlankLine(text)
    ensures Read(b, text) == []
    decreases |text|
  {
    match FirstLine(text)
    case None =>
    case Some((line, rest)) =>
      if line[0] == ':' { SilentWithoutBlank(b, rest); } else { SilentWithoutBlank(AfterField(b, Field(line)), rest); }
  }

  lemma {:induction false} UnfinishedLine(text: string)
    requires OneLine(text)
    ensures FirstLine(text) == None
  {
    if text != "" { UnfinishedLine(text[1..]); }
  }

  lemma CutFrameIsSilent(last: SseEvent, cut: nat)
    requires OneLine(last.name) && OneLine(last.data) && cut < |Serialize(last)|
    ensures Read(EMPTY, Serialize(last)[..cut]) == []
  {
    var first, second := "event: " + last.name, "data: " + last.data;
    var text := Serialize(last)[..cut];
    assert Serialize(last) == first + "\n" + second + "\n" + "\n";
    assert OneLine(first) && OneLine(second);
    if cut <= |first| {
      assert text == first[..cut];
      UnfinishedLine(text);
    } else {
      var rest := text[|first| + 1..];
      assert text == first + "\n" + rest;
      LineReadsBack(first, rest);
      if |rest| <= |second| {
        assert rest == second[..|rest|];
        UnfinishedLine(rest);
      } else {
        assert rest == second + "\n" + "";
        LineReadsBack(second, "");
        assert NoBlankLine("");
        assert NoBlankLine(rest);
      }
      assert NoBlankLine(text);
    }
    SilentWithoutBlank(EMPTY, text);
  }

  // ---------------------------------------------------------------------------
  // Which events survive the wire
  // ---------------------------------------------------------------------------

  /** No event of any stream has a line break in its name. */
  lemma {:induction false} NamesAreOneLine(b: Buffers, text: string)
    requires OneLine(b.eventType)
    ensures forall e :: e in Read(b, text) ==> OneLine(e.name) && e.name != ""
    decreases |text|
  {
    match FirstLine(text)
    case None =>
    case Some((line, rest)) =>
      if line == "" {
        NamesAreOneLine(EMPTY, rest);
      } else if line[0] == ':' {
        NamesAreOneLine(b, rest);
      } else {
        NamesAreOneLine(AfterField(b, Field(line)), rest);
      }
  }

  /** With JSON data, which is one line, an event survives exactly when its name is one non-empty line. */
  lemma SurvivesIff(event: SseEvent)
    requires OneLine(event.data)
    ensures Read(EMPTY, Serialize(event)) == [event] <==> event.name != "" && OneLine(event.name)
  {
    if event.name != "" && OneLine(event.name) {
      FrameReadsBack(event, "");
      assert Serialize(event) + "" == Serialize(event);
    } else {
      NamesAreOneLine(EMPTY, Serialize(event));
      assert event in [event];
    }
  }
}
