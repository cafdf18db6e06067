/** The event-stream decoder that tolerates keepalive frames (WHATWG HTML,
    section 9.2.6), over the lines of the stream. */
module SseDecoder {
  import opened Messages
  import opened Text

  datatype Event = Event(kind: string, data: string)

  /** Splits at the first colon; without one the whole line is the name. */
  function Cut(line: string): (string, string) {
    if line == "" then ("", "")
    else if line[0] == ':' then ("", line[1..])
    else var (name, value) := Cut(line[1..]); ([line[0]] + name, value)
  }

  function DropSpace(value: string): string {
    if value != "" && value[0] == ' ' then value[1..] else value
  }

  /** The type and data collected so far in a frame. */
  datatype Frame = Frame(kind: string, data: string)

  const NO_FRAME := Frame("", "")

  function TakeLine(f: Frame, line: string): Frame {
    var (name, value) := Cut(line);
    if name == "event" then f.(kind := DropSpace(value))
    else if name == "data" then f.(data := f.data + DropSpace(value) + "\n")
    else f
  }

  /** The next event and the lines after it; None when the lines end before one. */
  function NextEvent(lines: seq<string>, f: Frame): Option<(Event, seq<string>)>
    decreases |lines|
  {
    if lines == [] then None
    else if lines[0] == "" then
      if Blank(f.data) then NextEvent(lines[1..], NO_FRAME) else Some((Event(f.kind, f.data), lines[1..]))
    else NextEvent(lines[1..], TakeLine(f, lines[0]))
  }

  lemma {:induction false} NextShorter(lines: seq<string>, f: Frame)
    ensures NextEvent(lines, f).Some? ==>
      |NextEvent(lines, f).value.1| < |lines| && !Blank(NextEvent(lines, f).value.0.data)
    decreases |lines|
  {
    if lines != [] {
      if lines[0] == "" {
        NextShorter(lines[1..], NO_FRAME);
      } else {
        NextShorter(lines[1..], TakeLine(f, lines[0]));
      }
    }
  }

  /** All events, by asking for the next one until there is none. */
  function DecodeAll(lines: seq<string>): seq<Event>
    decreases |lines|
  {
    NextShorter(lines, NO_FRAME);
    var next := NextEvent(lines, NO_FRAME);
    if next.None? then [] else [next.value.0] + DecodeAll(next.value.1)
  }

  /** What a sender writes. The space behind the colon may be left out, and where nothing
      follows it the colon too. */
  datatype Item =
    | EventType(kind: string)
    | Data(value: string, spaced: bool)
    | NoType
    | NoData
    | Id(value: string)
    | Comment(text: string)

  /** What a data line carries behind its colon. A value that begins with a space needs
      the space in front of it. */
  function Printed(value: string, spaced: bool): (printed: string)
    ensures DropSpace(printed) == value
  {
    if spaced || (value != "" && value[0] == ' ') then " " + value else value
  }

  function PrintItem(item: Item): (line: string)
    ensures line != ""
  {
    match item
    case EventType(kind) => "event: " + kind
    case Data(value, spaced) => "data:" + Printed(value, spaced)
    case NoType => "event"
    case NoData => "data"
    case Id(value) => "id: " + value
    case Comment(text) => ":" + text
  }

  function PrintItems(items: seq<Item>): seq<string> {
    if items == [] then [] else [PrintItem(items[0])] + PrintItems(items[1..])
  }

  /** Each frame is followed by an empty line. */
  function Print(frames: seq<seq<Item>>): seq<string> {
    if frames == [] then [] else PrintItems(frames[0]) + [""] + Print(frames[1..])
  }

  /** The event a frame stands for: its last type, and its data lines, each ended
      by a newline. Comments and ids do not matter. */
  function Meaning(f: Frame, items: seq<Item>): Frame
    decreases |items|
  {
    if items == [] then f
    else match items[0]
      case EventType(kind) => Meaning(f.(kind := kind), items[1..])
      case Data(value, _) => Meaning(f.(data := f.data + value + "\n"), items[1..])
      case NoType => Meaning(f.(kind := ""), items[1..])
      case NoData => Meaning(f.(data := f.data + "\n"), items[1..])
      case Id(_) => Meaning(f, items[1..])
      case Comment(_) => Meaning(f, items[1..])
  }

  /** The events of a list of frames; frames without data are keepalives. */
  function Events(frames: seq<seq<Item>>): seq<Event> {
    if frames == [] then []
    else
      var f := Meaning(NO_FRAME, frames[0]);
      (if Blank(f.data) then [] else [Event(f.kind, f.data)]) + Events(frames[1..])
  }

  lemma CutAfterColon(name: string, value: string)
    requires ':' !in name
    ensures Cut(name + [':'] + value) == (name, value)
  {
    var line := name + [':'] + value;
    if name == "" {
      assert line[1..] == value;
    } else {
      assert line[1..] == name[1..] + [':'] + value;
      CutAfterColon(name[1..], value);
      assert [name[0]] + name[1..] == name;
    }
  }

  lemma {:induction false} CutWithoutColon(line: string)
    requires ':' !in line
    ensures Cut(line) == (line, "")
  {
    if line != "" {
      CutWithoutColon(line[1..]);
      assert [line[0]] + line[1..] == line;
    }
  }

  lemma DataRead(f: Frame, printed: string)
    ensures TakeLine(f, "data:" + printed) == f.(data := f.data + DropSpace(printed) + "\n")
  {
    CutAfterColon("data", printed);
    assert "data:" + printed == "data" + [':'] + printed;
  }

  lemma TypeRead(f: Frame, kind: string)
    ensures TakeLine(f, PrintItem(EventType(kind))) == f.(kind := kind)
  {
    CutAfterColon("event", " " + kind);
    assert PrintItem(EventType(kind)) == "event" + [':'] + (" " + kind);
    assert DropSpace(" " + kind) == kind;
  }

  lemma ItemRead(f: Frame, item: Item)
    ensures TakeLine(f, PrintItem(item)) == Meaning(f, [item])
  {
    match item
    case EventType(kind) => TypeRead(f, kind);
    case Data(value, spaced) => DataRead(f, Printed(value, spaced));
    case NoType => CutWithoutColon("event");
    case NoData =>
      CutWithoutColon("data");
      assert f.data + "" + "\n" == f.data + "\n";
    case Id(value) =>
      CutAfterColon("id", " " + value);
      assert PrintItem(item) == "id" + [':'] + (" " + value);
    case Comment(text) =>
      assert PrintItem(item)[1..] == text;
  }

  lemma {:induction false} FrameRead(f: Frame, items: seq<Item>, rest: seq<string>)
    ensures NextEvent(PrintItems(items) + rest, f) == NextEvent(rest, Meaning(f, items))
    decreases |items|
  {
    var lines := PrintItems(items) + rest;
    if items == [] {
      assert lines == rest;
    } else {
      assert lines[1..] == PrintItems(items[1..]) + rest;
      ItemRead(f, items[0]);
      assert Meaning(f, [items[0]]) == Meaning(Meaning(f, [items[0]]), []);
      FrameRead(Meaning(f, [items[0]]), items[1..], rest);
    }
  }

  lemma {:induction false} UnfinishedDropped(f: Frame, items: seq<Item>)
    ensures NextEvent(PrintItems(items), f).None?
  {
    FrameRead(f, items, []);
    assert PrintItems(items) + [] == PrintItems(items);
  }

  /** Decoding undoes printing: the decoder returns the events of the frames in
      order, passes over keepalives, comments and ids anywhere, and drops a last frame
      that its empty line never ended. */
  lemma {:induction false} DecodeUndoesPrint(frames: seq<seq<Item>>, unfinished: seq<Item>)
    ensures DecodeAll(Print(frames) + PrintItems(unfinished)) == Events(frames)
    decreases |frames|
  {
    var tail := PrintItems(unfinished);
    if frames == [] {
      assert Print(frames) + tail == tail;
      UnfinishedDropped(NO_FRAME, unfinished);
    } else {
      var rest := Print(frames[1..]) + tail;
      assert Print(frames) + tail == PrintItems(frames[0]) + ([""] + rest);
      FrameRead(NO_FRAME, frames[0], [""] + rest);
      assert ([""] + rest)[1..] == rest;
      DecodeUndoesPrint(frames[1..], unfinished);
    }
  }

  /** No stream whatever makes the decoder return blank data. */
  lemma {:induction false} NeverBlank(lines: seq<string>)
    ensures forall e | e in DecodeAll(lines) :: !Blank(e.data)
    decreases |lines|
  {
    NextShorter(lines, NO_FRAME);
    var next := NextEvent(lines, NO_FRAME);
    if next.Some? {
      NeverBlank(next.value.1);
    }
  }

  class Decoder {
    const lines: seq<string>
    var pos: nat
    var evt: Event

    ghost predicate Valid()
      reads this
    {
      pos <= |lines|
    }

    constructor (lines: seq<string>)
      ensures Valid() && pos == 0 && this.lines == lines
    {
      this.lines, pos, evt := lines, 0, Event("", "");
    }

    method Next() returns (found: bool)
      requires Valid()
      modifies this
      ensures Valid()
      ensures var next := NextEvent(lines[old(pos)..], NO_FRAME);
        if found then next == Some((evt, lines[pos..])) else next.None? && evt == old(evt) && pos == |lines|
    {
      var kind, data := "", "";
      while pos < |lines|
        invariant Valid() && evt == old(evt)
        invariant NextEvent(lines[pos..], Frame(kind, data)) == NextEvent(lines[old(pos)..], NO_FRAME)
      {
        var txt := lines[pos];
        assert lines[pos..][0] == txt && lines[pos..][1..] == lines[pos + 1..];
        pos := pos + 1;
        if |txt| == 0 {
          if Blank(data) {
            kind, data := "", "";
          } else {
            evt := Event(kind, data);
            return true;
          }
        } else {
          var (name, rest) := Cut(txt);
          var value := if |rest| > 0 && rest[0] == ' ' then rest[1..] else rest;
          if name == "event" {
            kind := value;
          } else if name == "data" {
            data := data + value;
            data := data + "\n";
          }
        }
      }
      found := false;
    }

    /** Reads the stream to its end. */
    method ReadAll() returns (events: seq<Event>)
      requires Valid() && pos == 0
      modifies this
      ensures events == DecodeAll(lines)
    {
      events := [];
      assert lines[0..] == lines;
      var more := true;
      while more
        invariant Valid()
        invariant more ==> events + DecodeAll(lines[pos..]) == DecodeAll(lines)
        invariant !more ==> events == DecodeAll(lines)
        decreases more, |lines| - pos
      {
        NextShorter(lines[pos..], NO_FRAME);
        more := Next();
        if more {
          events := events + [evt];
        }
      }
    }
  }
}
