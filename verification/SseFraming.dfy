/**
  The incremental server-sent-events reader: cutting a chunked text into frames at blank
  lines, reading the fields of a frame, and delivering events until the consumer stops.
 */
module SseFraming {
  import opened Options
  import opened Splitting

  // ---------------------------------------------------------------- frames of a text

  /** The first place where two line feeds meet, or -1. */
  function Boundary(s: string): (b: int)
    ensures -1 <= b && (b >= 0 ==> b + 2 <= |s|)
  {
    if |s| < 2 then -1
    else if s[0] == '\n' && s[1] == '\n' then 0
    else
      var b := Boundary(s[1..]);
      if b < 0 then -1 else b + 1
  }

  /** It is a boundary, no earlier place is one, and there is none only if no place is one. */
  lemma {:induction false} BoundaryIsFirst(s: string)
    ensures var b := Boundary(s);
      && (b >= 0 ==> s[b] == '\n' && s[b + 1] == '\n')
      && (forall i :: 0 <= i && i + 1 < |s| && (b == -1 || i < b) ==> !(s[i] == '\n' && s[i + 1] == '\n'))
  {
    if |s| >= 2 && !(s[0] == '\n' && s[1] == '\n') {
      BoundaryIsFirst(s[1..]);
      forall i | 0 <= i && i + 1 < |s| && (Boundary(s) == -1 || i < Boundary(s)) ensures !(s[i] == '\n' && s[i + 1] == '\n') {
        if i > 0 {
          assert s[i] == s[1..][i - 1] && s[i + 1] == s[1..][i];
        }
      }
    }
  }

  /** The terminated frames of a whole text: its leftmost split at blank lines. */
  function Frames(s: string): seq<string>
    decreases |s|
  {
    var b := Boundary(s);
    if b < 0 then [] else [s[..b]] + Frames(s[b + 2..])
  }

  /** The unterminated tail. */
  function Rest(s: string): string
    decreases |s|
  {
    var b := Boundary(s);
    if b < 0 then s else Rest(s[b + 2..])
  }

  /** A first boundary is at the same place however the text goes on. */
  lemma {:induction false} BoundaryStays(a: string, b: string)
    requires Boundary(a) >= 0
    ensures Boundary(a + b) == Boundary(a)
  {
    if !(a[0] == '\n' && a[1] == '\n') {
      assert (a + b)[1..] == a[1..] + b;
      BoundaryStays(a[1..], b);
    }
  }

  lemma FirstFrameStays(a: string, b: string)
    requires Boundary(a) >= 0
    ensures var k := Boundary(a);
      && Frames(a) == [a[..k]] + Frames(a[k + 2..]) && Rest(a) == Rest(a[k + 2..])
      && Frames(a + b) == [a[..k]] + Frames(a[k + 2..] + b) && Rest(a + b) == Rest(a[k + 2..] + b)
  {
    BoundaryStays(a, b);
    hide Boundary;
    var k := Boundary(a);
    assert (a + b)[..k] == a[..k] && (a + b)[k + 2..] == a[k + 2..] + b;
  }

  /** More text only affects the unterminated tail. */
  lemma {:induction false} FramesContinue(a: string, b: string)
    ensures Frames(a + b) == Frames(a) + Frames(Rest(a) + b)
    ensures Rest(a + b) == Rest(Rest(a) + b)
    decreases |a|
  {
    if Boundary(a) < 0 {
      assert Rest(a) == a && Frames(a) == [];
    } else {
      FirstFrameStays(a, b);
      hide Boundary, Frames, Rest;
      var tail := a[Boundary(a) + 2..];
      FramesContinue(tail, b);
      var x, y, z := [a[..Boundary(a)]], Frames(tail), Frames(Rest(tail) + b);
      assert x + (y + z) == (x + y) + z;
    }
  }

  // ---------------------------------------------------------------- fields of a frame

  datatype Event = Event(id: Option<string>, kind: string, data: string)

  function SplitLines(s: string): (lines: seq<string>)
    ensures |lines| >= 1
  {
    Split('\n', s)
  }

  /** The white space that trimming removes. */
  predicate IsSpace(c: char) {
    || '\U{0009}' <= c <= '\U{000D}' || c == ' ' || c == '\U{00A0}' || c == '\U{1680}' || '\U{2000}' <= c <= '\U{200A}'
    || c == '\U{2028}' || c == '\U{2029}' || c == '\U{202F}' || c == '\U{205F}' || c == '\U{3000}' || c == '\U{FEFF}'
  }

  function TrimStart(s: string): string {
    if s != "" && IsSpace(s[0]) then TrimStart(s[1..]) else s
  }

  function WithoutReturn(s: string): string {
    if s != "" && s[|s| - 1] == '\r' then s[..|s| - 1] else s
  }

  function AddData(data: string, more: string): string {
    if |data| > 0 then data + "\n" + more else more
  }

  /** One line of a frame. */
  function ReadLine(e: Event, raw: string): Event {
    var line := WithoutReturn(raw);
    if line == "" || line[0] == ':' then e
    else if "id: " <= line then e.(id := Some(line[4..]))
    else if "id:" <= line then e.(id := Some(TrimStart(line[3..])))
    else if "event: " <= line then e.(kind := line[7..])
    else if "event:" <= line then e.(kind := TrimStart(line[6..]))
    else if "data: " <= line then e.(data := AddData(e.data, line[6..]))
    else if "data:" <= line then e.(data := AddData(e.data, TrimStart(line[5..])))
    else e
  }

  function ReadLines(e: Event, lines: seq<string>): Event
    decreases |lines|
  {
    if lines == [] then e else ReadLines(ReadLine(e, lines[0]), lines[1..])
  }

  const EMPTY := Event(None, "message", "")

  /** A frame without data is no event. */
  function ParseFrame(frame: string): Option<Event> {
    var e := ReadLines(EMPTY, SplitLines(frame));
    if e.data == "" then None else Some(e)
  }

  method ParseSseFrame(frame: string) returns (result: Option<Event>)
    ensures result == ParseFrame(frame)
  {
    var id: Option<string>, kind, data := None, "message", "";
    var lines := SplitLines(frame);
    for i := 0 to |lines|
      invariant ReadLines(Event(id, kind, data), lines[i..]) == ReadLines(EMPTY, lines)
    {
      ghost var before := Event(id, kind, data);
      var line := WithoutReturn(lines[i]);
      if line == "" || line[0] == ':' {
      } else if "id: " <= line {
        id := Some(line[4..]);
      } else if "id:" <= line {
        id := Some(TrimStart(line[3..]));
      } else if "event: " <= line {
        kind := line[7..];
      } else if "event:" <= line {
        kind := TrimStart(line[6..]);
      } else if "data: " <= line {
        data := if |data| > 0 then data + "\n" + line[6..] else line[6..];
      } else if "data:" <= line {
        var v := TrimStart(line[5..]);
        data := if |data| > 0 then data + "\n" + v else v;
      }
      assert Event(id, kind, data) == ReadLine(before, lines[i]);
      assert lines[i..][1..] == lines[i + 1..];
    }
    result := if data == "" then None else Some(Event(id, kind, data));
  }

  function EventOf(frame: string): seq<Event> {
    match ParseFrame(frame) case Some(e) => [e] case None => []
  }

  function Events(frames: seq<string>): seq<Event> {
    if frames == [] then [] else EventOf(frames[0]) + Events(frames[1..])
  }

  lemma {:induction false} EventsConcat(a: seq<string>, b: seq<string>)
    ensures Events(a + b) == Events(a) + Events(b)
    decreases |a|
  {
    hide EventOf;
    if a == [] {
      assert a + b == b;
    } else {
      EventsConcat(a[1..], b);
      assert (a + b)[0] == a[0] && (a + b)[1..] == a[1..] + b;
      var x, y, z := EventOf(a[0]), Events(a[1..]), Events(b);
      assert Events(a + b) == x + (y + z);
      assert x + (y + z) == (x + y) + z;
    }
  }

  // ---------------------------------------------------------------- delivery

  function Concat(chunks: seq<string>): string {
    if chunks == [] then "" else Concat(chunks[..|chunks| - 1]) + chunks[|chunks| - 1]
  }

  /** The events delivered so far followed by the next ones, up to the first that makes the consumer stop. */
  function DeliverFrom(halts: seq<Event> -> bool, done: seq<Event>, next: seq<Event>): seq<Event>
    decreases |next|
  {
    if next == [] then done
    else if halts(done + [next[0]]) then done + [next[0]]
    else DeliverFrom(halts, done + [next[0]], next[1..])
  }

  /** `n` events are delivered without a stop exactly when none of their prefixes stops. */
  predicate NoStop(halts: seq<Event> -> bool, events: seq<Event>) {
    forall n :: 0 < n <= |events| ==> !halts(events[..n])
  }

  lemma {:induction false} DeliverWithoutStop(halts: seq<Event> -> bool, done: seq<Event>, next: seq<Event>, later: seq<Event>)
    requires NoStop(halts, done + next)
    ensures DeliverFrom(halts, done, next + later) == DeliverFrom(halts, done + next, later)
    decreases |next|
  {
    if next == [] {
      assert done + next == done && next + later == later;
    } else {
      var one := done + [next[0]];
      assert (done + next)[..|one|] == one;
      assert one + next[1..] == done + next;
      assert (next + later)[0] == next[0] && (next + later)[1..] == next[1..] + later;
      DeliverWithoutStop(halts, one, next[1..], later);
    }
  }

  lemma DeliverStops(halts: seq<Event> -> bool, events: seq<Event>, e: Event, later: seq<Event>)
    requires NoStop(halts, events) && halts(events + [e])
    ensures DeliverFrom(halts, [], events + [e] + later) == events + [e]
  {
    assert events + [e] + later == events + ([e] + later);
    assert [] + events == events;
    DeliverWithoutStop(halts, [], events, [e] + later);
  }

  lemma DeliverAll(halts: seq<Event> -> bool, events: seq<Event>)
    requires NoStop(halts, events)
    ensures DeliverFrom(halts, [], events) == events
  {
    assert [] + events == events && events + [] == events;
    DeliverWithoutStop(halts, [], events, []);
  }

  lemma {:induction false} ConcatPrefix(chunks: seq<string>, i: nat) returns (tail: string)
    requires i <= |chunks|
    ensures Concat(chunks) == Concat(chunks[..i]) + tail
    decreases |chunks| - i
  {
    if i == |chunks| {
      assert chunks[..i] == chunks;
      tail := "";
    } else {
      tail := ConcatPrefix(chunks, i + 1);
      assert chunks[..i + 1][..i] == chunks[..i];
      tail := chunks[i] + tail;
    }
  }

  ghost function EventsOf(text: string): seq<Event> { Events(Frames(text)) }

  /** The events of a longer text are those of the shorter one followed by those of the tail and the rest. */
  lemma EventsContinue(a: string, b: string)
    ensures EventsOf(a + b) == EventsOf(a) + EventsOf(Rest(a) + b)
    ensures Rest(a + b) == Rest(Rest(a) + b)
  {
    hide Events, Frames, Rest;
    FramesContinue(a, b);
    EventsConcat(Frames(a), Frames(Rest(a) + b));
  }

  /** Taking the first frame off the buffer. */
  lemma FirstFrame(buf: string)
    requires Boundary(buf) >= 0
    ensures var b := Boundary(buf);
      && EventsOf(buf) == EventOf(buf[..b]) + EventsOf(buf[b + 2..])
      && Rest(buf) == Rest(buf[b + 2..])
  {
    hide EventOf, Boundary;
    var b := Boundary(buf);
    assert Frames(buf)[0] == buf[..b] && Frames(buf)[1..] == Frames(buf[b + 2..]);
  }

  /**
    Reads the chunks one after another. Whatever the chunking, the events delivered are those of
    the whole text's frames, cut at the first stop; the unterminated tail is discarded.
   */
  method StreamGet(chunks: seq<string>, halts: seq<Event> -> bool) returns (events: seq<Event>)
    ensures events == DeliverFrom(halts, [], Events(Frames(Concat(chunks))))
  {
    hide Events, Frames, Rest, Boundary, DeliverFrom, NoStop, ParseFrame;
    events := [];
    var buf := "";
    EmptyText(halts);
    var i := 0;
    while i < |chunks|
      invariant 0 <= i <= |chunks|
      invariant buf == Rest(Concat(chunks[..i])) && events == EventsOf(Concat(chunks[..i])) && NoStop(halts, events)
    {
      assert chunks[..i + 1][..i] == chunks[..i];
      ghost var text := Concat(chunks[..i + 1]);
      EventsContinue(Concat(chunks[..i]), chunks[i]);
      buf := buf + chunks[i];
      i := i + 1;
      var boundary := Boundary(buf);
      while boundary != -1
        invariant boundary == Boundary(buf) && Rest(buf) == Rest(text)
        invariant events + EventsOf(buf) == EventsOf(text) && NoStop(halts, events)
        decreases |buf|
      {
        FirstFrame(buf);
        var frame := buf[..boundary];
        buf := buf[boundary + 2..];
        var event := ParseSseFrame(frame);
        if event.Some? {
          ghost var before, later := events, EventsOf(buf);
          events := events + [event.value];
          assert before + ([event.value] + later) == events + later;
          if halts(events) {
            StopInside(chunks, i, halts, before, event.value, later);
            return;
          }
          NoStopExtends(halts, before, event.value);
        } else {
          assert [] + EventsOf(buf) == EventsOf(buf);
        }
        boundary := Boundary(buf);
      }
      NoFrames(buf);
      assert events + [] == events;
    }
    assert chunks[..|chunks|] == chunks;
    DeliverAll(halts, events);
  }

  lemma EmptyText(halts: seq<Event> -> bool)
    ensures Rest("") == "" && EventsOf("") == [] && NoStop(halts, [])
  {
  }

  lemma NoFrames(buf: string)
    requires Boundary(buf) == -1
    ensures EventsOf(buf) == [] && Rest(buf) == buf
  {
  }

  lemma NoStopExtends(halts: seq<Event> -> bool, events: seq<Event>, e: Event)
    requires NoStop(halts, events) && !halts(events + [e])
    ensures NoStop(halts, events + [e])
  {
    forall n | 0 < n <= |events + [e]| ensures !halts((events + [e])[..n]) {
      if n <= |events| {
        assert (events + [e])[..n] == events[..n];
      } else {
        assert (events + [e])[..n] == events + [e];
      }
    }
  }

  /** A stop inside the text of the first chunks is the stop of the whole text. */
  lemma StopInside(chunks: seq<string>, i: nat, halts: seq<Event> -> bool, events: seq<Event>, e: Event, later: seq<Event>)
    requires i <= |chunks|
    requires NoStop(halts, events) && halts(events + [e])
    requires EventsOf(Concat(chunks[..i])) == events + [e] + later
    ensures DeliverFrom(halts, [], EventsOf(Concat(chunks))) == events + [e]
  {
    hide EventsOf, Rest, DeliverFrom, NoStop, Concat;
    var tail := ConcatPrefix(chunks, i);
    var text := Concat(chunks[..i]);
    EventsContinue(text, tail);
    var more := later + EventsOf(Rest(text) + tail);
    assert EventsOf(Concat(chunks)) == events + [e] + more;
    DeliverStops(halts, events, e, more);
  }
}
