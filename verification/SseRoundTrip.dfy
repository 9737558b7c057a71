/** Writing events as frames and reading them back, one frame at a time and over a chunked stream. */
module SseRoundTrip {
  import opened Options
  import opened Splitting
  import opened SseFraming

  function DataLines(lines: seq<string>): seq<string> {
    if lines == [] then [] else ["data: " + lines[0]] + DataLines(lines[1..])
  }

  function FrameLines(e: Event): (lines: seq<string>)
    ensures |lines| >= 1
  {
    (if e.id.Some? then ["id: " + e.id.value] else []) + (["event: " + e.kind] + DataLines(SplitLines(e.data)))
  }

  /** A frame as a server writes it: its id, its kind, and its data line by line. */
  function Serialize(e: Event): string { JoinLines(FrameLines(e)) }

  function JoinLines(lines: seq<string>): string
    requires |lines| >= 1
  {
    Join('\n', lines)
  }

  predicate OneLine(s: string) { '\n' !in s }

  predicate Plain(s: string) { OneLine(s) && WithoutReturn(s) == s }

  /** A frame can carry the id and kind. */
  predicate HeaderFits(e: Event) {
    (e.id.Some? ==> Plain(e.id.value)) && Plain(e.kind)
  }

  /** A frame can carry the data: its first line is not empty and no line ends with a carriage return. */
  predicate DataFits(data: string) {
    SplitLines(data)[0] != "" && forall i :: 0 <= i < |SplitLines(data)| ==> WithoutReturn(SplitLines(data)[i]) == SplitLines(data)[i]
  }

  // ---------------------------------------------------------------- lines

  lemma {:induction false} DataLinesAre(lines: seq<string>)
    ensures |DataLines(lines)| == |lines| && forall i :: 0 <= i < |lines| ==> DataLines(lines)[i] == "data: " + lines[i]
  {
    if lines != [] {
      DataLinesAre(lines[1..]);
    }
  }

  // ---------------------------------------------------------------- reading the data lines back

  /** The data a reader collects from the lines of a frame. */
  function Collect(data: string, lines: seq<string>): string
    decreases |lines|
  {
    if lines == [] then data else Collect(AddData(data, WithoutReturn(lines[0])), lines[1..])
  }

  lemma ReadDataLine(e: Event, line: string)
    ensures ReadLine(e, "data: " + line) == e.(data := AddData(e.data, WithoutReturn(line)))
  {
    var raw := "data: " + line;
    assert WithoutReturn(raw) == "data: " + WithoutReturn(line);
    var kept := WithoutReturn(raw);
    assert kept[0] == 'd' && "data: " <= kept && kept[6..] == WithoutReturn(line);
  }

  lemma {:induction false} ReadDataLines(e: Event, lines: seq<string>)
    ensures ReadLines(e, DataLines(lines)) == e.(data := Collect(e.data, lines))
    decreases |lines|
  {
    if lines != [] {
      ReadDataLine(e, lines[0]);
      assert DataLines(lines)[1..] == DataLines(lines[1..]);
      ReadDataLines(e.(data := AddData(e.data, WithoutReturn(lines[0]))), lines[1..]);
    }
  }

  lemma ReadHeaderLine(e: Event, value: string)
    requires Plain(value)
    ensures ReadLine(e, "id: " + value) == e.(id := Some(value))
    ensures ReadLine(e, "event: " + value) == e.(kind := value)
  {
    var a, b := "id: " + value, "event: " + value;
    assert WithoutReturn(a) == a && WithoutReturn(b) == b;
    assert a[0] == 'i' && "id: " <= a && a[4..] == value;
    assert b[0] == 'e' && b[1] == 'v' && "event: " <= b && b[7..] == value;
    assert !("id: " <= b) && !("id:" <= b);
  }

  function Width(lines: seq<string>): nat {
    if lines == [] then 0 else 1 + |lines[0]| + Width(lines[1..])
  }

  lemma {:induction false} JoinWidth(lines: seq<string>)
    requires |lines| >= 1
    ensures |JoinLines(lines)| == Width(lines) - 1
  {
    if |lines| > 1 {
      JoinWidth(lines[1..]);
    }
  }

  predicate NoReturns(lines: seq<string>) {
    forall i :: 0 <= i < |lines| ==> WithoutReturn(lines[i]) == lines[i]
  }

  /** After a first line, every further line is kept when none ends with a carriage return. */
  lemma {:induction false} CollectKeeps(data: string, lines: seq<string>)
    requires data != "" && NoReturns(lines) && lines != []
    ensures Collect(data, lines) == data + "\n" + JoinLines(lines)
    decreases |lines|
  {
    if |lines| > 1 {
      var more, rest := data + "\n" + lines[0], JoinLines(lines[1..]);
      assert NoReturns(lines[1..]);
      CollectKeeps(more, lines[1..]);
      assert more + "\n" + rest == data + "\n" + (lines[0] + "\n" + rest);
    }
  }

  /** Otherwise something is lost. */
  lemma {:induction false} CollectShrinks(data: string, lines: seq<string>)
    requires data != ""
    ensures |Collect(data, lines)| <= |data| + Width(lines)
    ensures !NoReturns(lines) ==> |Collect(data, lines)| < |data| + Width(lines)
    decreases |lines|
  {
    if lines != [] {
      CollectShrinks(AddData(data, WithoutReturn(lines[0])), lines[1..]);
      if !NoReturns(lines) && WithoutReturn(lines[0]) == lines[0] {
        var i :| 0 <= i < |lines| && WithoutReturn(lines[i]) != lines[i];
        assert lines[1..][i - 1] == lines[i];
      }
    }
  }

  /** Leading empty lines are lost, so the data comes back exactly when there are none and no carriage returns. */
  lemma {:induction false} CollectAll(lines: seq<string>)
    requires |lines| >= 1
    ensures |Collect("", lines)| <= Width(lines) - 1
    ensures lines[0] != "" && NoReturns(lines) ==> Collect("", lines) == JoinLines(lines)
    ensures !(lines[0] != "" && NoReturns(lines)) ==> |Collect("", lines)| < Width(lines) - 1 || Collect("", lines) == ""
    decreases |lines|
  {
    var first := WithoutReturn(lines[0]);
    if first == "" {
      if |lines| > 1 { CollectAll(lines[1..]); }
    } else {
      CollectShrinks(first, lines[1..]);
      if NoReturns(lines) {
        assert NoReturns(lines[1..]);
        if |lines| > 1 { CollectKeeps(first, lines[1..]); }
      } else if first == lines[0] {
        var i :| 0 <= i < |lines| && WithoutReturn(lines[i]) != lines[i];
        assert lines[1..][i - 1] == lines[i];
        assert !NoReturns(lines[1..]);
      }
    }
  }

  // ---------------------------------------------------------------- one frame

  lemma {:induction false} ReadLinesConcat(e: Event, a: seq<string>, b: seq<string>)
    ensures ReadLines(e, a + b) == ReadLines(ReadLines(e, a), b)
    decreases |a|
  {
    if a == [] {
      assert a + b == b;
    } else {
      assert (a + b)[1..] == a[1..] + b;
      ReadLinesConcat(ReadLine(e, a[0]), a[1..], b);
    }
  }

  lemma FrameLinesAreOneLine(e: Event)
    requires HeaderFits(e)
    ensures forall i :: 0 <= i < |FrameLines(e)| ==> OneLine(FrameLines(e)[i]) && FrameLines(e)[i] != ""
  {
    PiecesAvoid('\n', e.data);
    DataLinesAre(SplitLines(e.data));
  }

  lemma ReadOwnFrame(e: Event)
    requires HeaderFits(e)
    ensures ReadLines(EMPTY, SplitLines(Serialize(e))) == Event(e.id, e.kind, Collect("", SplitLines(e.data)))
  {
    FrameLinesAreOneLine(e);
    SplitOfJoin('\n', FrameLines(e));
    var head := if e.id.Some? then ["id: " + e.id.value] else [];
    var named := EMPTY.(id := e.id);
    if e.id.Some? {
      ReadHeaderLine(EMPTY, e.id.value);
      assert head[1..] == [];
    }
    assert ReadLines(EMPTY, head) == named;
    var tail := DataLines(SplitLines(e.data));
    ReadLinesConcat(EMPTY, head, ["event: " + e.kind] + tail);
    ReadHeaderLine(named, e.kind);
    assert (["event: " + e.kind] + tail)[1..] == tail;
    ReadDataLines(named.(kind := e.kind), SplitLines(e.data));
  }

  /**
    Reading back what was written: for every id and kind a line can hold, a frame gives its
    event back if and only if its data starts with a non-empty line and no line of it ends
    with a carriage return.
   */
  lemma FrameRoundTrip(e: Event)
    requires HeaderFits(e)
    ensures ParseFrame(Serialize(e)) == Some(e) <==> DataFits(e.data)
  {
    ReadOwnFrame(e);
    var lines := SplitLines(e.data);
    CollectAll(lines);
    JoinOfSplit('\n', e.data);
    JoinWidth(lines);
  }

  /** Two events a written frame does not give back: their data starts with an empty line, or a line of it ends with a carriage return. */
  lemma DataThatIsLost()
    ensures ParseFrame(Serialize(Event(None, "message", "\nx"))) != Some(Event(None, "message", "\nx"))
    ensures ParseFrame(Serialize(Event(None, "message", "x\r"))) != Some(Event(None, "message", "x\r"))
  {
    hide ParseFrame, Serialize;
    var empty, returned := "\nx", "x\r";
    assert Split('\n', empty)[0] == "";
    SplitWhole('\n', returned);
    assert WithoutReturn(returned) == returned[..1];
    assert SplitLines(returned)[0] == returned;
    FrameRoundTrip(Event(None, "message", empty));
    FrameRoundTrip(Event(None, "message", returned));
  }

  // ---------------------------------------------------------------- a stream of frames

  function SerializeAll(events: seq<Event>): string {
    if events == [] then "" else Serialize(events[0]) + "\n\n" + SerializeAll(events[1..])
  }

  /** Text without blank lines that does not end in a line feed. */
  predicate Solid(s: string) {
    s != "" && s[0] != '\n' && s[|s| - 1] != '\n' && Boundary(s) == -1
  }

  lemma {:induction false} SolidJoin(a: string, b: string)
    requires a != "" && OneLine(a) && Solid(b)
    ensures Solid(a + "\n" + b)
    decreases |a|
  {
    var all := a + "\n" + b;
    if |a| == 1 {
      assert all[1..] == "\n" + b && all[1..][1..] == b;
    } else {
      SolidJoin(a[1..], b);
      assert all[1..] == a[1..] + "\n" + b;
    }
  }

  lemma {:induction false} SolidLine(a: string)
    requires a != "" && OneLine(a)
    ensures Solid(a)
    decreases |a|
  {
    if |a| > 1 { SolidLine(a[1..]); }
  }

  lemma {:induction false} SolidLines(lines: seq<string>)
    requires |lines| >= 1 && forall i :: 0 <= i < |lines| ==> OneLine(lines[i]) && lines[i] != ""
    ensures Solid(JoinLines(lines))
  {
    if |lines| == 1 {
      SolidLine(lines[0]);
    } else {
      SolidLines(lines[1..]);
      SolidJoin(lines[0], JoinLines(lines[1..]));
    }
  }

  lemma {:induction false} BoundaryAfter(s: string, t: string)
    requires s != "" && s[|s| - 1] != '\n' && Boundary(s) == -1
    ensures Boundary(s + "\n\n" + t) == |s|
    decreases |s|
  {
    var all := s + "\n\n" + t;
    assert all[1..] == s[1..] + "\n\n" + t;
    if |s| == 1 {
      assert all[1..] == "\n\n" + t && all[1..][0] == '\n' && all[1..][1] == '\n';
    } else {
      BoundaryAfter(s[1..], t);
    }
  }

  /** However a server's frames are cut into chunks, the reader gets back exactly the events written. */
  lemma {:induction false} StreamRoundTrip(events: seq<Event>)
    requires forall i :: 0 <= i < |events| ==> HeaderFits(events[i]) && DataFits(events[i].data)
    ensures Events(Frames(SerializeAll(events))) == events && Rest(SerializeAll(events)) == ""
    decreases |events|
  {
    if events != [] {
      var e, s, t := events[0], Serialize(events[0]), SerializeAll(events[1..]);
      StreamRoundTrip(events[1..]);
      FrameRoundTrip(e);
      FrameLinesAreOneLine(e);
      SolidLines(FrameLines(e));
      BoundaryAfter(s, t);
      var all := s + "\n\n" + t;
      assert all[..|s|] == s && all[|s| + 2..] == t;
      hide ParseFrame, Serialize, Boundary;
      FirstFrame(all);
      assert [e] + events[1..] == events;
    }
  }
}
