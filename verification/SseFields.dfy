/** What a frame says, told from its lines: a field is a name, the first colon, and a value. */
module SseFields {
  import opened Options
  import opened Splitting
  import opened SseFraming

  // ---------------------------------------------------------------- one line

  /** The place of the first colon, or the length. */
  function Colon(line: string): (k: nat)
    ensures k <= |line| && (k < |line| ==> line[k] == ':') && forall i :: 0 <= i < k ==> line[i] != ':'
  {
    if line == "" || line[0] == ':' then 0 else 1 + Colon(line[1..])
  }

  /** One leading space is dropped; without it, all leading white space is. */
  function ValueFrom(text: string): string {
    if text != "" && text[0] == ' ' then text[1..] else TrimStart(text)
  }

  /** Trimming takes away leading white space, all of it, and nothing else. */
  lemma {:induction false} TrimsExactly(text: string)
    ensures var rest := TrimStart(text);
      && |rest| <= |text| && rest == text[|text| - |rest|..]
      && (forall i :: 0 <= i < |text| - |rest| ==> IsSpace(text[i])) && (rest == "" || !IsSpace(rest[0]))
  {
    hide IsSpace;
    if text != "" && IsSpace(text[0]) {
      TrimsExactly(text[1..]);
      var rest := TrimStart(text);
      forall i | 0 <= i < |text| - |rest| ensures IsSpace(text[i]) {
        if i > 0 { assert IsSpace(text[1..][i - 1]); }
      }
    }
  }

  datatype Field = Nothing | Field(name: string, value: string)

  /** A line as a field. One trailing carriage return is not part of it; comments and lines without a colon are none. */
  function FieldOf(raw: string): Field {
    var line := if raw != "" && raw[|raw| - 1] == '\r' then raw[..|raw| - 1] else raw;
    var k := Colon(line);
    if k == 0 || k == |line| then Nothing else Field(line[..k], ValueFrom(line[k + 1..]))
  }

  /** Only three names mean anything. */
  function WithField(e: Event, f: Field): Event {
    if f.Nothing? then e
    else if f.name == "id" then e.(id := Some(f.value))
    else if f.name == "event" then e.(kind := f.value)
    else if f.name == "data" then e.(data := if e.data == "" then f.value else e.data + "\n" + f.value)
    else e
  }

  lemma StartsWith(line: string, name: string, end: string)
    ensures name + end <= line <==> |line| >= |name| + |end| && line[..|name|] == name && line[|name|..|name| + |end|] == end
  {
    if |line| >= |name| + |end| {
      var front := line[..|name| + |end|];
      assert front == line[..|name|] + line[|name|..|name| + |end|];
      assert name + end <= line <==> name + end == front;
      if name + end == front { assert front[..|name|] == name && front[|name|..] == end; }
    }
  }

  /** A line that starts with a name and a colon has that field. */
  lemma PrefixIsField(line: string, name: string)
    requires ':' !in name
    ensures name + ":" <= line <==> Colon(line) == |name| && Colon(line) < |line| && line[..Colon(line)] == name
  {
    StartsWith(line, name, ":");
    if |line| > |name| && line[..|name|] == name && line[|name|..|name| + 1] == ":" {
      assert line[|name|] == ':' && forall i :: 0 <= i < |name| ==> line[i] == name[i];
    }
  }

  lemma PrefixWithSpace(line: string, name: string)
    ensures name + ": " <= line <==> name + ":" <= line && |line| > |name| + 1 && line[|name| + 1] == ' '
  {
    StartsWith(line, name, ":");
    StartsWith(line, name, ": ");
    if |line| >= |name| + 2 {
      var two := line[|name|..|name| + 2];
      assert two == line[|name|..|name| + 1] + [line[|name| + 1]] && ": " == ":" + " ";
    }
  }

  /** The line starts as the reader tests it. */
  lemma Prefixes(line: string, name: string)
    requires ':' !in name
    ensures var k := Colon(line);
      && (name + ":" <= line <==> k < |line| && line[..k] == name)
      && (name + ": " <= line <==> k + 1 < |line| && line[..k] == name && line[k + 1] == ' ')
  {
    PrefixIsField(line, name);
    PrefixWithSpace(line, name);
    hide Colon;
  }

  lemma IdPrefixes(line: string)
    ensures "id:" <= line <==> Colon(line) < |line| && line[..Colon(line)] == "id"
    ensures "id: " <= line <==> Colon(line) + 1 < |line| && line[..Colon(line)] == "id" && line[Colon(line) + 1] == ' '
  {
    Prefixes(line, "id");
    hide Colon;
    assert "id" + ":" == "id:" && "id" + ": " == "id: ";
  }

  lemma EventPrefixes(line: string)
    ensures "event:" <= line <==> Colon(line) < |line| && line[..Colon(line)] == "event"
    ensures "event: " <= line <==> Colon(line) + 1 < |line| && line[..Colon(line)] == "event" && line[Colon(line) + 1] == ' '
  {
    Prefixes(line, "event");
    hide Colon;
    assert "event" + ":" == "event:" && "event" + ": " == "event: ";
  }

  lemma DataPrefixes(line: string)
    ensures "data:" <= line <==> Colon(line) < |line| && line[..Colon(line)] == "data"
    ensures "data: " <= line <==> Colon(line) + 1 < |line| && line[..Colon(line)] == "data" && line[Colon(line) + 1] == ' '
  {
    Prefixes(line, "data");
    hide Colon;
    assert "data" + ":" == "data:" && "data" + ": " == "data: ";
  }

  /** Every line is read as the field it is. */
  lemma LineIsField(e: Event, raw: string)
    ensures ReadLine(e, raw) == WithField(e, FieldOf(raw))
  {
    var line := WithoutReturn(raw);
    if line != "" && line[0] != ':' {
      IdPrefixes(line);
      EventPrefixes(line);
      DataPrefixes(line);
      hide TrimStart, Colon;
      var k := Colon(line);
      if k < |line| {
        var rest := line[k + 1..];
        if rest != "" && rest[0] == ' ' { assert rest[1..] == line[k + 2..]; }
      }
    }
  }

  // ---------------------------------------------------------------- a whole frame

  /** The values of a field of a frame, in order. */
  function ValuesOf(name: string, lines: seq<string>): seq<string> {
    if lines == [] then []
    else
      var f := FieldOf(lines[|lines| - 1]);
      ValuesOf(name, lines[..|lines| - 1]) + if f.Field? && f.name == name then [f.value] else []
  }

  function LastOr(values: seq<string>, default: string): string {
    if values == [] then default else values[|values| - 1]
  }

  /** The values after the leading empty ones. */
  function FromFirst(values: seq<string>): seq<string> {
    if values != [] && values[0] == "" then FromFirst(values[1..]) else values
  }

  function Joined(values: seq<string>): string { if values == [] then "" else Join('\n', values) }

  lemma {:induction false} FromFirstMore(values: seq<string>, v: string)
    ensures FromFirst(values + [v]) == if FromFirst(values) == [] then (if v == "" then [] else [v]) else FromFirst(values) + [v]
  {
    if values == [] {
      assert [] + [v] == [v] && [v][1..] == [];
    } else if values[0] == "" {
      assert (values + [v])[1..] == values[1..] + [v];
      FromFirstMore(values[1..], v);
    }
  }

  lemma {:induction false} JoinMore(values: seq<string>, v: string)
    requires values != []
    ensures Join('\n', values + [v]) == Join('\n', values) + "\n" + v
  {
    if |values| == 1 {
      assert (values + [v])[1..] == [v];
    } else {
      assert (values + [v])[1..] == values[1..] + [v];
      JoinMore(values[1..], v);
      var a, b := values[0] + ['\n'], Join('\n', values[1..]);
      assert a + (b + "\n" + v) == (a + b) + "\n" + v;
    }
  }

  lemma {:induction false} FromFirstIsFull(values: seq<string>)
    ensures FromFirst(values) != [] ==> FromFirst(values)[0] != "" && Joined(FromFirst(values)) != ""
  {
    if values != [] && values[0] == "" { FromFirstIsFull(values[1..]); }
  }

  lemma DataMore(values: seq<string>, v: string)
    ensures var data := Joined(FromFirst(values));
      Joined(FromFirst(values + [v])) == if data == "" then v else data + "\n" + v
  {
    FromFirstMore(values, v);
    FromFirstIsFull(values);
    if FromFirst(values) != [] { JoinMore(FromFirst(values), v); }
  }

  lemma {:induction false} ReadLinesMore(e: Event, lines: seq<string>, raw: string)
    ensures ReadLines(e, lines + [raw]) == ReadLine(ReadLines(e, lines), raw)
    decreases |lines|
  {
    hide ReadLine;
    if lines == [] {
      assert [] + [raw] == [raw] && [raw][1..] == [];
    } else {
      assert (lines + [raw])[1..] == lines[1..] + [raw];
      ReadLinesMore(ReadLine(e, lines[0]), lines[1..], raw);
    }
  }

  /** The event a list of lines adds up to. */
  function SaidBy(lines: seq<string>): Event {
    var ids := ValuesOf("id", lines);
    Event(if ids == [] then None else Some(ids[|ids| - 1]), LastOr(ValuesOf("event", lines), "message"), Joined(FromFirst(ValuesOf("data", lines))))
  }

  lemma ValuesMore(name: string, lines: seq<string>, raw: string)
    ensures ValuesOf(name, lines + [raw]) == ValuesOf(name, lines) + if FieldOf(raw).Field? && FieldOf(raw).name == name then [FieldOf(raw).value] else []
  {
    assert (lines + [raw])[..|lines|] == lines;
  }

  lemma SaidByMore(lines: seq<string>, raw: string)
    ensures SaidBy(lines + [raw]) == WithField(SaidBy(lines), FieldOf(raw))
  {
    ValuesMore("id", lines, raw);
    ValuesMore("event", lines, raw);
    ValuesMore("data", lines, raw);
    hide ValuesOf, FieldOf, FromFirst, Joined;
    var f := FieldOf(raw);
    if f.Field? && f.name == "data" {
      DataMore(ValuesOf("data", lines), f.value);
    } else {
      assert ValuesOf("data", lines) + [] == ValuesOf("data", lines);
    }
  }

  lemma {:induction false} LinesSay(lines: seq<string>)
    ensures ReadLines(EMPTY, lines) == SaidBy(lines)
    decreases |lines|
  {
    if lines != [] {
      var init, last := lines[..|lines| - 1], lines[|lines| - 1];
      LinesSay(init);
      assert lines == init + [last];
      ReadLinesMore(EMPTY, init, last);
      LineIsField(SaidBy(init), last);
      SaidByMore(init, last);
      hide *;
    }
  }

  /**
    A frame is an event exactly when its data, the values of its `data` fields joined by line feeds
    but for leading empty ones, is not empty; its id is the last `id` field's, if there is one, and
    its kind the last `event` field's, or else `message`.
   */
  lemma FrameIsFields(frame: string)
    ensures var e := SaidBy(SplitLines(frame));
      ParseFrame(frame) == if e.data == "" then None else Some(e)
  {
    LinesSay(SplitLines(frame));
    hide ReadLines, SaidBy;
  }
}
