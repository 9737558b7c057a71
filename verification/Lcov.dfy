/** One coverage report: reading its records and folding them into a union of source files. */
module Lcov {
  import opened Options
  import opened PyText
  import opened Splitting

  type Branch = (int, int, int)

  /** One source file's counts. A branch maps to `None` while every report says its block never ran. */
  datatype Source = Source(lines: map<int, int>, functions: map<string, int>, functionHits: map<string, int>, branches: map<Branch, Option<int>>)

  const NEW_SOURCE := Source(map[], map[], map[], map[])

  type Union = map<string, Source>

  /** One line of a report. `Ignored` is an empty line or a total that is recomputed. */
  datatype Record =
    | Ignored
    | EndOfRecord
    | SourceFile(path: string)
    | LineCount(line: int, hits: int)
    | Function(line: int, name: string)
    | FunctionCount(hits: int, name: string)
    | BranchCount(branch: Branch, taken: Option<int>)
    | Unusable

  const RECOMPUTED := {"TN", "LF", "LH", "FNF", "FNH", "BRF", "BRH"}

  // ---------------------------------------------------------------- one line

  /** The text before the first colon, and the text after it. */
  function Partition(s: string): (string, string) {
    if s == "" then ("", "")
    else if s[0] == ':' then ("", s[1..])
    else
      var (kind, body) := Partition(s[1..]);
      ([s[0]] + kind, body)
  }

  function ReadCount(kind: string, fields: seq<string>): Record {
    if kind == "DA" && |fields| >= 2 then
      var line, hits := ReadInt(fields[0]), ReadInt(fields[1]);
      if line.Some? && hits.Some? then LineCount(line.value, hits.value) else Unusable
    else if kind == "FN" && |fields| >= 2 then
      var line := ReadInt(fields[0]);
      if line.Some? then Function(line.value, Join(',', fields[1..])) else Unusable
    else if kind == "FNDA" && |fields| >= 2 then
      var hits := ReadInt(fields[0]);
      if hits.Some? then FunctionCount(hits.value, Join(',', fields[1..])) else Unusable
    else if kind == "BRDA" && |fields| == 4 then
      var a, b, c := ReadInt(fields[0]), ReadInt(fields[1]), ReadInt(fields[2]);
      if a.None? || b.None? || c.None? then Unusable
      else if fields[3] == "-" then BranchCount((a.value, b.value, c.value), None)
      else
        var taken := ReadInt(fields[3]);
        if taken.Some? then BranchCount((a.value, b.value, c.value), taken) else Unusable
    else Unusable
  }

  function ReadRecord(raw: string): Record {
    var line := Strip(raw);
    if line == "" then Ignored
    else if line == "end_of_record" then EndOfRecord
    else
      var (kind, body) := Partition(line);
      if kind in RECOMPUTED then Ignored
      else if kind == "SF" then SourceFile(body)
      else ReadCount(kind, Split(',', body))
  }

  function ReadRecords(lines: seq<string>): seq<Record> {
    if lines == [] then [] else [ReadRecord(lines[0])] + ReadRecords(lines[1..])
  }

  // ---------------------------------------------------------------- folding

  function GetOr<K, V>(m: map<K, V>, k: K, default: V): V { if k in m then m[k] else default }

  function AddLine(s: Source, line: int, hits: int): Source {
    s.(lines := s.lines[line := GetOr(s.lines, line, 0) + hits])
  }

  function AddFunction(s: Source, line: int, name: string): Source {
    if name in s.functions then s else s.(functions := s.functions[name := line])
  }

  function AddFunctionHits(s: Source, hits: int, name: string): Source {
    s.(functionHits := s.functionHits[name := GetOr(s.functionHits, name, 0) + hits])
  }

  /** "-" stays only while every report agrees. */
  function AddBranch(s: Source, b: Branch, taken: Option<int>): Source {
    match taken
    case None => if b in s.branches then s else s.(branches := s.branches[b := None])
    case Some(n) =>
      var known := GetOr(s.branches, b, None);
      s.(branches := s.branches[b := Some((if known.Some? then known.value else 0) + n)])
  }

  predicate IsCount(r: Record) { r.LineCount? || r.Function? || r.FunctionCount? || r.BranchCount? }

  function Fold(s: Source, r: Record): Source {
    match r
    case LineCount(line, hits) => AddLine(s, line, hits)
    case Function(line, name) => AddFunction(s, line, name)
    case FunctionCount(hits, name) => AddFunctionHits(s, hits, name)
    case BranchCount(b, taken) => AddBranch(s, b, taken)
    case _ => s
  }

  /** Reading a report into a union: the source file being described, or the refusal of the report. */
  datatype Reading = Reading(union: Union, current: Option<string>) | Refused

  function Take(s: Reading, r: Record): Reading {
    if s.Refused? then s
    else match r
      case Ignored => s
      case EndOfRecord => s.(current := None)
      case SourceFile(path) => Reading(if path in s.union then s.union else s.union[path := NEW_SOURCE], Some(path))
      case Unusable => Refused
      case _ =>
        if s.current.None? || s.current.value !in s.union then Refused
        else s.(union := s.union[s.current.value := Fold(s.union[s.current.value], r)])
  }

  function TakeAll(s: Reading, records: seq<Record>): Reading
    decreases |records|
  {
    if records == [] then s else TakeAll(Take(s, records[0]), records[1..])
  }

  /** One report folded into a union. */
  function ParseInto(union: Union, text: string): Reading {
    TakeAll(Reading(union, None), ReadRecords(Lines(text)))
  }

  /** The reports folded one after another; one refused report refuses the union. */
  function Load(u: Union, reports: seq<string>): Reading
    decreases |reports|
  {
    if reports == [] then Reading(u, None)
    else
      var first := ParseInto(u, reports[0]);
      if first.Refused? then Refused else Load(first.union, reports[1..])
  }

  lemma {:induction false} TakeAllConcat(s: Reading, a: seq<Record>, b: seq<Record>)
    ensures TakeAll(s, a + b) == TakeAll(TakeAll(s, a), b)
    decreases |a|
  {
    if a == [] {
      assert a + b == b;
    } else {
      assert (a + b)[1..] == a[1..] + b;
      TakeAllConcat(Take(s, a[0]), a[1..], b);
    }
  }

  /** The source file the reader writes to is always one of the union. */
  ghost predicate CurrentKnown(s: Reading) {
    s.Reading? && s.current.Some? ==> s.current.value in s.union
  }

  // ---------------------------------------------------------------- the objects

  /** The counts of one source file, updated in place. */
  class SourceCounts {
    var lines: map<int, int>
    var functions: map<string, int>
    var functionHits: map<string, int>
    var branches: map<Branch, Option<int>>

    ghost function State(): Source
      reads this
    {
      Source(lines, functions, functionHits, branches)
    }

    constructor ()
      ensures State() == NEW_SOURCE
    {
      lines, functions, functionHits, branches := map[], map[], map[], map[];
    }

    method AddLineHits(line: int, hits: int)
      modifies this
      ensures State() == AddLine(old(State()), line, hits)
    {
      lines := lines[line := GetOr(lines, line, 0) + hits];
    }

    method AddBranchTaken(b: Branch, taken: Option<int>)
      modifies this
      ensures State() == AddBranch(old(State()), b, taken)
    {
      var known := GetOr(branches, b, None);
      if taken.None? {
        if b !in branches { branches := branches[b := None]; }
      } else {
        branches := branches[b := Some((if known.Some? then known.value else 0) + taken.value)];
      }
    }

    /** Adds one count record. */
    method FoldRecord(r: Record)
      modifies this
      ensures State() == Fold(old(State()), r)
    {
      match r {
        case LineCount(line, hits) => AddLineHits(line, hits);
        case Function(line, name) => if name !in functions { functions := functions[name := line]; }
        case FunctionCount(hits, name) => functionHits := functionHits[name := GetOr(functionHits, name, 0) + hits];
        case BranchCount(b, taken) => AddBranchTaken(b, taken);
        case _ =>
      }
    }
  }

  lemma ReadRecordsAt(lines: seq<string>, i: nat)
    requires i < |lines|
    ensures ReadRecords(lines[i..]) == [ReadRecord(lines[i])] + ReadRecords(lines[i + 1..])
  {
    assert lines[i..][1..] == lines[i + 1..];
  }

  /** The union of all reports read so far. */
  class Merger {
    var merged: map<string, SourceCounts>

    ghost predicate Valid()
      reads this
    {
      forall p, q :: p in merged && q in merged && p != q ==> merged[p] != merged[q]
    }

    ghost function State(): Union
      reads this, merged.Values
    {
      map p | p in merged :: merged[p].State()
    }

    constructor ()
      ensures Valid() && State() == map[] && merged == map[]
    {
      merged := map[];
    }

    method OpenFile(path: string)
      requires Valid()
      modifies this
      ensures Valid() && fresh(merged.Values - old(merged.Values)) && path in merged
      ensures State() == if path in old(State()) then old(State()) else old(State())[path := NEW_SOURCE]
    {
      if path !in merged {
        var source := new SourceCounts();
        merged := merged[path := source];
      }
    }

    method FoldInto(path: string, r: Record)
      requires Valid() && path in merged
      modifies merged[path]
      ensures State() == old(State())[path := Fold(old(State())[path], r)]
    {
      merged[path].FoldRecord(r);
    }

    /** One record: the source file it leaves open, or a refusal. */
    method TakeRecord(r: Record, current: Option<string>) returns (next: Option<string>, usable: bool)
      requires Valid() && (current.Some? ==> current.value in merged)
      modifies this, merged.Values
      ensures Valid() && fresh(merged.Values - old(merged.Values)) && (next.Some? ==> next.value in merged)
      ensures Take(Reading(old(State()), current), r) == if usable then Reading(State(), next) else Refused
    {
      hide Fold;
      next, usable := current, true;
      if r.EndOfRecord? {
        next := None;
      } else if r.SourceFile? {
        OpenFile(r.path);
        next := Some(r.path);
      } else if r.Unusable? || (IsCount(r) && current.None?) {
        usable := false;
      } else if IsCount(r) {
        FoldInto(current.value, r);
      }
    }

    /** Folds one report into the union; a record outside a source file or of an unknown kind refuses it. */
    method Parse(text: string) returns (usable: bool)
      requires Valid()
      modifies this, merged.Values
      ensures Valid() && fresh(merged.Values - old(merged.Values))
      ensures usable == ParseInto(old(State()), text).Reading?
      ensures usable ==> State() == ParseInto(old(State()), text).union
    {
      hide Take, Valid, State, ReadRecord;
      var lines := Lines(text);
      ghost var all := TakeAll(Reading(State(), None), ReadRecords(lines));
      var current: Option<string> := None;
      assert lines[0..] == lines;
      for i := 0 to |lines|
        invariant Valid() && fresh(merged.Values - old(merged.Values))
        invariant current.Some? ==> current.value in merged
        invariant TakeAll(Reading(State(), current), ReadRecords(lines[i..])) == all
      {
        ReadRecordsAt(lines, i);
        assert ([ReadRecord(lines[i])] + ReadRecords(lines[i + 1..]))[1..] == ReadRecords(lines[i + 1..]);
        current, usable := TakeRecord(ReadRecord(lines[i]), current);
        if !usable {
          RefusedStays(ReadRecords(lines[i + 1..]));
          return;
        }
      }
      assert lines[|lines|..] == [];
      usable := true;
    }

    /** Folds the reports in the order they are given, up to the first one that is refused. */
    method LoadAll(reports: seq<string>) returns (usable: bool)
      requires Valid()
      modifies this, merged.Values
      ensures Valid() && fresh(merged.Values - old(merged.Values))
      ensures usable == Load(old(State()), reports).Reading?
      ensures usable ==> State() == Load(old(State()), reports).union
    {
      hide ParseInto, Valid, State;
      ghost var all := Load(State(), reports);
      assert reports[0..] == reports;
      for i := 0 to |reports|
        invariant Valid() && fresh(merged.Values - old(merged.Values))
        invariant Load(State(), reports[i..]) == all
      {
        assert reports[i..][0] == reports[i] && reports[i..][1..] == reports[i + 1..];
        usable := Parse(reports[i]);
        if !usable { return; }
      }
      assert reports[|reports|..] == [];
      usable := true;
    }
  }

  lemma {:induction false} RefusedStays(records: seq<Record>)
    ensures TakeAll(Refused, records) == Refused
    decreases |records|
  {
    if records != [] { RefusedStays(records[1..]); }
  }
}
