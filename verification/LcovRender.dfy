/** Writing the union as one report, and reading that report back. */
module LcovRender {
  import opened Decimals
  import opened Lcov
  import opened Options
  import opened PyText
  import opened Sorting
  import opened Splitting

  // ---------------------------------------------------------------- the lines of the report

  /** A line of the written report: the header, a kept record, or a recomputed total. */
  datatype OutLine = Header | Kept(record: Record) | Total(kind: string, count: nat)

  function Tag(r: Record): string {
    match r
    case SourceFile(_) => "SF" case LineCount(_, _) => "DA" case Function(_, _) => "FN"
    case FunctionCount(_, _) => "FNDA" case BranchCount(_, _) => "BRDA" case _ => ""
  }

  function ShowTaken(taken: Option<int>): string {
    if taken.None? then "-" else ShowInt(taken.value)
  }

  function Fields(r: Record): (fields: seq<string>)
    ensures |fields| >= 1
  {
    match r
    case SourceFile(path) => [path]
    case LineCount(line, hits) => [ShowInt(line), ShowInt(hits)]
    case Function(line, name) => [ShowInt(line), name]
    case FunctionCount(hits, name) => [ShowInt(hits), name]
    case BranchCount(b, taken) => [ShowInt(b.0), ShowInt(b.1), ShowInt(b.2), ShowTaken(taken)]
    case _ => [""]
  }

  function Tagged(kind: string, body: string): string { kind + ":" + body }

  function ShowRecord(r: Record): string {
    if r.EndOfRecord? then "end_of_record" else Tagged(Tag(r), Join(',', Fields(r)))
  }

  function ShowLine(o: OutLine): string {
    match o
    case Header => Tagged("TN", "")
    case Kept(r) => ShowRecord(r)
    case Total(kind, count) => Tagged(kind, ShowInt(count))
  }

  function FunctionLines(s: Source, names: seq<string>): seq<OutLine> {
    if names == [] then []
    else [Kept(Function(GetOr(s.functions, names[0], 0), names[0]))] + FunctionLines(s, names[1..])
  }

  function HitLines(s: Source, names: seq<string>): seq<OutLine> {
    if names == [] then []
    else [Kept(FunctionCount(GetOr(s.functionHits, names[0], 0), names[0]))] + HitLines(s, names[1..])
  }

  function CountLines(s: Source, lines: seq<int>): seq<OutLine> {
    if lines == [] then []
    else [Kept(LineCount(lines[0], GetOr(s.lines, lines[0], 0)))] + CountLines(s, lines[1..])
  }

  function BranchLines(s: Source, branches: seq<Branch>): seq<OutLine> {
    if branches == [] then []
    else [Kept(BranchCount(branches[0], GetOr(s.branches, branches[0], None)))] + BranchLines(s, branches[1..])
  }

  ghost function FunctionNames(s: Source): seq<string> {
    DeclaredOrder(s.functions);
    Sorted(s.functions.Keys, (a: string, b: string) => DeclaredLe(s.functions, a, b))
  }

  ghost function LineNumbers(s: Source): seq<int> {
    NumberOrders();
    Sorted(s.lines.Keys, IntLe)
  }

  ghost function BranchKeys(s: Source): seq<Branch> {
    NumberOrders();
    Sorted(s.branches.Keys, TripleLe)
  }

  function HitFunctions(s: Source): set<string> {
    set name | name in s.functions && GetOr(s.functionHits, name, 0) > 0
  }

  function CoveredLines(s: Source): set<int> {
    set line | line in s.lines && s.lines[line] > 0
  }

  function TakenBranches(s: Source): set<Branch> {
    set b | b in s.branches && s.branches[b].Some? && s.branches[b].value != 0
  }

  ghost function FunctionPart(s: Source): seq<OutLine> {
    FunctionLines(s, FunctionNames(s)) + HitLines(s, FunctionNames(s))
    + [Total("FNF", |s.functions|), Total("FNH", |HitFunctions(s)|)]
  }

  ghost function BranchPart(s: Source): seq<OutLine> {
    if s.branches == map[] then []
    else BranchLines(s, BranchKeys(s)) + [Total("BRF", |s.branches|), Total("BRH", |TakenBranches(s)|)]
  }

  ghost function CountsOf(s: Source): seq<OutLine> {
    FunctionPart(s) + CountLines(s, LineNumbers(s)) + BranchPart(s)
    + [Total("LF", |s.lines|), Total("LH", |CoveredLines(s)|)]
  }

  ghost function Block(path: string, s: Source): seq<OutLine> {
    [Kept(SourceFile(path))] + CountsOf(s) + [Kept(EndOfRecord)]
  }

  ghost function Blocks(u: Union, paths: seq<string>): seq<OutLine>
    requires forall i :: 0 <= i < |paths| ==> paths[i] in u
  {
    if paths == [] then [] else Block(paths[0], u[paths[0]]) + Blocks(u, paths[1..])
  }

  ghost function Paths(u: Union): (paths: seq<string>)
    ensures Lists(u.Keys, paths)
  {
    TextOrder();
    SortedLists(u.Keys, TextLe);
    Sorted(u.Keys, TextLe)
  }

  ghost function Report(u: Union): seq<OutLine> {
    [Header] + Blocks(u, Paths(u))
  }

  function ShowLines(out: seq<OutLine>): seq<string> {
    if out == [] then [] else [ShowLine(out[0])] + ShowLines(out[1..])
  }

  /** The union as the bytes of one report. */
  ghost function Render(u: Union): string { Text(ShowLines(Report(u))) }

  // ---------------------------------------------------------------- reading one line back

  /** What a line of a report can carry as a name or path. */
  predicate Clean(s: string) { NoBreaks(s) && EndsSolid(s) }

  predicate CleanLine(o: OutLine) {
    match o
    case Header => true
    case Total(kind, _) => kind in {"FNF", "FNH", "BRF", "BRH", "LF", "LH"}
    case Kept(r) =>
      match r
      case SourceFile(path) => Clean(path)
      case Function(_, name) => Clean(name)
      case FunctionCount(_, name) => Clean(name)
      case LineCount(_, _) => true
      case BranchCount(_, _) => true
      case EndOfRecord => true
      case _ => false
  }

  function Meaning(o: OutLine): Record { if o.Kept? then o.record else Ignored }

  lemma {:induction false} PartitionAt(kind: string, body: string)
    requires ':' !in kind
    ensures Partition(kind + ":" + body) == (kind, body)
    decreases |kind|
  {
    var s := kind + ":" + body;
    if kind == "" {
      assert s[1..] == body;
    } else {
      PartitionAt(kind[1..], body);
      assert s[1..] == kind[1..] + ":" + body;
      assert [kind[0]] + kind[1..] == kind;
    }
  }

  /** A line of the form kind, colon, body, read back. */
  lemma TaggedLine(kind: string, body: string)
    requires kind in RECOMPUTED || kind in {"SF", "DA", "FN", "FNDA", "BRDA"}
    requires Clean(body)
    ensures NoBreaks(Tagged(kind, body))
    ensures ReadRecord(Tagged(kind, body)) ==
      if kind in RECOMPUTED then Ignored else if kind == "SF" then SourceFile(body) else ReadCount(kind, Split(',', body))
  {
    var s := Tagged(kind, body);
    assert s[|s| - 1] == if body == "" then ':' else body[|body| - 1];
    assert s[0] == kind[0];
    StripNothing(s);
    PartitionAt(kind, body);
    assert ':' in s && ':' !in "end_of_record" && s != "end_of_record";
  }

  lemma NumberText(n: int)
    ensures Clean(ShowInt(n)) && ',' !in ShowInt(n) && ReadInt(ShowInt(n)) == Some(n) && ShowInt(n) != "-"
  {
    ShowIntChars(n);
    ReadShownInt(n);
    DecimalDigits(if n < 0 then -n else n);
    if n < 0 { assert |ShowInt(n)| >= 2; }
  }

  lemma {:induction false} CleanJoin(fields: seq<string>)
    requires |fields| >= 1 && forall i :: 0 <= i < |fields| ==> Clean(fields[i])
    ensures Clean(Join(',', fields))
  {
    if |fields| > 1 {
      CleanJoin(fields[1..]);
      var head, rest := fields[0] + [','], Join(',', fields[1..]);
      var all := head + rest;
      assert all[|all| - 1] == if rest == "" then ',' else rest[|rest| - 1];
    }
  }

  /** A number and a name, joined by a comma, read back whatever commas the name has. */
  lemma NumberAndName(n: int, name: string)
    requires Clean(name)
    ensures var fields := Split(',', Join(',', [ShowInt(n), name]));
      |fields| >= 2 && fields[0] == ShowInt(n) && Join(',', fields[1..]) == name
  {
    NumberText(n);
    SplitFirst(',', ShowInt(n), name);
    JoinOfSplit(',', name);
    assert [ShowInt(n), name][1..] == [name];
    assert ([ShowInt(n)] + Split(',', name))[1..] == Split(',', name);
  }

  lemma NumberFields(fields: seq<string>)
    requires |fields| >= 1 && forall i :: 0 <= i < |fields| ==> ',' !in fields[i]
    ensures Split(',', Join(',', fields)) == fields
  {
    SplitOfJoin(',', fields);
  }

  lemma FieldsAreClean(r: Record)
    requires CleanLine(Kept(r))
    ensures Clean(Join(',', Fields(r)))
  {
    hide Clean, ShowInt, Join;
    match r {
      case LineCount(line, hits) => NumberText(line); NumberText(hits);
      case Function(line, name) => NumberText(line);
      case FunctionCount(hits, name) => NumberText(hits);
      case BranchCount(b, taken) =>
        NumberText(b.0);
        NumberText(b.1);
        NumberText(b.2);
        if taken.Some? { NumberText(taken.value); } else { DashIsClean(); }
      case SourceFile(_) =>
      case _ => NothingIsClean();
    }
    CleanJoin(Fields(r));
  }

  lemma DashIsClean()
    ensures Clean("-")
  {
  }

  lemma NothingIsClean()
    ensures Clean("")
  {
  }

  /** A count record's fields read back as the record. */
  lemma CountFields(r: Record)
    requires CleanLine(Kept(r)) && IsCount(r)
    ensures ReadCount(Tag(r), Split(',', Join(',', Fields(r)))) == r
  {
    hide ReadInt, ShowInt, Split, Join;
    match r {
      case LineCount(line, hits) =>
        NumberText(line);
        NumberText(hits);
        NumberFields(Fields(r));
      case Function(line, name) =>
        NumberText(line);
        NumberAndName(line, name);
      case FunctionCount(hits, name) =>
        NumberText(hits);
        NumberAndName(hits, name);
      case BranchCount(b, taken) =>
        NumberText(b.0);
        NumberText(b.1);
        NumberText(b.2);
        if taken.Some? { NumberText(taken.value); }
        NumberFields(Fields(r));
    }
  }

  /** Every written line reads back as what it stands for. */
  lemma LineRoundTrip(o: OutLine)
    requires CleanLine(o)
    ensures NoBreaks(ShowLine(o)) && ReadRecord(ShowLine(o)) == Meaning(o)
  {
    hide ReadInt, ShowInt, Split, Join, Tagged, ReadRecord, ReadCount;
    match o
    case Header => TaggedLine("TN", "");
    case Total(kind, count) => NumberText(count); TaggedLine(kind, ShowInt(count));
    case Kept(r) =>
      if r.EndOfRecord? {
        EndRoundTrip();
      } else {
        FieldsAreClean(r);
        TaggedLine(Tag(r), Join(',', Fields(r)));
        if r.SourceFile? { SingleField(r.path); } else { CountFields(r); }
      }
  }

  lemma EndRoundTrip()
    ensures NoBreaks("end_of_record") && ReadRecord("end_of_record") == EndOfRecord
  {
    StripNothing("end_of_record");
  }

  lemma SingleField(path: string)
    ensures Join(',', [path]) == path
  {
  }

  function Meanings(out: seq<OutLine>): seq<Record> {
    if out == [] then [] else [Meaning(out[0])] + Meanings(out[1..])
  }

  lemma {:induction false} ReportRoundTrip(out: seq<OutLine>)
    requires forall i :: 0 <= i < |out| ==> CleanLine(out[i])
    ensures Lines(Text(ShowLines(out))) == ShowLines(out) && ReadRecords(ShowLines(out)) == Meanings(out)
    decreases |out|
  {
    if out != [] {
      ReportRoundTrip(out[1..]);
      LineRoundTrip(out[0]);
      hide ShowLine, ReadRecord, Lines, Meaning, CleanLine, NoBreaks;
      FirstLine(ShowLine(out[0]), Text(ShowLines(out[1..])));
      assert ShowLines(out)[1..] == ShowLines(out[1..]);
    }
  }
}
