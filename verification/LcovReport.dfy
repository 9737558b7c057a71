/** Which reports are usable, and what the written report says of itself: its order and its totals. */
module LcovReport {
  import opened Lcov
  import opened LcovRender
  import opened Options
  import opened PyText
  import opened Sorting
  import opened Splitting

  // ---------------------------------------------------------------- usable reports

  /** The place of the first colon, or the length. */
  function Colon(line: string): (k: nat)
    ensures k <= |line| && (k < |line| ==> line[k] == ':') && forall i :: 0 <= i < k ==> line[i] != ':'
  {
    if line == "" || line[0] == ':' then 0 else 1 + Colon(line[1..])
  }

  /** What a line is called: the text before its first colon. */
  function KindOf(line: string): string { line[..Colon(line)] }

  function FieldsOf(line: string): seq<string> {
    Split(',', if Colon(line) < |line| then line[Colon(line) + 1..] else "")
  }

  predicate IsNumber(s: string) { ReadInt(s).Some? }

  /** One of the four records that are kept, with the fields it needs. */
  predicate IsKept(line: string) {
    var kind, fields := KindOf(line), FieldsOf(line);
    || (kind == "DA" && |fields| >= 2 && IsNumber(fields[0]) && IsNumber(fields[1]))
    || ((kind == "FN" || kind == "FNDA") && |fields| >= 2 && IsNumber(fields[0]))
    || (kind == "BRDA" && |fields| == 4 && IsNumber(fields[0]) && IsNumber(fields[1]) && IsNumber(fields[2]) && (fields[3] == "-" || IsNumber(fields[3])))
  }

  /** Nothing, the end of a source file, or a total or title that is written anew. */
  predicate IsPassedOver(line: string) {
    line == "" || line == "end_of_record" || KindOf(line) in {"TN", "LF", "LH", "FNF", "FNH", "BRF", "BRH"}
  }

  /** Opens a source file. */
  predicate Opens(line: string) { !IsPassedOver(line) && KindOf(line) == "SF" }

  predicate Ends(line: string) { line == "end_of_record" }

  /** Line `i` is inside a source file: one was opened before it and has not ended since. */
  ghost predicate Inside(lines: seq<string>, i: nat)
    requires i <= |lines|
  {
    exists j :: 0 <= j < i && OpenedAt(lines, j, i)
  }

  ghost predicate OpenedAt(lines: seq<string>, j: nat, i: nat)
    requires j < i <= |lines|
  {
    Opens(Strip(lines[j])) && forall k :: j < k < i ==> !Ends(Strip(lines[k]))
  }

  ghost predicate IsUsable(lines: seq<string>, i: nat)
    requires i < |lines|
  {
    var line := Strip(lines[i]);
    IsPassedOver(line) || Opens(line) || (IsKept(line) && Inside(lines, i))
  }

  lemma {:induction false} PartitionIsColon(line: string)
    ensures Partition(line) == (KindOf(line), if Colon(line) < |line| then line[Colon(line) + 1..] else "")
    decreases |line|
  {
    if line != "" && line[0] != ':' {
      PartitionIsColon(line[1..]);
      assert Colon(line) == 1 + Colon(line[1..]);
      assert line[..Colon(line)] == [line[0]] + line[1..][..Colon(line[1..])];
    }
  }

  /** What each line does to the reading. */
  lemma RecordIs(raw: string)
    ensures var line, r := Strip(raw), ReadRecord(raw);
      && (Ends(line) <==> r.EndOfRecord?)
      && (IsPassedOver(line) <==> r.Ignored? || r.EndOfRecord?)
      && (Opens(line) <==> r.SourceFile?)
      && (IsCount(r) <==> !IsPassedOver(line) && IsKept(line))
  {
    var line := Strip(raw);
    PartitionIsColon(line);
    hide Colon, Split, Join, ReadInt, Partition;
    NotKept("end_of_record");
  }

  lemma NotKept(line: string)
    requires line == "end_of_record"
    ensures KindOf(line) == "end_of_record"
  {
    assert forall i :: 0 <= i < |line| ==> line[i] != ':';
  }

  ghost predicate AllUsable(lines: seq<string>, n: nat)
    requires n <= |lines|
  {
    forall i :: 0 <= i < n ==> IsUsable(lines, i)
  }

  lemma {:induction false} ReadRecordsMore(lines: seq<string>, raw: string)
    ensures ReadRecords(lines + [raw]) == ReadRecords(lines) + [ReadRecord(raw)]
  {
    hide ReadRecord;
    if lines == [] {
      assert [] + [raw] == [raw] && [raw][1..] == [];
    } else {
      assert (lines + [raw])[1..] == lines[1..] + [raw];
      ReadRecordsMore(lines[1..], raw);
    }
  }

  lemma InsideNext(lines: seq<string>, n: nat)
    requires n < |lines|
    ensures Inside(lines, n + 1) <==> Opens(Strip(lines[n])) || (Inside(lines, n) && !Ends(Strip(lines[n])))
  {
    hide Opens, Strip;
    if Opens(Strip(lines[n])) { assert OpenedAt(lines, n, n + 1); }
    if Inside(lines, n) && !Ends(Strip(lines[n])) {
      var j :| 0 <= j < n && OpenedAt(lines, j, n);
      assert OpenedAt(lines, j, n + 1);
    }
    if Inside(lines, n + 1) && !Opens(Strip(lines[n])) {
      var j :| 0 <= j < n + 1 && OpenedAt(lines, j, n + 1);
      assert OpenedAt(lines, j, n);
    }
  }

  ghost function ReadingOf(u: Union, lines: seq<string>): Reading { TakeAll(Reading(u, None), ReadRecords(lines)) }

  lemma ReadingNext(u: Union, lines: seq<string>, n: nat)
    requires n < |lines|
    ensures ReadingOf(u, lines[..n + 1]) == Take(ReadingOf(u, lines[..n]), ReadRecord(lines[n]))
  {
    assert lines[..n + 1] == lines[..n] + [lines[n]];
    ReadRecordsMore(lines[..n], lines[n]);
    TakeAllConcat(Reading(u, None), ReadRecords(lines[..n]), [ReadRecord(lines[n])]);
    hide ReadRecord, Take;
    var r, s := ReadRecord(lines[n]), ReadingOf(u, lines[..n]);
    assert [r][1..] == [] && TakeAll(s, [r]) == TakeAll(Take(s, r), []);
  }

  lemma AllUsableNext(lines: seq<string>, n: nat)
    requires n < |lines|
    ensures AllUsable(lines, n + 1) <==> AllUsable(lines, n) && IsUsable(lines, n)
  {
    hide IsUsable;
  }

  lemma TakeUsable(s: Reading, r: Record)
    requires CurrentKnown(s)
    ensures CurrentKnown(Take(s, r))
    ensures Take(s, r).Reading? <==> s.Reading? && !r.Unusable? && (IsCount(r) ==> s.current.Some?)
    ensures Take(s, r).Reading? ==> (Take(s, r).current.Some? <==> r.SourceFile? || (s.current.Some? && !r.EndOfRecord?))
  {
    hide Fold;
  }

  lemma LineIsUsable(lines: seq<string>, n: nat)
    requires n < |lines|
    ensures var r := ReadRecord(lines[n]);
      && (IsUsable(lines, n) <==> !r.Unusable? && (IsCount(r) ==> Inside(lines, n)))
      && (Inside(lines, n + 1) <==> r.SourceFile? || (Inside(lines, n) && !r.EndOfRecord?))
  {
    RecordIs(lines[n]);
    InsideNext(lines, n);
    hide ReadRecord, Opens, IsPassedOver, IsKept, Ends, Strip, Inside;
  }

  lemma {:induction false} UsableSoFar(u: Union, lines: seq<string>, n: nat)
    requires n <= |lines|
    ensures var s := ReadingOf(u, lines[..n]);
      (s.Reading? <==> AllUsable(lines, n)) && CurrentKnown(s) && (s.Reading? ==> (s.current.Some? <==> Inside(lines, n)))
    decreases n
  {
    hide *;
    if n == 0 {
      NothingRead(u, lines);
    } else {
      UsableSoFar(u, lines, n - 1);
      ReadingNext(u, lines, n - 1);
      LineIsUsable(lines, n - 1);
      AllUsableNext(lines, n - 1);
      TakeUsable(ReadingOf(u, lines[..n - 1]), ReadRecord(lines[n - 1]));
    }
  }

  lemma NothingRead(u: Union, lines: seq<string>)
    ensures ReadingOf(u, lines[..0]) == Reading(u, None) && AllUsable(lines, 0) && !Inside(lines, 0) && CurrentKnown(Reading(u, None))
  {
    hide ReadRecord, IsUsable, OpenedAt;
    assert lines[..0] == [];
  }

  /**
    A report is usable exactly when each of its lines is passed over, opens a source file, or is one
    of the four kept records with the fields it needs inside a source file. So no record of another
    kind is ever dropped in silence.
   */
  lemma UsableExactly(u: Union, text: string)
    ensures ParseInto(u, text).Reading? <==> AllUsable(Lines(text), |Lines(text)|)
  {
    UsableSoFar(u, Lines(text), |Lines(text)|);
    assert Lines(text)[..|Lines(text)|] == Lines(text);
  }

  // ---------------------------------------------------------------- the order of the report

  /** Texts in the order of their characters: a text before its continuations, otherwise by the first difference. */
  predicate InOrder(a: string, b: string) {
    a <= b || exists k :: 0 <= k < |a| && k < |b| && DiffersAt(a, b, k)
  }

  predicate DiffersAt(a: string, b: string, k: nat)
    requires k < |a| && k < |b|
  {
    a[..k] == b[..k] && a[k] < b[k]
  }

  lemma {:induction false} TextsInOrder(a: string, b: string)
    ensures TextLe(a, b) <==> InOrder(a, b)
    decreases |a|
  {
    if a != "" && b != "" {
      var x, y := a[1..], b[1..];
      TextsInOrder(x, y);
      assert a == [a[0]] + x && b == [b[0]] + y;
      if a[0] < b[0] { assert DiffersAt(a, b, 0); }
      if a[0] == b[0] {
        assert a <= b <==> x <= y;
        forall k | 0 <= k < |x| && k < |y| ensures DiffersAt(x, y, k) <==> DiffersAt(a, b, k + 1) {
          assert a[..k + 1] == [a[0]] + x[..k] && b[..k + 1] == [b[0]] + y[..k];
        }
        if k :| 0 <= k < |a| && k < |b| && DiffersAt(a, b, k) {
          if k > 0 { assert DiffersAt(x, y, k - 1); }
        }
        if k :| 0 <= k < |x| && k < |y| && DiffersAt(x, y, k) { assert DiffersAt(a, b, k + 1); }
      }
      if a[0] > b[0] {
        forall k | 0 <= k < |a| && k < |b| ensures !DiffersAt(a, b, k) {
          if k > 0 { assert a[..k][0] == a[0] && b[..k][0] == b[0]; }
        }
      }
    }
  }

  /** What the order of the written report is made of. */
  ghost predicate ListedInOrder(s: Source) {
    && (forall i, j :: 0 <= i < j < |LineNumbers(s)| ==> LineNumbers(s)[i] < LineNumbers(s)[j])
    && (forall i, j :: 0 <= i < j < |FunctionNames(s)| ==> NamedBefore(s, FunctionNames(s)[i], FunctionNames(s)[j]))
    && (forall i, j :: 0 <= i < j < |BranchKeys(s)| ==> TripleLt(BranchKeys(s)[i], BranchKeys(s)[j]))
  }

  /** Declared at an earlier line, or at the same one under an earlier name. */
  ghost predicate NamedBefore(s: Source, a: string, b: string) {
    && a in s.functions && b in s.functions
    && (s.functions[a] < s.functions[b] || (s.functions[a] == s.functions[b] && InOrder(a, b)))
  }

  predicate TripleLt(a: Branch, b: Branch) {
    a.0 < b.0 || (a.0 == b.0 && (a.1 < b.1 || (a.1 == b.1 && a.2 < b.2)))
  }

  lemma LinesInOrder(s: Source)
    ensures forall i, j :: 0 <= i < j < |LineNumbers(s)| ==> LineNumbers(s)[i] < LineNumbers(s)[j]
  {
    NumberOrders();
    SortedLists(s.lines.Keys, IntLe);
  }

  lemma BranchesInOrder(s: Source)
    ensures forall i, j :: 0 <= i < j < |BranchKeys(s)| ==> TripleLt(BranchKeys(s)[i], BranchKeys(s)[j])
  {
    NumberOrders();
    SortedLists(s.branches.Keys, TripleLe);
    hide Sorted;
    var keys := BranchKeys(s);
    forall i, j | 0 <= i < j < |keys| ensures TripleLt(keys[i], keys[j]) {
      assert TripleLe(keys[i], keys[j]) && keys[i] != keys[j];
    }
  }

  lemma FunctionsInOrder(s: Source)
    ensures forall i, j :: 0 <= i < j < |FunctionNames(s)| ==> NamedBefore(s, FunctionNames(s)[i], FunctionNames(s)[j])
  {
    DeclaredOrder(s.functions);
    SortedLists(s.functions.Keys, (a: string, b: string) => DeclaredLe(s.functions, a, b));
    hide Sorted, TextLe, InOrder;
    var names := FunctionNames(s);
    forall i, j | 0 <= i < j < |names| ensures NamedBefore(s, names[i], names[j]) {
      assert names[i] in names && names[j] in names;
      assert DeclaredLe(s.functions, names[i], names[j]);
      TextsInOrder(names[i], names[j]);
    }
  }

  lemma AllInOrder(s: Source)
    ensures ListedInOrder(s)
  {
    hide LineNumbers, FunctionNames, BranchKeys, NamedBefore;
    LinesInOrder(s);
    BranchesInOrder(s);
    FunctionsInOrder(s);
  }

  /** The files come in the order of their paths, and in each the functions by declaration, the lines and the branches by number. */
  lemma ReportIsOrdered(u: Union)
    ensures forall i, j :: 0 <= i < j < |Paths(u)| ==> InOrder(Paths(u)[i], Paths(u)[j])
    ensures forall path :: path in u ==> ListedInOrder(u[path])
  {
    TextOrder();
    SortedLists(u.Keys, TextLe);
    hide Sorted, TextLe, InOrder, ListedInOrder;
    var paths := Paths(u);
    forall i, j | 0 <= i < j < |paths| ensures InOrder(paths[i], paths[j]) { TextsInOrder(paths[i], paths[j]); }
    forall path | path in u ensures ListedInOrder(u[path]) {
      AllInOrder(u[path]);
    }
  }

  // ---------------------------------------------------------------- the totals of the report

  /** The record is one of those a total counts. */
  predicate CountedBy(kind: string, o: OutLine) {
    o.Kept? &&
    match o.record
    case Function(_, _) => kind == "FNF"
    case FunctionCount(hits, _) => kind == "FNH" && hits > 0
    case BranchCount(_, taken) => kind == "BRF" || (kind == "BRH" && taken.Some? && taken.value != 0)
    case LineCount(_, hits) => kind == "LF" || (kind == "LH" && hits > 0)
    case _ => false
  }

  /** How many records of a list a total counts. */
  function Tally(kind: string, out: seq<OutLine>): nat {
    if out == [] then 0 else (if CountedBy(kind, out[0]) then 1 else 0) + Tally(kind, out[1..])
  }

  lemma {:induction false} TallyConcat(kind: string, a: seq<OutLine>, b: seq<OutLine>)
    ensures Tally(kind, a + b) == Tally(kind, a) + Tally(kind, b)
    decreases |a|
  {
    if a == [] {
      assert a + b == b;
    } else {
      assert (a + b)[1..] == a[1..] + b;
      TallyConcat(kind, a[1..], b);
    }
  }

  function HitAmong(s: Source, names: seq<string>): set<string> { set name | name in names && GetOr(s.functionHits, name, 0) > 0 }

  function CoveredAmong(s: Source, lines: seq<int>): set<int> { set line | line in lines && GetOr(s.lines, line, 0) > 0 }

  function TakenAmong(s: Source, branches: seq<Branch>): set<Branch> {
    set b | b in branches && GetOr(s.branches, b, None).Some? && GetOr(s.branches, b, None).value != 0
  }

  ghost predicate NoRepeats<T(!new)>(list: seq<T>) { forall i, j :: 0 <= i < j < |list| ==> list[i] != list[j] }

  lemma FirstOut<T(!new)>(list: seq<T>)
    requires list != [] && NoRepeats(list)
    ensures list[0] !in list[1..] && NoRepeats(list[1..]) && forall x :: x in list <==> x == list[0] || x in list[1..]
  {
    assert list == [list[0]] + list[1..];
  }

  lemma HitAmongNext(s: Source, names: seq<string>)
    requires names != [] && NoRepeats(names)
    ensures |HitAmong(s, names)| == |HitAmong(s, names[1..])| + if GetOr(s.functionHits, names[0], 0) > 0 then 1 else 0
  {
    FirstOut(names);
    assert HitAmong(s, names) == HitAmong(s, names[1..]) + if GetOr(s.functionHits, names[0], 0) > 0 then {names[0]} else {};
  }

  lemma CoveredAmongNext(s: Source, lines: seq<int>)
    requires lines != [] && NoRepeats(lines)
    ensures |CoveredAmong(s, lines)| == |CoveredAmong(s, lines[1..])| + if GetOr(s.lines, lines[0], 0) > 0 then 1 else 0
  {
    FirstOut(lines);
    assert CoveredAmong(s, lines) == CoveredAmong(s, lines[1..]) + if GetOr(s.lines, lines[0], 0) > 0 then {lines[0]} else {};
  }

  lemma TakenAmongNext(s: Source, branches: seq<Branch>)
    requires branches != [] && NoRepeats(branches)
    ensures var taken := GetOr(s.branches, branches[0], None);
      |TakenAmong(s, branches)| == |TakenAmong(s, branches[1..])| + if taken.Some? && taken.value != 0 then 1 else 0
  {
    FirstOut(branches);
    var taken := GetOr(s.branches, branches[0], None);
    assert TakenAmong(s, branches) == TakenAmong(s, branches[1..]) + if taken.Some? && taken.value != 0 then {branches[0]} else {};
  }

  lemma {:induction false} FunctionTally(kind: string, s: Source, names: seq<string>)
    ensures Tally(kind, FunctionLines(s, names)) == if kind == "FNF" then |names| else 0
  {
    if names != [] { FunctionTally(kind, s, names[1..]); }
  }

  lemma {:induction false} HitTally(kind: string, s: Source, names: seq<string>)
    requires NoRepeats(names)
    ensures Tally(kind, HitLines(s, names)) == if kind == "FNH" then |HitAmong(s, names)| else 0
  {
    if names == [] {
      assert HitAmong(s, names) == {};
    } else {
      FirstOut(names);
      HitTally(kind, s, names[1..]);
      HitAmongNext(s, names);
      hide HitAmong;
    }
  }

  lemma {:induction false} LineTally(kind: string, s: Source, lines: seq<int>)
    requires NoRepeats(lines)
    ensures Tally(kind, CountLines(s, lines)) == if kind == "LF" then |lines| else if kind == "LH" then |CoveredAmong(s, lines)| else 0
  {
    if lines == [] {
      assert CoveredAmong(s, lines) == {};
    } else {
      FirstOut(lines);
      LineTally(kind, s, lines[1..]);
      CoveredAmongNext(s, lines);
      hide CoveredAmong;
    }
  }

  lemma {:induction false} BranchTally(kind: string, s: Source, branches: seq<Branch>)
    requires NoRepeats(branches)
    ensures Tally(kind, BranchLines(s, branches)) == if kind == "BRF" then |branches| else if kind == "BRH" then |TakenAmong(s, branches)| else 0
  {
    if branches == [] {
      assert TakenAmong(s, branches) == {};
    } else {
      FirstOut(branches);
      BranchTally(kind, s, branches[1..]);
      TakenAmongNext(s, branches);
      hide TakenAmong;
    }
  }

  lemma {:induction false} NoTally(kind: string, out: seq<OutLine>)
    requires forall i :: 0 <= i < |out| ==> !CountedBy(kind, out[i])
    ensures Tally(kind, out) == 0
  {
    if out != [] { NoTally(kind, out[1..]); }
  }

  /** What a file's block counts of each kind. */
  function Expected(kind: string, s: Source): nat {
    if kind == "FNF" then |s.functions| else if kind == "FNH" then |HitFunctions(s)|
    else if kind == "BRF" then |s.branches| else if kind == "BRH" then |TakenBranches(s)|
    else if kind == "LF" then |s.lines| else if kind == "LH" then |CoveredLines(s)| else 0
  }

  lemma NamesListed(s: Source)
    ensures NoRepeats(FunctionNames(s)) && |FunctionNames(s)| == |s.functions| && HitAmong(s, FunctionNames(s)) == HitFunctions(s)
  {
    DeclaredOrder(s.functions);
    SortedLists(s.functions.Keys, (a: string, b: string) => DeclaredLe(s.functions, a, b));
    hide Sorted, DeclaredLe;
    assert |s.functions| == |s.functions.Keys|;
  }

  lemma FunctionPartTally(kind: string, s: Source)
    ensures Tally(kind, FunctionPart(s)) == if kind == "FNF" || kind == "FNH" then Expected(kind, s) else 0
  {
    NamesListed(s);
    var names := FunctionNames(s);
    var a, b, c := FunctionLines(s, names), HitLines(s, names), [Total("FNF", |s.functions|), Total("FNH", |HitFunctions(s)|)];
    FunctionTally(kind, s, names);
    HitTally(kind, s, names);
    NoTally(kind, c);
    hide FunctionNames, HitAmong, HitFunctions, Tally, FunctionLines, HitLines;
    TallyConcat(kind, a, b);
    TallyConcat(kind, a + b, c);
  }

  lemma LinePartTally(kind: string, s: Source)
    ensures Tally(kind, CountLines(s, LineNumbers(s))) == if kind == "LF" || kind == "LH" then Expected(kind, s) else 0
  {
    var lines := LineNumbers(s);
    NumberOrders();
    SortedLists(s.lines.Keys, IntLe);
    hide LineNumbers;
    LineTally(kind, s, lines);
    assert CoveredAmong(s, lines) == CoveredLines(s);
    assert |s.lines| == |s.lines.Keys|;
  }

  lemma BranchesListed(s: Source)
    ensures NoRepeats(BranchKeys(s)) && |BranchKeys(s)| == |s.branches| && TakenAmong(s, BranchKeys(s)) == TakenBranches(s)
  {
    NumberOrders();
    SortedLists(s.branches.Keys, TripleLe);
    hide Sorted, TripleLe;
    assert |s.branches| == |s.branches.Keys|;
  }

  lemma BranchPartTally(kind: string, s: Source)
    ensures Tally(kind, BranchPart(s)) == if kind == "BRF" || kind == "BRH" then Expected(kind, s) else 0
  {
    if s.branches == map[] {
      assert TakenBranches(s) == {};
    } else {
      BranchesListed(s);
      var branches := BranchKeys(s);
      var a, b := BranchLines(s, branches), [Total("BRF", |s.branches|), Total("BRH", |TakenBranches(s)|)];
      assert BranchPart(s) == a + b;
      BranchTally(kind, s, branches);
      NoTally(kind, b);
      hide BranchKeys, TakenAmong, TakenBranches, Tally, BranchLines, BranchPart;
      TallyConcat(kind, a, b);
    }
  }

  lemma BlockTally(kind: string, path: string, s: Source)
    ensures Tally(kind, Block(path, s)) == Expected(kind, s)
  {
    FunctionPartTally(kind, s);
    LinePartTally(kind, s);
    BranchPartTally(kind, s);
    hide FunctionPart, LineNumbers, CountLines, BranchPart, Expected;
    var a, b, c, d := FunctionPart(s), CountLines(s, LineNumbers(s)), BranchPart(s), [Total("LF", |s.lines|), Total("LH", |CoveredLines(s)|)];
    TallyConcat(kind, a, b);
    TallyConcat(kind, a + b, c);
    TallyConcat(kind, a + b + c, d);
    NoTally(kind, d);
    var first, last := [Kept(SourceFile(path))], [Kept(EndOfRecord)];
    TallyConcat(kind, first, CountsOf(s));
    TallyConcat(kind, first + CountsOf(s), last);
    NoTally(kind, first);
    NoTally(kind, last);
    NoOtherTally(kind, s);
  }

  lemma NoOtherTally(kind: string, s: Source)
    ensures kind !in {"FNF", "FNH", "BRF", "BRH", "LF", "LH"} ==> Expected(kind, s) == 0
  {
  }

  ghost predicate TotalsOf(out: seq<OutLine>, s: Source) {
    forall i :: 0 <= i < |out| && out[i].Total? ==> out[i].kind in {"FNF", "FNH", "BRF", "BRH", "LF", "LH"} && out[i].count == Expected(out[i].kind, s)
  }

  lemma {:induction false} NoTotals(s: Source, names: seq<string>, lines: seq<int>, branches: seq<Branch>)
    ensures forall i :: 0 <= i < |FunctionLines(s, names)| ==> FunctionLines(s, names)[i].Kept?
    ensures forall i :: 0 <= i < |HitLines(s, names)| ==> HitLines(s, names)[i].Kept?
    ensures forall i :: 0 <= i < |CountLines(s, lines)| ==> CountLines(s, lines)[i].Kept?
    ensures forall i :: 0 <= i < |BranchLines(s, branches)| ==> BranchLines(s, branches)[i].Kept?
    decreases |names| + |lines| + |branches|
  {
    if names != [] { NoTotals(s, names[1..], lines, branches); }
    if lines != [] { NoTotals(s, names, lines[1..], branches); }
    if branches != [] { NoTotals(s, names, lines, branches[1..]); }
  }

  lemma TotalsConcat(a: seq<OutLine>, b: seq<OutLine>, s: Source)
    requires TotalsOf(a, s) && TotalsOf(b, s)
    ensures TotalsOf(a + b, s)
  {
    hide Expected;
  }

  lemma BlockTotals(path: string, s: Source)
    ensures TotalsOf(Block(path, s), s)
  {
    NoTotals(s, FunctionNames(s), LineNumbers(s), BranchKeys(s));
    hide FunctionNames, LineNumbers, BranchKeys, FunctionLines, HitLines, CountLines, BranchLines;
    TotalsConcat(FunctionLines(s, FunctionNames(s)), HitLines(s, FunctionNames(s)), s);
    TotalsConcat(FunctionLines(s, FunctionNames(s)) + HitLines(s, FunctionNames(s)), [Total("FNF", |s.functions|), Total("FNH", |HitFunctions(s)|)], s);
    if s.branches != map[] { TotalsConcat(BranchLines(s, BranchKeys(s)), [Total("BRF", |s.branches|), Total("BRH", |TakenBranches(s)|)], s); }
    TotalsConcat(FunctionPart(s), CountLines(s, LineNumbers(s)), s);
    TotalsConcat(FunctionPart(s) + CountLines(s, LineNumbers(s)), BranchPart(s), s);
    TotalsConcat(FunctionPart(s) + CountLines(s, LineNumbers(s)) + BranchPart(s), [Total("LF", |s.lines|), Total("LH", |CoveredLines(s)|)], s);
    TotalsConcat([Kept(SourceFile(path))], CountsOf(s), s);
    TotalsConcat([Kept(SourceFile(path))] + CountsOf(s), [Kept(EndOfRecord)], s);
  }

  /**
    Each total a file's block writes is the number of the block's own records that it counts: the
    functions and those hit, the lines and those hit, the branches and those taken.
   */
  lemma TotalsAreRight(path: string, s: Source)
    ensures forall i :: 0 <= i < |Block(path, s)| && Block(path, s)[i].Total? ==>
      Block(path, s)[i].kind in {"FNF", "FNH", "BRF", "BRH", "LF", "LH"} && Block(path, s)[i].count == Tally(Block(path, s)[i].kind, Block(path, s))
  {
    BlockTotals(path, s);
    var out := Block(path, s);
    hide Expected, Tally;
    forall i | 0 <= i < |out| && out[i].Total? ensures out[i].count == Tally(out[i].kind, out) { BlockTally(out[i].kind, path, s); }
  }
}
