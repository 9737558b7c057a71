/** Reading the written union into an empty one gives the union back. */
module LcovRoundTrip {
  import opened Lcov
  import opened LcovRender
  import opened Options
  import opened PyText
  import opened Sorting
  import opened Splitting

  /** What a report can say of a source file: hits only of declared functions. */
  function Reported(s: Source): Source {
    s.(functionHits := map name | name in s.functions :: GetOr(s.functionHits, name, 0))
  }

  function ReportedUnion(u: Union): Union { map path | path in u :: Reported(u[path]) }

  predicate CleanSource(s: Source) {
    forall name :: name in s.functions ==> Clean(name)
  }

  predicate CleanUnion(u: Union) {
    forall path :: path in u ==> Clean(path) && CleanSource(u[path])
  }

  // ---------------------------------------------------------------- folding one source file

  function FoldLines(s: Source, out: seq<OutLine>): Source
    decreases |out|
  {
    if out == [] then s else FoldLines(Fold(s, Meaning(out[0])), out[1..])
  }

  lemma {:induction false} FoldLinesConcat(s: Source, a: seq<OutLine>, b: seq<OutLine>)
    ensures FoldLines(s, a + b) == FoldLines(FoldLines(s, a), b)
    decreases |a|
  {
    if a == [] {
      assert a + b == b;
    } else {
      assert (a + b)[1..] == a[1..] + b;
      FoldLinesConcat(Fold(s, Meaning(a[0])), a[1..], b);
    }
  }

  ghost predicate NoRepeats<T(!new)>(list: seq<T>) {
    forall i, j :: 0 <= i < j < |list| ==> list[i] != list[j]
  }

  ghost function Restrict<K, V>(list: seq<K>, m: map<K, V>): map<K, V> {
    map k | k in list && k in m :: m[k]
  }

  /** Every element is a key of the one map, and not yet of the other. */
  ghost predicate Pending<K(!new), V>(list: seq<K>, from: map<K, V>, into: map<K, V>) {
    NoRepeats(list) && forall i :: 0 <= i < |list| ==> list[i] in from && list[i] !in into
  }

  lemma RestFollows<K(!new), V>(list: seq<K>, from: map<K, V>, into: map<K, V>)
    requires list != [] && Pending(list, from, into)
    ensures list[0] in from && list[0] !in list[1..] && Pending(list[1..], from, into[list[0] := from[list[0]]])
  {
  }

  lemma RestrictFirst<K(!new), V>(list: seq<K>, from: map<K, V>, into: map<K, V>)
    requires list != [] && Pending(list, from, into)
    ensures list[0] in from && Pending(list[1..], from, into[list[0] := from[list[0]]])
    ensures into[list[0] := from[list[0]]] + Restrict(list[1..], from) == into + Restrict(list, from)
  {
    RestFollows(list, from, into);
    hide Pending;
    var first, rest := list[0], list[1..];
    assert list == [first] + rest;
    var a, b := into[first := from[first]] + Restrict(rest, from), into + Restrict(list, from);
    forall k ensures (k in a <==> k in b) && (k in a && k in b ==> a[k] == b[k]) {
      if k == first { assert k in list && k !in rest; } else { assert k in list <==> k in rest; }
    }
  }

  lemma RestrictNone<K, V>(from: map<K, V>, into: map<K, V>)
    ensures into + Restrict([], from) == into
  {
  }

  lemma RestrictAll<K(!new), V>(list: seq<K>, m: map<K, V>)
    requires Lists(m.Keys, list)
    ensures map[] + Restrict(list, m) == m && Pending(list, m, map[])
  {
  }

  lemma {:induction false} FoldFunctions(t: Source, s: Source, names: seq<string>)
    requires Pending(names, s.functions, t.functions)
    ensures FoldLines(t, FunctionLines(s, names)) == t.(functions := t.functions + Restrict(names, s.functions))
    decreases |names|
  {
    if names == [] {
      RestrictNone(s.functions, t.functions);
    } else {
      RestrictFirst(names, s.functions, t.functions);
      hide Restrict, Pending;
      var t' := t.(functions := t.functions[names[0] := s.functions[names[0]]]);
      assert FunctionLines(s, names)[1..] == FunctionLines(s, names[1..]);
      FoldFunctions(t', s, names[1..]);
    }
  }

  lemma {:induction false} FoldHits(t: Source, s: Source, names: seq<string>)
    requires Pending(names, Reported(s).functionHits, t.functionHits)
    ensures FoldLines(t, HitLines(s, names)) == t.(functionHits := t.functionHits + Restrict(names, Reported(s).functionHits))
    decreases |names|
  {
    if names == [] {
      RestrictNone(Reported(s).functionHits, t.functionHits);
    } else {
      RestrictFirst(names, Reported(s).functionHits, t.functionHits);
      hide Restrict, Pending;
      var t' := t.(functionHits := t.functionHits[names[0] := GetOr(s.functionHits, names[0], 0)]);
      assert HitLines(s, names)[1..] == HitLines(s, names[1..]);
      FoldHits(t', s, names[1..]);
    }
  }

  lemma {:induction false} FoldCounts(t: Source, s: Source, lines: seq<int>)
    requires Pending(lines, s.lines, t.lines)
    ensures FoldLines(t, CountLines(s, lines)) == t.(lines := t.lines + Restrict(lines, s.lines))
    decreases |lines|
  {
    if lines == [] {
      RestrictNone(s.lines, t.lines);
    } else {
      RestrictFirst(lines, s.lines, t.lines);
      hide Restrict, Pending;
      var t' := t.(lines := t.lines[lines[0] := s.lines[lines[0]]]);
      assert CountLines(s, lines)[1..] == CountLines(s, lines[1..]);
      FoldCounts(t', s, lines[1..]);
    }
  }

  lemma FoldBranch(t: Source, b: Branch, taken: Option<int>)
    requires b !in t.branches
    ensures Fold(t, BranchCount(b, taken)) == t.(branches := t.branches[b := taken])
  {
  }

  lemma {:induction false} FoldBranches(t: Source, s: Source, branches: seq<Branch>)
    requires Pending(branches, s.branches, t.branches)
    ensures FoldLines(t, BranchLines(s, branches)) == t.(branches := t.branches + Restrict(branches, s.branches))
    decreases |branches|
  {
    if branches == [] {
      RestrictNone(s.branches, t.branches);
    } else {
      assert branches[0] !in t.branches;
      FoldBranch(t, branches[0], s.branches[branches[0]]);
      RestrictFirst(branches, s.branches, t.branches);
      hide Restrict, Pending, Fold;
      var t' := t.(branches := t.branches[branches[0] := s.branches[branches[0]]]);
      assert BranchLines(s, branches)[1..] == BranchLines(s, branches[1..]);
      FoldBranches(t', s, branches[1..]);
    }
  }

  predicate AllTotals(out: seq<OutLine>) { forall i :: 0 <= i < |out| ==> out[i].Total? }

  lemma {:induction false} FoldTotals(s: Source, out: seq<OutLine>)
    requires AllTotals(out)
    ensures FoldLines(s, out) == s
    decreases |out|
  {
    if out != [] { FoldTotals(s, out[1..]); }
  }

  lemma ListedNames(s: Source)
    ensures Lists(s.functions.Keys, FunctionNames(s)) && Lists(s.lines.Keys, LineNumbers(s)) && Lists(s.branches.Keys, BranchKeys(s))
  {
    DeclaredOrder(s.functions);
    NumberOrders();
    SortedLists(s.functions.Keys, (a: string, b: string) => DeclaredLe(s.functions, a, b));
    SortedLists(s.lines.Keys, IntLe);
    SortedLists(s.branches.Keys, TripleLe);
  }

  lemma FunctionsFoldBack(s: Source)
    ensures FoldLines(NEW_SOURCE, FunctionPart(s)) == NEW_SOURCE.(functions := s.functions, functionHits := Reported(s).functionHits)
  {
    hide FunctionNames, LineNumbers, BranchKeys, Restrict, HitFunctions, FunctionLines, HitLines, FoldLines, Pending, Lists;
    ListedNames(s);
    var names, hits := FunctionNames(s), Reported(s).functionHits;
    assert hits.Keys == s.functions.Keys;
    hide Reported;
    RestrictAll(names, s.functions);
    RestrictAll(names, hits);
    var t := NEW_SOURCE.(functions := s.functions);
    var a, b, c := FunctionLines(s, names), HitLines(s, names), [Total("FNF", |s.functions|), Total("FNH", |HitFunctions(s)|)];
    FoldFunctions(NEW_SOURCE, s, names);
    FoldHits(t, s, names);
    FoldTotals(t.(functionHits := hits), c);
    FoldLinesConcat(NEW_SOURCE, a, b);
    FoldLinesConcat(NEW_SOURCE, a + b, c);
  }

  lemma LinesFoldBack(t: Source, s: Source)
    requires t.lines == map[]
    ensures FoldLines(t, CountLines(s, LineNumbers(s))) == t.(lines := s.lines)
  {
    ListedNames(s);
    RestrictAll(LineNumbers(s), s.lines);
    FoldCounts(t, s, LineNumbers(s));
  }

  lemma NothingFolds(t: Source)
    ensures FoldLines(t, []) == t
  {
  }

  lemma BranchesFoldBack(t: Source, s: Source)
    requires t.branches == map[]
    ensures FoldLines(t, BranchPart(s)) == t.(branches := s.branches)
  {
    hide FunctionNames, LineNumbers, BranchKeys, Restrict, TakenBranches, BranchLines, FoldLines, Pending, Lists;
    if s.branches == map[] {
      NothingFolds(t);
    } else {
      ListedNames(s);
      var keys, totals := BranchKeys(s), [Total("BRF", |s.branches|), Total("BRH", |TakenBranches(s)|)];
      RestrictAll(keys, s.branches);
      FoldBranches(t, s, keys);
      FoldTotals(t.(branches := s.branches), totals);
      FoldLinesConcat(t, BranchLines(s, keys), totals);
    }
  }

  /** The counts of a source file, folded into an empty one. */
  lemma CountsFoldBack(s: Source)
    ensures FoldLines(NEW_SOURCE, CountsOf(s)) == Reported(s)
  {
    var a, b, c := FunctionPart(s), CountLines(s, LineNumbers(s)), BranchPart(s);
    var d := [Total("LF", |s.lines|), Total("LH", |CoveredLines(s)|)];
    var t := NEW_SOURCE.(functions := s.functions, functionHits := Reported(s).functionHits);
    FunctionsFoldBack(s);
    LinesFoldBack(t, s);
    BranchesFoldBack(t.(lines := s.lines), s);
    FoldTotals(Reported(s), d);
    hide FoldLines, CountLines, FunctionPart, BranchPart, LineNumbers;
    FoldLinesConcat(NEW_SOURCE, a, b);
    FoldLinesConcat(NEW_SOURCE, a + b, c);
    FoldLinesConcat(NEW_SOURCE, a + b + c, d);
  }

  // ---------------------------------------------------------------- reading a block

  predicate Counting(o: OutLine) { o.Total? || (o.Kept? && IsCount(o.record)) }

  lemma {:induction false} TakeCounts(u: Union, path: string, out: seq<OutLine>)
    requires path in u && forall i :: 0 <= i < |out| ==> Counting(out[i])
    ensures TakeAll(Reading(u, Some(path)), Meanings(out)) == Reading(u[path := FoldLines(u[path], out)], Some(path))
    decreases |out|
  {
    if out == [] {
      assert u[path := u[path]] == u;
    } else {
      var u' := u[path := Fold(u[path], Meaning(out[0]))];
      if out[0].Total? { assert u' == u; }
      assert Take(Reading(u, Some(path)), Meaning(out[0])) == Reading(u', Some(path));
      TakeCounts(u', path, out[1..]);
      assert Meanings(out)[1..] == Meanings(out[1..]);
      assert u'[path := FoldLines(u'[path], out[1..])] == u[path := FoldLines(u[path], out)];
    }
  }

  lemma {:induction false} MeaningsConcat(a: seq<OutLine>, b: seq<OutLine>)
    ensures Meanings(a + b) == Meanings(a) + Meanings(b)
    decreases |a|
  {
    if a == [] {
      assert a + b == b;
    } else {
      assert (a + b)[1..] == a[1..] + b;
      MeaningsConcat(a[1..], b);
      var x, y, z := [Meaning(a[0])], Meanings(a[1..]), Meanings(b);
      assert Meanings(a + b) == x + (y + z);
      assert x + (y + z) == (x + y) + z;
    }
  }

  /** What a line of a source file's counts is, and that it is clean. */
  ghost predicate CountingClean(out: seq<OutLine>) {
    forall i :: 0 <= i < |out| ==> Counting(out[i]) && CleanLine(out[i])
  }

  lemma {:induction false} FunctionLinesCount(s: Source, names: seq<string>)
    requires forall n :: n in names ==> Clean(n)
    ensures CountingClean(FunctionLines(s, names)) && CountingClean(HitLines(s, names))
  {
    if names != [] {
      FunctionLinesCount(s, names[1..]);
    }
  }

  lemma {:induction false} CountLinesCount(s: Source, lines: seq<int>)
    ensures CountingClean(CountLines(s, lines))
  {
    if lines != [] { CountLinesCount(s, lines[1..]); }
  }

  lemma {:induction false} BranchLinesCount(s: Source, branches: seq<Branch>)
    ensures CountingClean(BranchLines(s, branches))
  {
    if branches != [] { BranchLinesCount(s, branches[1..]); }
  }

  lemma ConcatCounts(a: seq<OutLine>, b: seq<OutLine>)
    requires CountingClean(a) && CountingClean(b)
    ensures CountingClean(a + b)
  {
  }

  lemma PairCounts(x: OutLine, y: OutLine)
    requires Counting(x) && CleanLine(x) && Counting(y) && CleanLine(y)
    ensures CountingClean([x, y])
  {
  }

  lemma CountsCount(s: Source)
    requires CleanSource(s)
    ensures CountingClean(CountsOf(s))
  {
    var names, lines, keys := FunctionNames(s), LineNumbers(s), BranchKeys(s);
    ListedNames(s);
    FunctionLinesCount(s, names);
    CountLinesCount(s, lines);
    BranchLinesCount(s, keys);
    var totals := [Total("FNF", |s.functions|), Total("FNH", |HitFunctions(s)|)];
    var branchTotals := [Total("BRF", |s.branches|), Total("BRH", |TakenBranches(s)|)];
    var lineTotals := [Total("LF", |s.lines|), Total("LH", |CoveredLines(s)|)];
    PairCounts(totals[0], totals[1]);
    PairCounts(branchTotals[0], branchTotals[1]);
    PairCounts(lineTotals[0], lineTotals[1]);
    var a, b, c, d := FunctionLines(s, names), HitLines(s, names), CountLines(s, lines), BranchLines(s, keys);
    hide FunctionNames, LineNumbers, BranchKeys, Lists, HitFunctions, TakenBranches, CoveredLines, Counting, CleanLine;
    hide FunctionLines, HitLines, CountLines, BranchLines;
    ConcatCounts(a, b);
    ConcatCounts(a + b, totals);
    ConcatCounts(d, branchTotals);
    ConcatCounts(a + b + totals, c);
    assert CountingClean(BranchPart(s));
    ConcatCounts(a + b + totals + c, BranchPart(s));
    assert FunctionPart(s) == a + b + totals;
    ConcatCounts(FunctionPart(s) + c + BranchPart(s), lineTotals);
  }

  ghost predicate CleanOut(out: seq<OutLine>) {
    forall i :: 0 <= i < |out| ==> CleanLine(out[i])
  }

  lemma CleanConcat(a: seq<OutLine>, b: seq<OutLine>)
    requires CleanOut(a) && CleanOut(b)
    ensures CleanOut(a + b)
  {
  }

  lemma BlockIsClean(path: string, s: Source)
    requires Clean(path) && CleanSource(s)
    ensures CleanOut(Block(path, s))
  {
    CountsCount(s);
    hide CountsOf, Counting, Clean, CleanSource;
    CleanConcat([Kept(SourceFile(path))], CountsOf(s));
    CleanConcat([Kept(SourceFile(path))] + CountsOf(s), [Kept(EndOfRecord)]);
  }

  lemma BlockReadsBack(u: Union, path: string, s: Source)
    requires path !in u && Clean(path) && CleanSource(s)
    ensures TakeAll(Reading(u, None), Meanings(Block(path, s))) == Reading(u[path := Reported(s)], None)
  {
    CountsCount(s);
    CountsFoldBack(s);
    hide CountsOf, FoldLines, Reported, CleanSource, Clean, CleanLine, Counting, Meanings, TakeAll;
    var open := u[path := NEW_SOURCE];
    var first, counts, last := [Kept(SourceFile(path))], CountsOf(s), [Kept(EndOfRecord)];
    MeaningsConcat(first + counts, last);
    MeaningsConcat(first, counts);
    TakeAllConcat(Reading(u, None), Meanings(first + counts), Meanings(last));
    TakeAllConcat(Reading(u, None), Meanings(first), Meanings(counts));
    TakeOne(Reading(u, None), first[0]);
    TakeCounts(open, path, counts);
    var filled := open[path := Reported(s)];
    TakeOne(Reading(filled, Some(path)), last[0]);
    assert filled == u[path := Reported(s)];
  }

  lemma TakeOne(s: Reading, o: OutLine)
    ensures TakeAll(s, Meanings([o])) == Take(s, Meaning(o))
  {
    assert Meanings([o]) == [Meaning(o)];
    assert [Meaning(o)][1..] == [];
  }

  lemma {:induction false} BlocksReadBack(before: Union, u: Union, paths: seq<string>)
    requires CleanUnion(u) && Pending(paths, ReportedUnion(u), before)
    ensures TakeAll(Reading(before, None), Meanings(Blocks(u, paths))) == Reading(before + Restrict(paths, ReportedUnion(u)), None)
    ensures CleanOut(Blocks(u, paths))
    decreases |paths|
  {
    if paths == [] {
      RestrictNone(ReportedUnion(u), before);
    } else {
      var path := paths[0];
      var first, rest := Block(path, u[path]), Blocks(u, paths[1..]);
      var next := before[path := Reported(u[path])];
      RestrictFirst(paths, ReportedUnion(u), before);
      BlockReadsBack(before, path, u[path]);
      BlockIsClean(path, u[path]);
      hide Block, Take, TakeAll, Restrict, CleanLine, CleanOut, Meanings, Reported;
      BlocksReadBack(next, u, paths[1..]);
      hide CleanUnion, Pending;
      CleanConcat(first, rest);
      MeaningsConcat(first, rest);
      TakeAllConcat(Reading(before, None), Meanings(first), Meanings(rest));
    }
  }

  /**
    Round trip: reading the written union into an empty one gives back the same files with the
    same lines, branches, functions and hits of declared functions, whatever commas the
    function names contain.
   */
  lemma RenderRoundTrip(u: Union)
    requires CleanUnion(u)
    ensures ParseInto(map[], Render(u)) == Reading(ReportedUnion(u), None)
  {
    hide Blocks, Paths, CleanUnion, Restrict, Take, TakeAll, CleanLine, Meanings, ShowLines, Pending;
    var paths, out := Paths(u), Report(u);
    assert ReportedUnion(u).Keys == u.Keys;
    hide ReportedUnion;
    RestrictAll(paths, ReportedUnion(u));
    BlocksReadBack(map[], u, paths);
    HeaderIsIgnored();
    CleanConcat([Header], Blocks(u, paths));
    ReportRoundTrip(out);
    MeaningsConcat([Header], Blocks(u, paths));
    TakeAllConcat(Reading(map[], None), Meanings([Header]), Meanings(Blocks(u, paths)));
  }

  lemma HeaderIsIgnored()
    ensures TakeAll(Reading(map[], None), Meanings([Header])) == Reading(map[], None) && CleanOut([Header])
  {
    TakeOne(Reading(map[], None), Header);
  }

  // ---------------------------------------------------------------- every union read from reports is clean

  lemma {:induction false} PartitionBody(s: string)
    requires NoBreaks(s) && EndsSolid(s)
    ensures Clean(Partition(s).1)
    decreases |s|
  {
    if s != "" {
      assert EndsSolid(s[1..]);
      if s[0] != ':' { PartitionBody(s[1..]); }
    }
  }

  /** What follows the first comma. */
  lemma {:induction false} TailIsClean(s: string)
    requires Clean(s) && |Split(',', s)| >= 2
    ensures Clean(Join(',', Split(',', s)[1..]))
    decreases |s|
  {
    assert EndsSolid(s[1..]);
    if s[0] == ',' {
      JoinOfSplit(',', s[1..]);
      assert ([""] + Split(',', s[1..]))[1..] == Split(',', s[1..]);
    } else {
      var rest := Split(',', s[1..]);
      assert ([[s[0]] + rest[0]] + rest[1..])[1..] == rest[1..];
      TailIsClean(s[1..]);
    }
  }

  predicate CleanRecord(r: Record) {
    (r.SourceFile? ==> Clean(r.path)) && (r.Function? ==> Clean(r.name))
  }

  lemma ReadRecordIsClean(raw: string)
    requires NoBreaks(raw)
    ensures CleanRecord(ReadRecord(raw))
  {
    StripSolid(raw);
    var line := Strip(raw);
    PartitionBody(line);
    var body := Partition(line).1;
    if |Split(',', body)| >= 2 { TailIsClean(body); }
  }

  lemma {:induction false} ReadRecordsAreClean(lines: seq<string>)
    requires forall i :: 0 <= i < |lines| ==> NoBreaks(lines[i])
    ensures forall i :: 0 <= i < |ReadRecords(lines)| ==> CleanRecord(ReadRecords(lines)[i])
  {
    if lines != [] {
      ReadRecordIsClean(lines[0]);
      ReadRecordsAreClean(lines[1..]);
    }
  }

  lemma {:induction false} TakeAllKeepsClean(s: Reading, records: seq<Record>)
    requires s.Reading? ==> CleanUnion(s.union)
    requires forall i :: 0 <= i < |records| ==> CleanRecord(records[i])
    ensures TakeAll(s, records).Reading? ==> CleanUnion(TakeAll(s, records).union)
    decreases |records|
  {
    if records != [] {
      TakeAllKeepsClean(Take(s, records[0]), records[1..]);
    }
  }

  /** A report read into a clean union leaves it clean, so every union built from reports is one the round trip covers. */
  lemma ParsedUnionIsClean(u: Union, text: string)
    requires CleanUnion(u) && ParseInto(u, text).Reading?
    ensures CleanUnion(ParseInto(u, text).union)
    ensures ParseInto(map[], Render(ParseInto(u, text).union)) == Reading(ReportedUnion(ParseInto(u, text).union), None)
  {
    LinesHaveNoBreaks(text);
    ReadRecordsAreClean(Lines(text));
    TakeAllKeepsClean(Reading(u, None), ReadRecords(Lines(text)));
    RenderRoundTrip(ParseInto(u, text).union);
  }
}
