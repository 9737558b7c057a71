/** The reports of several shards folded into one union: what does not depend on their order. */
module LcovMerge {
  import opened Lcov
  import opened LcovRender
  import opened LcovRoundTrip
  import opened Options
  import opened Permutations

  // ---------------------------------------------------------------- adding two unions

  function PlusCounts<K>(a: map<K, int>, b: map<K, int>): map<K, int> {
    map k | k in a.Keys + b.Keys :: GetOr(a, k, 0) + GetOr(b, k, 0)
  }

  function Value(taken: Option<int>): int { if taken.Some? then taken.value else 0 }

  function PlusTaken(a: Option<int>, b: Option<int>): Option<int> {
    if a.None? && b.None? then None else Some(Value(a) + Value(b))
  }

  function PlusBranches<K>(a: map<K, Option<int>>, b: map<K, Option<int>>): map<K, Option<int>> {
    map k | k in a.Keys + b.Keys :: PlusTaken(GetOr(a, k, None), GetOr(b, k, None))
  }

  /** The line a function is declared at is the first report's. */
  function PlusSource(s: Source, t: Source): Source {
    Source(PlusCounts(s.lines, t.lines), t.functions + s.functions,
           PlusCounts(s.functionHits, t.functionHits), PlusBranches(s.branches, t.branches))
  }

  function Plus(u: Union, v: Union): Union {
    map path | path in u.Keys + v.Keys :: PlusSource(GetOr(u, path, NEW_SOURCE), GetOr(v, path, NEW_SOURCE))
  }

  lemma NoCounts<K>(m: map<K, int>)
    ensures PlusCounts(m, map[]) == m && PlusCounts(map[], m) == m
  {
  }

  lemma NoBranches<K>(m: map<K, Option<int>>)
    ensures PlusBranches(m, map[]) == m && PlusBranches(map[], m) == m
  {
  }

  lemma PlusNew(s: Source)
    ensures PlusSource(s, NEW_SOURCE) == s && PlusSource(NEW_SOURCE, s) == s
  {
    NoCounts(s.lines);
    NoCounts(s.functionHits);
    NoBranches(s.branches);
    assert map[] + s.functions == s.functions && s.functions + map[] == s.functions;
  }

  lemma PlusNothing(u: Union)
    ensures Plus(u, map[]) == u && Plus(map[], u) == u
  {
    forall path | path in u { PlusNew(u[path]); }
  }

  lemma CountKeys<K>(a: map<K, int>, b: map<K, int>)
    ensures PlusCounts(a, b).Keys == a.Keys + b.Keys
  {
  }

  lemma CountAt<K>(a: map<K, int>, b: map<K, int>, k: K)
    ensures GetOr(PlusCounts(a, b), k, 0) == GetOr(a, k, 0) + GetOr(b, k, 0)
  {
  }

  lemma SameValues<K(!new), V>(a: map<K, V>, b: map<K, V>, none: V)
    requires a.Keys == b.Keys && forall k :: k in a.Keys ==> GetOr(a, k, none) == GetOr(b, k, none)
    ensures a == b
  {
    forall k | k in a.Keys ensures a[k] == b[k] { assert GetOr(a, k, none) == GetOr(b, k, none); }
  }

  lemma CountsAssociate<K(!new)>(a: map<K, int>, b: map<K, int>, c: map<K, int>)
    ensures PlusCounts(PlusCounts(a, b), c) == PlusCounts(a, PlusCounts(b, c))
  {
    hide PlusCounts, GetOr;
    var ab, bc := PlusCounts(a, b), PlusCounts(b, c);
    var x, y := PlusCounts(ab, c), PlusCounts(a, bc);
    CountKeys(a, b);
    CountKeys(b, c);
    CountKeys(ab, c);
    CountKeys(a, bc);
    forall k | k in x.Keys ensures GetOr(x, k, 0) == GetOr(y, k, 0) {
      CountAt(a, b, k);
      CountAt(b, c, k);
      CountAt(ab, c, k);
      CountAt(a, bc, k);
    }
    SameValues(x, y, 0);
  }

  lemma BranchKeysOf<K>(a: map<K, Option<int>>, b: map<K, Option<int>>)
    ensures PlusBranches(a, b).Keys == a.Keys + b.Keys
  {
  }

  lemma BranchAt<K>(a: map<K, Option<int>>, b: map<K, Option<int>>, k: K)
    ensures GetOr(PlusBranches(a, b), k, None) == PlusTaken(GetOr(a, k, None), GetOr(b, k, None))
  {
  }

  lemma TakenAssociates(x: Option<int>, y: Option<int>, z: Option<int>)
    ensures PlusTaken(PlusTaken(x, y), z) == PlusTaken(x, PlusTaken(y, z))
  {
  }

  lemma BranchesAssociate<K(!new)>(a: map<K, Option<int>>, b: map<K, Option<int>>, c: map<K, Option<int>>)
    ensures PlusBranches(PlusBranches(a, b), c) == PlusBranches(a, PlusBranches(b, c))
  {
    hide PlusBranches, PlusTaken, GetOr;
    var ab, bc := PlusBranches(a, b), PlusBranches(b, c);
    var x, y := PlusBranches(ab, c), PlusBranches(a, bc);
    BranchKeysOf(a, b);
    BranchKeysOf(b, c);
    BranchKeysOf(ab, c);
    BranchKeysOf(a, bc);
    forall k | k in x.Keys ensures GetOr(x, k, None) == GetOr(y, k, None) {
      BranchAt(a, b, k);
      BranchAt(b, c, k);
      BranchAt(ab, c, k);
      BranchAt(a, bc, k);
      TakenAssociates(GetOr(a, k, None), GetOr(b, k, None), GetOr(c, k, None));
    }
    SameValues(x, y, None);
  }

  lemma PlusSourceAssociates(r: Source, s: Source, t: Source)
    ensures PlusSource(PlusSource(r, s), t) == PlusSource(r, PlusSource(s, t))
  {
    CountsAssociate(r.lines, s.lines, t.lines);
    CountsAssociate(r.functionHits, s.functionHits, t.functionHits);
    BranchesAssociate(r.branches, s.branches, t.branches);
    hide PlusCounts, PlusBranches;
    assert t.functions + (s.functions + r.functions) == (t.functions + s.functions) + r.functions;
  }

  lemma PlusAssociatesAt(u: Union, v: Union, w: Union, path: string)
    requires path in u || path in v || path in w
    ensures Plus(Plus(u, v), w)[path] == Plus(u, Plus(v, w))[path]
  {
    hide PlusSource;
    var r, s, t := GetOr(u, path, NEW_SOURCE), GetOr(v, path, NEW_SOURCE), GetOr(w, path, NEW_SOURCE);
    PlusSourceAssociates(r, s, t);
    PlusNew(NEW_SOURCE);
    PlusNew(r);
    PlusNew(t);
    assert GetOr(Plus(u, v), path, NEW_SOURCE) == PlusSource(r, s);
    assert GetOr(Plus(v, w), path, NEW_SOURCE) == PlusSource(s, t);
  }

  lemma PlusKeys(u: Union, v: Union)
    ensures Plus(u, v).Keys == u.Keys + v.Keys
  {
    hide PlusSource;
  }

  lemma SameEntries<K(!new), V>(a: map<K, V>, b: map<K, V>)
    requires a.Keys == b.Keys && forall k :: k in a.Keys ==> a[k] == b[k]
    ensures a == b
  {
  }

  lemma PlusAssociates(u: Union, v: Union, w: Union)
    ensures Plus(Plus(u, v), w) == Plus(u, Plus(v, w))
  {
    hide Plus;
    PlusKeys(u, v);
    PlusKeys(v, w);
    PlusKeys(Plus(u, v), w);
    PlusKeys(u, Plus(v, w));
    var a, b := Plus(Plus(u, v), w), Plus(u, Plus(v, w));
    forall path | path in a.Keys ensures a[path] == b[path] { PlusAssociatesAt(u, v, w, path); }
    SameEntries(a, b);
  }

  // ---------------------------------------------------------------- a report adds its own union

  lemma AddedCount<K>(a: map<K, int>, b: map<K, int>, k: K, n: int)
    ensures PlusCounts(a, b)[k := GetOr(PlusCounts(a, b), k, 0) + n] == PlusCounts(a, b[k := GetOr(b, k, 0) + n])
  {
  }

  lemma AddedTaken<K>(a: map<K, Option<int>>, b: map<K, Option<int>>, k: K, n: int)
    ensures PlusBranches(a, b)[k := Some(Value(GetOr(PlusBranches(a, b), k, None)) + n)]
         == PlusBranches(a, b[k := Some(Value(GetOr(b, k, None)) + n)])
  {
  }

  lemma AddedNever<K>(a: map<K, Option<int>>, b: map<K, Option<int>>, k: K)
    ensures var both := PlusBranches(a, b);
      (if k in both then both else both[k := None]) == PlusBranches(a, if k in b then b else b[k := None])
  {
  }

  lemma AddedBranch(s: Source, t: Source, b: Branch, taken: Option<int>)
    ensures AddBranch(PlusSource(s, t), b, taken) == PlusSource(s, AddBranch(t, b, taken))
  {
    hide PlusBranches, PlusCounts;
    if taken.None? { AddedNever(s.branches, t.branches, b); } else { AddedTaken(s.branches, t.branches, b, taken.value); }
  }

  lemma AddedFunction(s: Source, t: Source, line: int, name: string)
    ensures AddFunction(PlusSource(s, t), line, name) == PlusSource(s, AddFunction(t, line, name))
  {
    hide PlusBranches, PlusCounts;
    var a, b := s.functions, t.functions;
    assert (if name in b + a then b + a else (b + a)[name := line]) == (if name in b then b else b[name := line]) + a;
  }

  lemma AddedLine(s: Source, t: Source, line: int, hits: int)
    ensures AddLine(PlusSource(s, t), line, hits) == PlusSource(s, AddLine(t, line, hits))
  {
    AddedCount(s.lines, t.lines, line, hits);
    hide PlusBranches, PlusCounts;
  }

  lemma AddedHits(s: Source, t: Source, hits: int, name: string)
    ensures AddFunctionHits(PlusSource(s, t), hits, name) == PlusSource(s, AddFunctionHits(t, hits, name))
  {
    AddedCount(s.functionHits, t.functionHits, name, hits);
    hide PlusBranches, PlusCounts;
  }

  lemma FoldAdds(s: Source, t: Source, r: Record)
    ensures Fold(PlusSource(s, t), r) == PlusSource(s, Fold(t, r))
  {
    hide PlusSource, AddLine, AddFunction, AddFunctionHits, AddBranch;
    match r
    case LineCount(line, hits) => AddedLine(s, t, line, hits);
    case Function(line, name) => AddedFunction(s, t, line, name);
    case FunctionCount(hits, name) => AddedHits(s, t, hits, name);
    case BranchCount(b, taken) => AddedBranch(s, t, b, taken);
    case _ =>
  }

  function Added(u: Union, own: Reading): Reading {
    if own.Refused? then Refused else Reading(Plus(u, own.union), own.current)
  }

  /** A file opened in the own union, seen from the union it is added to. */
  lemma OpenAdds(u: Union, own: Union, path: string)
    ensures var both := Plus(u, own);
      (if path in both then both else both[path := NEW_SOURCE]) == Plus(u, if path in own then own else own[path := NEW_SOURCE])
  {
    hide PlusSource;
    PlusNew(NEW_SOURCE);
    if path in u { PlusNew(u[path]); }
    var both, after := Plus(u, own), if path in own then own else own[path := NEW_SOURCE];
    var a, b := if path in both then both else both[path := NEW_SOURCE], Plus(u, after);
    assert a.Keys == b.Keys;
    forall other | other in a ensures a[other] == b[other] {
      if other != path { assert GetOr(own, other, NEW_SOURCE) == GetOr(after, other, NEW_SOURCE); }
    }
  }

  lemma UpdateAdds(u: Union, own: Union, path: string, t: Source)
    ensures Plus(u, own)[path := PlusSource(GetOr(u, path, NEW_SOURCE), t)] == Plus(u, own[path := t])
  {
    hide PlusSource;
    var a, b := Plus(u, own)[path := PlusSource(GetOr(u, path, NEW_SOURCE), t)], Plus(u, own[path := t]);
    assert a.Keys == b.Keys;
    forall other | other in a ensures a[other] == b[other] {
      if other != path { assert GetOr(own, other, NEW_SOURCE) == GetOr(own[path := t], other, NEW_SOURCE); }
    }
  }

  lemma TakeAdds(u: Union, own: Reading, r: Record)
    requires CurrentKnown(own)
    ensures Take(Added(u, own), r) == Added(u, Take(own, r)) && CurrentKnown(Take(own, r))
  {
    hide PlusSource, Fold;
    if own.Reading? && r.SourceFile? {
      OpenAdds(u, own.union, r.path);
      hide Plus;
    } else if own.Reading? && IsCount(r) && own.current.Some? {
      var path, s, t := own.current.value, GetOr(u, own.current.value, NEW_SOURCE), own.union[own.current.value];
      assert path in Plus(u, own.union) && Plus(u, own.union)[path] == PlusSource(s, t);
      hide Plus;
      FoldAdds(s, t, r);
      UpdateAdds(u, own.union, path, Fold(t, r));
    }
  }

  lemma {:induction false} TakeAllAdds(u: Union, own: Reading, records: seq<Record>)
    requires CurrentKnown(own)
    ensures TakeAll(Added(u, own), records) == Added(u, TakeAll(own, records))
    decreases |records|
  {
    hide Take, Plus;
    if records != [] {
      TakeAdds(u, own, records[0]);
      TakeAllAdds(u, Take(own, records[0]), records[1..]);
    }
  }

  /** Reading a report into a union refuses exactly when the report alone is refused, and else adds the report's own union. */
  lemma ReportAdds(u: Union, text: string)
    ensures ParseInto(u, text) == Added(u, ParseInto(map[], text))
  {
    PlusNothing(u);
    hide ReadRecords, Plus, Take;
    TakeAllAdds(u, Reading(map[], None), ReadRecords(PyText.Lines(text)));
  }

  // ---------------------------------------------------------------- several reports

  predicate Usable(text: string) { ParseInto(map[], text).Reading? }

  function Own(text: string): Union { if Usable(text) then ParseInto(map[], text).union else map[] }

  function Sum(reports: seq<string>): Union {
    if reports == [] then map[] else Plus(Own(reports[0]), Sum(reports[1..]))
  }

  lemma {:induction false} LoadIsSum(u: Union, reports: seq<string>)
    ensures Load(u, reports) == if forall i :: 0 <= i < |reports| ==> Usable(reports[i]) then Reading(Plus(u, Sum(reports)), None) else Refused
    decreases |reports|
  {
    hide Plus, ParseInto;
    if reports == [] {
      PlusNothing(u);
    } else {
      ReportAdds(u, reports[0]);
      if Usable(reports[0]) {
        LoadIsSum(Plus(u, Own(reports[0])), reports[1..]);
        PlusAssociates(u, Own(reports[0]), Sum(reports[1..]));
        assert (forall i :: 0 <= i < |reports| ==> Usable(reports[i])) <==> forall i :: 0 <= i < |reports[1..]| ==> Usable(reports[1..][i]);
      }
    }
  }

  // ---------------------------------------------------------------- any order

  function Undated(s: Source): Source { s.(functions := map name | name in s.functions :: 0) }

  /** A union with the declaration lines of its functions forgotten, their names kept. */
  function Undeclared(u: Union): Union { map path | path in u :: Undated(u[path]) }

  lemma UndatedPlus(s: Source, t: Source)
    ensures Undated(PlusSource(s, t)) == PlusSource(Undated(s), Undated(t))
  {
    assert Undated(PlusSource(s, t)).functions == PlusSource(Undated(s), Undated(t)).functions;
  }

  lemma UndeclaredPlusAt(u: Union, v: Union, path: string)
    requires path in u || path in v
    ensures Undeclared(Plus(u, v))[path] == Plus(Undeclared(u), Undeclared(v))[path]
  {
    assert Undated(NEW_SOURCE) == NEW_SOURCE;
    var s, t := GetOr(u, path, NEW_SOURCE), GetOr(v, path, NEW_SOURCE);
    UndatedPlus(s, t);
    hide PlusSource, Undated;
    assert GetOr(Undeclared(u), path, NEW_SOURCE) == Undated(s) && GetOr(Undeclared(v), path, NEW_SOURCE) == Undated(t);
  }

  lemma UndeclaredKeys(u: Union)
    ensures Undeclared(u).Keys == u.Keys
  {
    hide Undated;
  }

  lemma UndeclaredPlus(u: Union, v: Union)
    ensures Undeclared(Plus(u, v)) == Plus(Undeclared(u), Undeclared(v))
  {
    hide Plus, Undeclared;
    PlusKeys(u, v);
    UndeclaredKeys(u);
    UndeclaredKeys(v);
    UndeclaredKeys(Plus(u, v));
    PlusKeys(Undeclared(u), Undeclared(v));
    var a, b := Undeclared(Plus(u, v)), Plus(Undeclared(u), Undeclared(v));
    forall path | path in a.Keys ensures a[path] == b[path] { UndeclaredPlusAt(u, v, path); }
    SameEntries(a, b);
  }

  lemma CountsCommute<K>(a: map<K, int>, b: map<K, int>)
    ensures PlusCounts(a, b) == PlusCounts(b, a)
  {
  }

  lemma BranchesCommute<K>(a: map<K, Option<int>>, b: map<K, Option<int>>)
    ensures PlusBranches(a, b) == PlusBranches(b, a)
  {
  }

  lemma UndatedCommutes(s: Source, t: Source)
    ensures PlusSource(Undated(s), Undated(t)) == PlusSource(Undated(t), Undated(s))
  {
    hide PlusCounts, PlusBranches;
    CountsCommute(s.lines, t.lines);
    CountsCommute(s.functionHits, t.functionHits);
    BranchesCommute(s.branches, t.branches);
    var a, b := Undated(s).functions, Undated(t).functions;
    assert a + b == b + a;
  }

  lemma PlusCommutesAt(u: Union, v: Union, path: string)
    requires path in u || path in v
    ensures Undeclared(Plus(u, v))[path] == Undeclared(Plus(v, u))[path]
  {
    hide PlusSource, Undated;
    var s, t := GetOr(u, path, NEW_SOURCE), GetOr(v, path, NEW_SOURCE);
    UndatedPlus(s, t);
    UndatedPlus(t, s);
    UndatedCommutes(s, t);
  }

  lemma PlusCommutes(u: Union, v: Union)
    ensures Undeclared(Plus(u, v)) == Undeclared(Plus(v, u))
  {
    hide Plus, Undeclared;
    PlusKeys(u, v);
    PlusKeys(v, u);
    UndeclaredKeys(Plus(u, v));
    UndeclaredKeys(Plus(v, u));
    var a, b := Undeclared(Plus(u, v)), Undeclared(Plus(v, u));
    forall path | path in a.Keys ensures a[path] == b[path] { PlusCommutesAt(u, v, path); }
    SameEntries(a, b);
  }

  /** The first of three summands swaps with the second. */
  lemma PlusSwaps(u: Union, v: Union, w: Union, rest: Union)
    requires Undeclared(w) == Undeclared(Plus(v, rest))
    ensures Undeclared(Plus(u, w)) == Undeclared(Plus(v, Plus(u, rest)))
  {
    UndeclaredPlus(u, w);
    UndeclaredPlus(u, Plus(v, rest));
    PlusAssociates(u, v, rest);
    PlusAssociates(v, u, rest);
    PlusCommutes(u, v);
    UndeclaredPlus(Plus(u, v), rest);
    UndeclaredPlus(Plus(v, u), rest);
  }

  /** A report may be moved to the front. */
  lemma {:induction false} MoveToFront(reports: seq<string>, i: nat)
    requires i < |reports|
    ensures Undeclared(Sum(reports)) == Undeclared(Plus(Own(reports[i]), Sum(Without(reports, i))))
  {
    hide Plus, Undeclared, Own;
    if i == 0 {
      assert Without(reports, 0) == reports[1..];
    } else {
      MoveToFront(reports[1..], i - 1);
      var rest := Without(reports[1..], i - 1);
      assert Without(reports, i)[1..] == rest;
      PlusSwaps(Own(reports[0]), Own(reports[i]), Sum(reports[1..]), Sum(rest));
    }
  }

  lemma {:induction false} SumOrder(reports: seq<string>, others: seq<string>)
    requires multiset(reports) == multiset(others)
    ensures Undeclared(Sum(reports)) == Undeclared(Sum(others))
    decreases |reports|
  {
    SameLength(reports, others);
    if reports != [] {
      var i := Matching(reports, 0, others);
      var first, rest := reports[0], Without(others, i);
      assert Without(reports, 0) == reports[1..];
      hide Plus, Undeclared, Own, Without;
      SumOrder(reports[1..], rest);
      MoveToFront(others, i);
      UndeclaredPlus(Own(first), Sum(reports[1..]));
      UndeclaredPlus(Own(first), Sum(rest));
    }
  }

  /** Every report that declares a function declares it at the same line. */
  ghost predicate Declares(u: Union, at: (string, string) -> int) {
    forall path, name :: path in u && name in u[path].functions ==> u[path].functions[name] == at(path, name)
  }

  lemma {:induction false} SumDeclares(reports: seq<string>, at: (string, string) -> int)
    requires forall i :: 0 <= i < |reports| ==> Declares(Own(reports[i]), at)
    ensures Declares(Sum(reports), at)
  {
    hide Own;
    if reports != [] { SumDeclares(reports[1..], at); }
  }

  lemma DeclaredSame(u: Union, v: Union, at: (string, string) -> int)
    requires Undeclared(u) == Undeclared(v) && Declares(u, at) && Declares(v, at)
    ensures u == v
  {
    assert u.Keys == Undeclared(u).Keys && v.Keys == Undeclared(v).Keys;
    forall path | path in u ensures u[path] == v[path] {
      var s, t := u[path], v[path];
      assert Undeclared(u)[path] == Undated(s) && Undeclared(v)[path] == Undated(t);
      assert s.functions.Keys == Undated(s).functions.Keys == t.functions.Keys;
      forall name | name in s.functions ensures s.functions[name] == t.functions[name] {
      }
      assert s.functions == t.functions;
    }
  }

  lemma SameMembers(reports: seq<string>, others: seq<string>)
    requires multiset(reports) == multiset(others)
    ensures forall i :: 0 <= i < |others| ==> others[i] in reports
  {
    forall i | 0 <= i < |others| ensures others[i] in reports { assert others[i] in multiset(others); }
  }

  ghost predicate AllDeclare(reports: seq<string>, at: (string, string) -> int) {
    forall i :: 0 <= i < |reports| ==> Declares(Own(reports[i]), at)
  }

  lemma AllUsable(reports: seq<string>, others: seq<string>)
    requires multiset(reports) == multiset(others) && forall i :: 0 <= i < |reports| ==> Usable(reports[i])
    ensures forall i :: 0 <= i < |others| ==> Usable(others[i])
  {
    hide Usable;
    SameMembers(reports, others);
  }

  lemma AllDeclareOrder(reports: seq<string>, others: seq<string>, at: (string, string) -> int)
    requires multiset(reports) == multiset(others) && AllDeclare(reports, at)
    ensures AllDeclare(others, at)
  {
    hide Own, Declares;
    SameMembers(reports, others);
  }

  /**
    Shards may be loaded in any order: the same reports are refused, and the union has the same
    files, line counts, function names, function hits and branch counts. Only the line a
    function is declared at comes from the first report that declares it.
   */
  lemma LoadOrder(reports: seq<string>, others: seq<string>)
    requires multiset(reports) == multiset(others)
    ensures var a, b := Load(map[], reports), Load(map[], others);
      a.Reading? == b.Reading? && (a.Reading? ==> Undeclared(a.union) == Undeclared(b.union))
  {
    LoadIsSum(map[], reports);
    LoadIsSum(map[], others);
    hide Own, Usable, Undeclared, Load, Plus;
    if Load(map[], reports).Reading? { AllUsable(reports, others); }
    if Load(map[], others).Reading? { AllUsable(others, reports); }
    SumOrder(reports, others);
    PlusNothing(Sum(reports));
    PlusNothing(Sum(others));
  }

  /** Where the reports agree on the lines functions are declared at, the unions are equal, and so are the bytes written. */
  lemma LoadOrderAgreed(reports: seq<string>, others: seq<string>, at: (string, string) -> int)
    requires multiset(reports) == multiset(others) && AllDeclare(reports, at)
    ensures Load(map[], reports) == Load(map[], others)
    ensures Load(map[], reports).Reading? ==> Render(Load(map[], reports).union) == Render(Load(map[], others).union)
  {
    LoadIsSum(map[], reports);
    LoadIsSum(map[], others);
    hide Own, Usable, Undeclared, Load, Plus, Render, Declares;
    LoadOrder(reports, others);
    AllDeclareOrder(reports, others, at);
    SumDeclares(reports, at);
    SumDeclares(others, at);
    SumOrder(reports, others);
    DeclaredSame(Sum(reports), Sum(others), at);
  }

  // ---------------------------------------------------------------- what one entry of the union says

  /** A line's hits in a union, 0 for a line it does not have. */
  function HitsOf(u: Union, path: string, line: int): int {
    if path in u then GetOr(u[path].lines, line, 0) else 0
  }

  predicate HasLine(u: Union, path: string, line: int) { path in u && line in u[path].lines }

  predicate HasBranch(u: Union, path: string, b: Branch) { path in u && b in u[path].branches }

  function SumHits(reports: seq<string>, path: string, line: int): int {
    if reports == [] then 0 else HitsOf(Own(reports[0]), path, line) + SumHits(reports[1..], path, line)
  }

  predicate SomeHasLine(reports: seq<string>, path: string, line: int) {
    exists i :: 0 <= i < |reports| && HasLine(Own(reports[i]), path, line)
  }

  lemma SomeFirst(reports: seq<string>, path: string, line: int)
    requires reports != []
    ensures SomeHasLine(reports, path, line) <==> HasLine(Own(reports[0]), path, line) || SomeHasLine(reports[1..], path, line)
  {
    hide Own, HasLine;
    if SomeHasLine(reports[1..], path, line) {
      var i :| 0 <= i < |reports[1..]| && HasLine(Own(reports[1..][i]), path, line);
      assert HasLine(Own(reports[i + 1]), path, line);
    }
    if SomeHasLine(reports, path, line) && !HasLine(Own(reports[0]), path, line) {
      var i :| 0 <= i < |reports| && HasLine(Own(reports[i]), path, line);
      assert HasLine(Own(reports[1..][i - 1]), path, line);
    }
  }

  lemma PlusLineAt(u: Union, v: Union, path: string, line: int)
    ensures HasLine(Plus(u, v), path, line) <==> HasLine(u, path, line) || HasLine(v, path, line)
    ensures HitsOf(Plus(u, v), path, line) == HitsOf(u, path, line) + HitsOf(v, path, line)
  {
    hide PlusBranches;
  }

  /** A line of the union is a line of some report, and its hits are the sum of the reports' hits. */
  lemma {:induction false} LineIsSum(reports: seq<string>, path: string, line: int)
    ensures HasLine(Sum(reports), path, line) <==> SomeHasLine(reports, path, line)
    ensures HitsOf(Sum(reports), path, line) == SumHits(reports, path, line)
  {
    hide Own, SomeHasLine, Plus;
    if reports == [] {
      NoneHasLine(path, line);
    } else {
      LineIsSum(reports[1..], path, line);
      SomeFirst(reports, path, line);
      PlusLineAt(Own(reports[0]), Sum(reports[1..]), path, line);
    }
  }

  lemma NoneHasLine(path: string, line: int)
    ensures !SomeHasLine([], path, line)
  {
  }

  ghost predicate NoNegative(reports: seq<string>, path: string, line: int) {
    forall i :: 0 <= i < |reports| ==> HitsOf(Own(reports[i]), path, line) >= 0
  }

  ghost predicate SomeCovers(reports: seq<string>, path: string, line: int) {
    exists i :: 0 <= i < |reports| && HitsOf(Own(reports[i]), path, line) > 0
  }

  lemma {:induction false} SumPositive(reports: seq<string>, path: string, line: int)
    requires NoNegative(reports, path, line)
    ensures SumHits(reports, path, line) >= 0
    ensures SumHits(reports, path, line) > 0 <==> SomeCovers(reports, path, line)
  {
    hide Own, HitsOf;
    if reports != [] {
      var rest := reports[1..];
      assert forall i :: 0 <= i < |rest| ==> rest[i] == reports[i + 1];
      SumPositive(rest, path, line);
      if SomeCovers(rest, path, line) {
        var i :| 0 <= i < |rest| && HitsOf(Own(rest[i]), path, line) > 0;
        assert HitsOf(Own(reports[i + 1]), path, line) > 0;
      }
      if SomeCovers(reports, path, line) && HitsOf(Own(reports[0]), path, line) == 0 {
        var i :| 0 <= i < |reports| && HitsOf(Own(reports[i]), path, line) > 0;
        assert HitsOf(Own(rest[i - 1]), path, line) > 0;
      }
    }
  }

  /** Where no report has negative hits for a line, the union covers it exactly when some shard covered it. */
  lemma CoveredBySomeShard(reports: seq<string>, path: string, line: int)
    requires NoNegative(reports, path, line)
    ensures HitsOf(Sum(reports), path, line) > 0 <==> SomeCovers(reports, path, line)
  {
    LineIsSum(reports, path, line);
    SumPositive(reports, path, line);
  }

  /** A report of one line of one file. */
  ghost function OneLine(path: string, line: int, hits: int): string {
    Render(map[path := NEW_SOURCE.(lines := map[line := hits])])
  }

  lemma OneLineReads(path: string, line: int, hits: int)
    requires Clean(path)
    ensures Usable(OneLine(path, line, hits)) && HitsOf(Own(OneLine(path, line, hits)), path, line) == hits
  {
    var u: Union := map[path := NEW_SOURCE.(lines := map[line := hits])];
    assert ReportedUnion(u)[path].lines == map[line := hits];
    hide Render, ParseInto;
    RenderRoundTrip(u);
  }

  ghost predicate AllReadable(reports: seq<string>) { forall i :: 0 <= i < |reports| ==> Usable(reports[i]) }

  /** The reports load and cover the line, and with one more shard they do not cover it. */
  ghost predicate Uncovers(shard: string, others: seq<string>, path: string, line: int) {
    && AllReadable(others) && HitsOf(Sum(others), path, line) > 0
    && HitsOf(Sum(others + [shard]), path, line) <= 0
  }

  lemma {:induction false} SumHitsMore(reports: seq<string>, shard: string, path: string, line: int)
    ensures SumHits(reports + [shard], path, line) == SumHits(reports, path, line) + HitsOf(Own(shard), path, line)
  {
    hide Own, HitsOf;
    if reports == [] {
      assert [] + [shard] == [shard] && [shard][1..] == [];
    } else {
      assert (reports + [shard])[1..] == reports[1..] + [shard];
      SumHitsMore(reports[1..], shard, path, line);
    }
  }

  lemma OneMoreShard(shard: string, others: seq<string>, path: string, line: int)
    ensures HitsOf(Sum(others + [shard]), path, line) == HitsOf(Sum(others), path, line) + HitsOf(Own(shard), path, line)
  {
    hide Own, HitsOf, Sum;
    LineIsSum(others, path, line);
    LineIsSum(others + [shard], path, line);
    SumHitsMore(others, shard, path, line);
  }

  /** A path a report has hits for can be written in another one. */
  lemma NamedPathIsClean(shard: string, path: string, line: int)
    requires HitsOf(Own(shard), path, line) != 0
    ensures Clean(path)
  {
    hide ParseInto, Render;
    ParsedUnionIsClean(map[], shard);
  }

  lemma OneReadable(report: string)
    requires Usable(report)
    ensures AllReadable([report]) && [] + [report] == [report]
  {
    hide Usable;
  }

  lemma CancelledOut(shard: string, other: string, path: string, line: int)
    requires Usable(other) && HitsOf(Own(other), path, line) == -HitsOf(Own(shard), path, line) > 0
    ensures Uncovers(shard, [other], path, line) && HitsOf(Sum([other] + [shard]), path, line) == 0
  {
    hide Own, HitsOf, Sum, Usable;
    OneMoreShard(other, [], path, line);
    OneMoreShard(shard, [other], path, line);
    NothingHits(path, line);
    OneReadable(other);
  }

  lemma NegativeUncovers(shard: string, path: string, line: int)
    requires HitsOf(Own(shard), path, line) < 0
    ensures exists others :: Uncovers(shard, others, path, line)
  {
    hide *;
    NamedPathIsClean(shard, path, line);
    var other := OneLine(path, line, -HitsOf(Own(shard), path, line));
    OneLineReads(path, line, -HitsOf(Own(shard), path, line));
    CancelledOut(shard, other, path, line);
    assert Uncovers(shard, [other], path, line);
  }

  lemma NothingHits(path: string, line: int)
    ensures HitsOf(Sum([]), path, line) == 0
  {
  }

  /** A shard never uncovers a line that others cover, whichever they are, exactly when its own count of the line is not negative. */
  lemma NeverUncovers(shard: string, path: string, line: int)
    ensures HitsOf(Own(shard), path, line) >= 0 <==> forall others :: !Uncovers(shard, others, path, line)
  {
    hide Own, HitsOf, Sum;
    if HitsOf(Own(shard), path, line) < 0 {
      NegativeUncovers(shard, path, line);
    } else {
      forall others ensures !Uncovers(shard, others, path, line) { OneMoreShard(shard, others, path, line); }
    }
  }

  lemma PlainPath()
    ensures Clean("f")
  {
  }

  /** A negative count is read as it stands, so a shard can take back what another covered. */
  lemma NegativeHitsUncover()
    ensures exists a, b :: Usable(a) && Usable(b) && HitsOf(Own(a), "f", 1) > 0 && HitsOf(Sum([a, b]), "f", 1) == 0
  {
    hide *;
    PlainPath();
    var a, b := OneLine("f", 1, 1), OneLine("f", 1, -1);
    OneLineReads("f", 1, 1);
    OneLineReads("f", 1, -1);
    CancelledOut(b, a, "f", 1);
    assert [a] + [b] == [a, b];
  }

  ghost predicate SomeHasBranch(reports: seq<string>, path: string, b: Branch) {
    exists i :: 0 <= i < |reports| && HasBranch(Own(reports[i]), path, b)
  }

  /** Every report that has the branch says its block never ran. */
  ghost predicate AllSayNever(reports: seq<string>, path: string, b: Branch) {
    forall i :: 0 <= i < |reports| && HasBranch(Own(reports[i]), path, b) ==> Own(reports[i])[path].branches[b] == None
  }

  lemma BranchFirst(reports: seq<string>, path: string, b: Branch)
    requires reports != []
    ensures var first := Own(reports[0]);
      && (SomeHasBranch(reports, path, b) <==> HasBranch(first, path, b) || SomeHasBranch(reports[1..], path, b))
      && (AllSayNever(reports, path, b) <==> (HasBranch(first, path, b) ==> first[path].branches[b] == None) && AllSayNever(reports[1..], path, b))
  {
    hide Own;
    var rest := reports[1..];
    assert forall i :: 0 <= i < |rest| ==> rest[i] == reports[i + 1];
    forall i | 0 < i < |reports| ensures reports[i] == rest[i - 1] {}
    if SomeHasBranch(rest, path, b) {
      var i :| 0 <= i < |rest| && HasBranch(Own(rest[i]), path, b);
      assert HasBranch(Own(reports[i + 1]), path, b);
    }
    if SomeHasBranch(reports, path, b) && !HasBranch(Own(reports[0]), path, b) {
      var i :| 0 <= i < |reports| && HasBranch(Own(reports[i]), path, b);
      assert HasBranch(Own(rest[i - 1]), path, b);
    }
    if AllSayNever(reports, path, b) {
      forall i | 0 <= i < |rest| && HasBranch(Own(rest[i]), path, b) ensures Own(rest[i])[path].branches[b] == None {
        assert HasBranch(Own(reports[i + 1]), path, b);
      }
    }
  }

  lemma PlusBranchAt(u: Union, v: Union, path: string, b: Branch)
    ensures HasBranch(Plus(u, v), path, b) <==> HasBranch(u, path, b) || HasBranch(v, path, b)
    ensures HasBranch(Plus(u, v), path, b) ==>
      (Plus(u, v)[path].branches[b] == None) ==
        ((HasBranch(u, path, b) ==> u[path].branches[b] == None) && (HasBranch(v, path, b) ==> v[path].branches[b] == None))
  {
    hide PlusCounts;
    var s, t := GetOr(u, path, NEW_SOURCE), GetOr(v, path, NEW_SOURCE);
    assert HasBranch(Plus(u, v), path, b) ==> Plus(u, v)[path].branches[b] == PlusTaken(GetOr(s.branches, b, None), GetOr(t.branches, b, None));
  }

  /** "-" stays in the union exactly while every report that has the branch says so. */
  lemma {:induction false} NeverTaken(reports: seq<string>, path: string, b: Branch)
    ensures HasBranch(Sum(reports), path, b) <==> SomeHasBranch(reports, path, b)
    ensures HasBranch(Sum(reports), path, b) ==> (Sum(reports)[path].branches[b] == None <==> AllSayNever(reports, path, b))
    ensures !SomeHasBranch(reports, path, b) ==> AllSayNever(reports, path, b)
  {
    if reports != [] {
      hide Own, SomeHasBranch, AllSayNever, HasBranch, Plus;
      NeverTaken(reports[1..], path, b);
      BranchFirst(reports, path, b);
      PlusBranchAt(Own(reports[0]), Sum(reports[1..]), path, b);
    }
  }
}
