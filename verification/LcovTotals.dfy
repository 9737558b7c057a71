/** Counting the lines of the union: the covered and the total, and the missed lines of each crate. */
module LcovTotals {
  import opened Lcov
  import opened LcovRender
  import opened Options
  import opened Sorting
  import opened Splitting

  const CRATES_SEGMENT := "/crates/"
  const WORKSPACE_ROOT := "(workspace root)"

  predicate StartsWith(s: string, p: string) { |p| <= |s| && s[..|p|] == p }

  /** What follows the first occurrence of a separator. */
  function AfterFirst(s: string, separator: string): Option<string> {
    if StartsWith(s, separator) then Some(s[|separator|..])
    else if s == "" then None
    else AfterFirst(s[1..], separator)
  }

  function CrateOf(path: string): string {
    match AfterFirst(path, CRATES_SEGMENT)
    case None => WORKSPACE_ROOT
    case Some(rest) => Split('/', rest)[0]
  }

  /** The segment stands in the path at this place. */
  predicate OccursAt(path: string, k: nat) { k + 8 <= |path| && path[k..k + 8] == "/crates/" }

  lemma {:induction false} AfterFirstIs(s: string)
    ensures AfterFirst(s, CRATES_SEGMENT).None? ==> forall k: nat :: !OccursAt(s, k)
    ensures AfterFirst(s, CRATES_SEGMENT).Some? ==>
      exists k: nat :: OccursAt(s, k) && (forall j: nat :: j < k ==> !OccursAt(s, j)) && AfterFirst(s, CRATES_SEGMENT) == Some(s[k + 8..])
  {
    if StartsWith(s, CRATES_SEGMENT) {
      assert OccursAt(s, 0);
    } else if s != "" {
      AfterFirstIs(s[1..]);
      assert !OccursAt(s, 0);
      forall k: nat | k > 0 ensures OccursAt(s, k) <==> OccursAt(s[1..], k - 1) {
        if k + 8 <= |s| { assert s[k..k + 8] == s[1..][k - 1..k + 7]; }
      }
      if AfterFirst(s, CRATES_SEGMENT).Some? {
        var k: nat :| OccursAt(s[1..], k) && (forall j: nat :: j < k ==> !OccursAt(s[1..], j)) && AfterFirst(s[1..], CRATES_SEGMENT) == Some(s[1..][k + 8..]);
        assert OccursAt(s, k + 1) && s[1..][k + 8..] == s[k + 1 + 8..];
      } else {
        forall k: nat ensures !OccursAt(s, k) {
          if k > 0 { assert !OccursAt(s[1..], k - 1); }
        }
      }
    }
  }

  lemma {:induction false} FirstPiece(c: char, s: string)
    ensures var piece := Split(c, s)[0];
      |piece| <= |s| && piece == s[..|piece|] && c !in piece && (|piece| < |s| ==> s[|piece|] == c)
  {
    if s != "" && s[0] != c { FirstPiece(c, s[1..]); }
  }

  /** The crate stands after the first `/crates/` of the path, up to the next slash or the end. */
  ghost predicate CrateAt(path: string, k: nat, crate: string)
    requires k + 8 <= |path|
  {
    && k + 8 + |crate| <= |path| && crate == path[k + 8..k + 8 + |crate|] && '/' !in crate
    && (k + 8 + |crate| < |path| ==> path[k + 8 + |crate|] == '/')
  }

  lemma CrateExactly(path: string, k: nat)
    ensures (forall j: nat :: !OccursAt(path, j)) ==> CrateOf(path) == "(workspace root)"
    ensures OccursAt(path, k) && (forall j: nat :: j < k ==> !OccursAt(path, j)) ==> CrateAt(path, k, CrateOf(path))
  {
    AfterFirstIs(path);
    hide AfterFirst, Split;
    if AfterFirst(path, CRATES_SEGMENT).Some? {
      var first: nat :| OccursAt(path, first) && (forall j: nat :: j < first ==> !OccursAt(path, j))
        && AfterFirst(path, CRATES_SEGMENT) == Some(path[first + 8..]);
      FirstPiece('/', path[first + 8..]);
      if OccursAt(path, k) && (forall j: nat :: j < k ==> !OccursAt(path, j)) {
        assert k == first;
        var rest, crate := path[k + 8..], CrateOf(path);
        assert rest[..|crate|] == path[k + 8..k + 8 + |crate|];
      }
    }
  }

  // ---------------------------------------------------------------- totals

  function MissedLines(s: Source): set<int> { set line | line in s.lines && s.lines[line] == 0 }

  function NegativeLines(s: Source): set<int> { set line | line in s.lines && s.lines[line] < 0 }

  function Covered(u: Union, paths: seq<string>): nat
    requires forall i :: 0 <= i < |paths| ==> paths[i] in u
  {
    if paths == [] then 0 else |CoveredLines(u[paths[0]])| + Covered(u, paths[1..])
  }

  function Total(u: Union, paths: seq<string>): nat
    requires forall i :: 0 <= i < |paths| ==> paths[i] in u
  {
    if paths == [] then 0 else |u[paths[0]].lines| + Total(u, paths[1..])
  }

  /** The missed lines of the files of some crates. */
  function MissedAmong(u: Union, paths: seq<string>, crates: set<string>): nat
    requires forall i :: 0 <= i < |paths| ==> paths[i] in u
  {
    if paths == [] then 0
    else (if CrateOf(paths[0]) in crates then |MissedLines(u[paths[0]])| else 0) + MissedAmong(u, paths[1..], crates)
  }

  function MissedIn(u: Union, paths: seq<string>, crate: string): nat
    requires forall i :: 0 <= i < |paths| ==> paths[i] in u
  {
    MissedAmong(u, paths, {crate})
  }

  // ---------------------------------------------------------------- the crates' missed lines

  lemma {:induction false} MissedInNext(u: Union, paths: seq<string>, i: nat, crate: string)
    requires i < |paths| && forall k :: 0 <= k < |paths| ==> paths[k] in u
    ensures MissedIn(u, paths[..i + 1], crate)
         == MissedIn(u, paths[..i], crate) + if CrateOf(paths[i]) == crate then |MissedLines(u[paths[i]])| else 0
  {
    hide CrateOf, MissedLines;
    if i > 0 {
      MissedInNext(u, paths[1..], i - 1, crate);
      assert paths[..i + 1][1..] == paths[1..][..i] && paths[..i][1..] == paths[1..][..i - 1];
    } else {
      assert paths[..1][1..] == [];
    }
  }

  /** Exactly the crates that miss lines, each with how many. */
  ghost predicate CountsMissed(missed: map<string, nat>, u: Union, paths: seq<string>)
    requires forall i :: 0 <= i < |paths| ==> paths[i] in u
  {
    forall crate :: GetOr(missed, crate, 0) == MissedIn(u, paths, crate) && (crate in missed ==> missed[crate] > 0)
  }

  method CountMissed(u: Union, paths: seq<string>) returns (missed: map<string, nat>)
    requires forall i :: 0 <= i < |paths| ==> paths[i] in u
    ensures CountsMissed(missed, u, paths)
  {
    missed := map[];
    for i := 0 to |paths|
      invariant CountsMissed(missed, u, paths[..i])
    {
      hide MissedIn, CrateOf;
      ghost var before := missed;
      var gap := |MissedLines(u[paths[i]])|;
      var crate := CrateOf(paths[i]);
      if gap != 0 {
        missed := missed[crate := GetOr(missed, crate, 0) + gap];
      }
      forall c ensures GetOr(missed, c, 0) == MissedIn(u, paths[..i + 1], c) && (c in missed ==> missed[c] > 0) {
        MissedInNext(u, paths, i, c);
        assert GetOr(before, c, 0) == MissedIn(u, paths[..i], c);
      }
    }
    assert paths[..|paths|] == paths;
  }

  /** Most missed lines first, then by name. */
  predicate RowLe(a: (string, nat), b: (string, nat)) {
    a.1 > b.1 || (a.1 == b.1 && TextLe(a.0, b.0))
  }

  lemma RowOrder()
    ensures TotalOrder(RowLe)
  {
    TextOrder();
  }

  ghost function Ranked(missed: map<string, nat>): seq<(string, nat)> {
    RowOrder();
    Sorted(missed.Items, RowLe)
  }

  function RowSum(rows: seq<(string, nat)>): nat {
    if rows == [] then 0 else rows[0].1 + RowSum(rows[1..])
  }

  // ---------------------------------------------------------------- the sum of the rows

  function CratesOf(rows: seq<(string, nat)>): set<string> { set i | 0 <= i < |rows| :: rows[i].0 }

  lemma {:induction false} OneMoreCrate(u: Union, paths: seq<string>, crates: set<string>, crate: string)
    requires crate !in crates && forall i :: 0 <= i < |paths| ==> paths[i] in u
    ensures MissedAmong(u, paths, crates + {crate}) == MissedAmong(u, paths, crates) + MissedIn(u, paths, crate)
  {
    if paths != [] { OneMoreCrate(u, paths[1..], crates, crate); }
  }

  lemma {:induction false} NoCrates(u: Union, paths: seq<string>)
    requires forall i :: 0 <= i < |paths| ==> paths[i] in u
    ensures MissedAmong(u, paths, {}) == 0
  {
    if paths != [] { NoCrates(u, paths[1..]); }
  }

  ghost predicate RowsCount(rows: seq<(string, nat)>, u: Union, paths: seq<string>)
    requires forall i :: 0 <= i < |paths| ==> paths[i] in u
  {
    && (forall i, j :: 0 <= i < j < |rows| ==> rows[i].0 != rows[j].0)
    && (forall i :: 0 <= i < |rows| ==> rows[i].1 == MissedIn(u, paths, rows[i].0))
  }

  lemma {:induction false} RowsSum(rows: seq<(string, nat)>, u: Union, paths: seq<string>)
    requires (forall i :: 0 <= i < |paths| ==> paths[i] in u) && RowsCount(rows, u, paths)
    ensures RowSum(rows) == MissedAmong(u, paths, CratesOf(rows))
    decreases |rows|
  {
    hide MissedIn, MissedAmong;
    if rows == [] {
      NoCrates(u, paths);
      assert CratesOf(rows) == {};
    } else {
      RowsSum(rows[1..], u, paths);
      OneMoreCrate(u, paths, CratesOf(rows[1..]), rows[0].0);
      assert CratesOf(rows) == CratesOf(rows[1..]) + {rows[0].0} by {
        assert rows == [rows[0]] + rows[1..];
        forall i | 0 <= i < |rows| ensures rows[i].0 in CratesOf(rows[1..]) + {rows[0].0} {
          if i > 0 { assert rows[1..][i - 1].0 in CratesOf(rows[1..]); }
        }
        forall i | 0 <= i < |rows[1..]| ensures rows[1..][i].0 in CratesOf(rows) { assert rows[i + 1].0 in CratesOf(rows); }
      }
    }
  }

  lemma {:induction false} Partitioned(u: Union, paths: seq<string>, crates: set<string>)
    requires forall i :: 0 <= i < |paths| ==> paths[i] in u
    requires forall i :: 0 <= i < |paths| ==> MissedLines(u[paths[i]]) == {} || CrateOf(paths[i]) in crates
    ensures MissedAmong(u, paths, crates) <= Total(u, paths) - Covered(u, paths)
    ensures MissedAmong(u, paths, crates) == Total(u, paths) - Covered(u, paths)
       <==> forall i :: 0 <= i < |paths| ==> NegativeLines(u[paths[i]]) == {}
  {
    if paths != [] {
      SplitLines(u[paths[0]]);
      hide MissedLines, NegativeLines, CoveredLines, CrateOf;
      Partitioned(u, paths[1..], crates);
      assert (forall i :: 0 <= i < |paths| ==> NegativeLines(u[paths[i]]) == {})
        <==> NegativeLines(u[paths[0]]) == {} && forall i :: 0 <= i < |paths[1..]| ==> NegativeLines(u[paths[1..][i]]) == {} by {
        forall i | 0 < i < |paths| ensures paths[i] == paths[1..][i - 1] {}
      }
    }
  }

  lemma SplitLines(s: Source)
    ensures |s.lines| == |CoveredLines(s)| + |MissedLines(s)| + |NegativeLines(s)|
    ensures |NegativeLines(s)| == 0 <==> NegativeLines(s) == {}
    ensures |MissedLines(s)| == 0 <==> MissedLines(s) == {}
  {
    var a, b, c := CoveredLines(s), MissedLines(s), NegativeLines(s);
    assert a + b + c == s.lines.Keys;
    assert a !! b && (a + b) !! c;
  }

  /** Rows that list the entries of a map, each once. */
  ghost predicate ListsItems(rows: seq<(string, nat)>, missed: map<string, nat>) {
    && (forall i, j :: 0 <= i < j < |rows| ==> rows[i].0 != rows[j].0)
    && (forall i :: 0 <= i < |rows| ==> rows[i].0 in missed && missed[rows[i].0] == rows[i].1)
    && CratesOf(rows) == missed.Keys
  }

  lemma ItemsListed(rows: seq<(string, nat)>, missed: map<string, nat>)
    requires Lists(missed.Items, rows)
    ensures ListsItems(rows, missed)
  {
    forall i | 0 <= i < |rows| ensures rows[i].0 in missed && missed[rows[i].0] == rows[i].1 {
      assert rows[i] in rows && rows[i] in missed.Items;
    }
    forall crate | crate in missed ensures crate in CratesOf(rows) {
      assert (crate, missed[crate]) in missed.Items && (crate, missed[crate]) in rows;
      var i :| 0 <= i < |rows| && rows[i] == (crate, missed[crate]);
      assert rows[i].0 in CratesOf(rows);
    }
  }

  lemma RankedCounts(missed: map<string, nat>, u: Union, paths: seq<string>)
    requires (forall i :: 0 <= i < |paths| ==> paths[i] in u) && CountsMissed(missed, u, paths)
    ensures RowsCount(Ranked(missed), u, paths) && CratesOf(Ranked(missed)) == missed.Keys
  {
    hide MissedIn, RowLe, Sorted;
    RowOrder();
    SortedLists(missed.Items, RowLe);
    var rows := Ranked(missed);
    ItemsListed(rows, missed);
    hide Lists, CratesOf, Ranked;
    forall i | 0 <= i < |rows| ensures rows[i].1 == MissedIn(u, paths, rows[i].0) {
      assert GetOr(missed, rows[i].0, 0) == MissedIn(u, paths, rows[i].0);
    }
  }

  lemma {:induction false} MissedAtLeast(u: Union, paths: seq<string>, i: nat)
    requires (forall k :: 0 <= k < |paths| ==> paths[k] in u) && i < |paths|
    ensures MissedIn(u, paths, CrateOf(paths[i])) >= |MissedLines(u[paths[i]])|
  {
    hide CrateOf, MissedLines;
    if i > 0 { MissedAtLeast(u, paths[1..], i - 1); }
  }

  /**
    The missed lines listed by crate add up to the total minus the covered exactly when no line
    has a negative count; the list is ordered by missed lines, most first, then by name.
   */
  lemma MissedAddsUp(missed: map<string, nat>, u: Union, paths: seq<string>)
    requires (forall i :: 0 <= i < |paths| ==> paths[i] in u) && CountsMissed(missed, u, paths)
    ensures RowSum(Ranked(missed)) == Total(u, paths) - Covered(u, paths)
       <==> forall i :: 0 <= i < |paths| ==> NegativeLines(u[paths[i]]) == {}
    ensures forall i, j :: 0 <= i < j < |Ranked(missed)| ==>
      (var a, b := Ranked(missed)[i], Ranked(missed)[j]; a.1 > b.1 || (a.1 == b.1 && a.0 != b.0 && TextLe(a.0, b.0)))
  {
    RankedCounts(missed, u, paths);
    RowOrder();
    SortedLists(missed.Items, RowLe);
    hide RowLe, Sorted, MissedIn, CrateOf, MissedLines, NegativeLines, CratesOf;
    RowsSum(Ranked(missed), u, paths);
    forall i | 0 <= i < |paths| ensures MissedLines(u[paths[i]]) == {} || CrateOf(paths[i]) in missed.Keys {
      MissedAtLeast(u, paths, i);
      SplitLines(u[paths[i]]);
      assert GetOr(missed, CrateOf(paths[i]), 0) == MissedIn(u, paths, CrateOf(paths[i]));
    }
    Partitioned(u, paths, missed.Keys);
  }

  /** One line with a negative count is neither covered nor missed, so the rows do not add up. */
  lemma NegativeLineIsNowhere(u: Union)
    requires u == map["f" := NEW_SOURCE.(lines := map[1 := -1])]
    ensures CountsMissed(map[], u, ["f"]) && RowSum(Ranked(map[])) != Total(u, ["f"]) - Covered(u, ["f"])
  {
    assert 1 in NegativeLines(u["f"]);
    assert MissedLines(u["f"]) == {} && ["f"][1..] == [];
    hide CrateOf;
    assert u["f"].lines == map[1 := -1];
    forall crate ensures MissedIn(u, ["f"], crate) == 0 {
      assert MissedAmong(u, [], {crate}) == 0;
      assert |MissedLines(u["f"])| == 0;
    }
    MissedAddsUp(map[], u, ["f"]);
  }
}
