/** The lines of one source file as the three grades count them. */
module LcovGrades {
  import opened Lcov
  import opened LcovRender
  import opened LcovTotals
  import opened Sorting

  ghost predicate NoRepeats(lines: seq<int>) { forall i, j :: 0 <= i < j < |lines| ==> lines[i] != lines[j] }

  function Instrumented(s: Source, lines: seq<int>): set<int> { set line | line in lines && line in s.lines }

  function Hit(s: Source, lines: seq<int>): set<int> { set line | line in lines && line in s.lines && s.lines[line] > 0 }

  /** The changed lines that were measured and not hit, in order. */
  function Unhit(s: Source, lines: seq<int>): seq<int> {
    if lines == [] then []
    else
      var last := lines[|lines| - 1];
      Unhit(s, lines[..|lines| - 1]) + if last in s.lines && s.lines[last] <= 0 then [last] else []
  }

  lemma OneMoreLine(s: Source, lines: seq<int>, i: nat)
    requires i < |lines| && NoRepeats(lines)
    ensures lines[i] !in Instrumented(s, lines[..i]) && lines[i] !in Hit(s, lines[..i])
    ensures Unhit(s, lines[..i + 1]) == Unhit(s, lines[..i]) + if lines[i] in s.lines && s.lines[lines[i]] <= 0 then [lines[i]] else []
    ensures Instrumented(s, lines[..i + 1]) == Instrumented(s, lines[..i]) + (if lines[i] in s.lines then {lines[i]} else {})
    ensures Hit(s, lines[..i + 1]) == Hit(s, lines[..i]) + (if lines[i] in s.lines && s.lines[lines[i]] > 0 then {lines[i]} else {})
  {
    assert lines[..i + 1] == lines[..i] + [lines[i]] && lines[..i + 1][..i] == lines[..i];
    assert lines[i] !in lines[..i];
  }

  lemma NoLines(s: Source)
    ensures Instrumented(s, []) == {} && Hit(s, []) == {} && Unhit(s, []) == []
  {
  }

  /** The patch grade's loop over the changed lines of one measured file. */
  method GradeLines(s: Source, lines: seq<int>) returns (covered: nat, total: nat, unhit: seq<int>)
    requires NoRepeats(lines)
    ensures covered == |Hit(s, lines)| && total == |Instrumented(s, lines)| && unhit == Unhit(s, lines)
    ensures covered + |unhit| == total
  {
    NoLines(s);
    hide Instrumented, Hit, Unhit, NoRepeats;
    covered, total, unhit := 0, 0, [];
    assert lines[..0] == [];
    for i := 0 to |lines|
      invariant covered == |Hit(s, lines[..i])| && total == |Instrumented(s, lines[..i])| && unhit == Unhit(s, lines[..i])
      invariant covered + |unhit| == total
    {
      OneMoreLine(s, lines, i);
      var line := lines[i];
      if line in s.lines {
        total := total + 1;
        if s.lines[line] > 0 { covered := covered + 1; } else { unhit := unhit + [line]; }
      }
    }
    assert lines[..|lines|] == lines;
  }

  /** What the per-file grade counts as covered: every line whose count is not zero. */
  function FileCovered(s: Source): int { |s.lines| - |MissedLines(s)| }

  /**
    The per-file grade counts the covered and the negative lines, so it agrees with the totals, and
    with a patch of all the file's lines, exactly when no line has a negative count.
   */
  lemma GradesAgree(s: Source, lines: seq<int>)
    requires Lists(s.lines.Keys, lines)
    ensures |Instrumented(s, lines)| == |s.lines| && |Hit(s, lines)| == |CoveredLines(s)|
    ensures FileCovered(s) == |Hit(s, lines)| + |NegativeLines(s)|
    ensures FileCovered(s) == |CoveredLines(s)| <==> NegativeLines(s) == {}
  {
    SplitLines(s);
    assert Instrumented(s, lines) == s.lines.Keys;
    assert Hit(s, lines) == CoveredLines(s);
  }

  /** A line with a negative count is covered to the per-file grade and unhit to the patch grade. */
  lemma NegativeLineSplitsGrades(s: Source)
    requires s == NEW_SOURCE.(lines := map[1 := -1])
    ensures FileCovered(s) == 1 && Hit(s, [1]) == {} && Unhit(s, [1]) == [1]
  {
    assert s.lines.Keys == {1} && MissedLines(s) == {};
    assert [1][..0] == [];
  }
}
