/** The text operations of the coverage script: line splitting, stripping and reading integers. */
module PyText {
  import opened Options
  import opened Decimals

  /** Where a text breaks into lines. */
  predicate IsBreak(c: char) {
    || '\U{000A}' <= c <= '\U{000D}' || '\U{001C}' <= c <= '\U{001E}' || c == '\U{0085}' || c == '\U{2028}' || c == '\U{2029}'
  }

  predicate IsSpace(c: char) {
    || IsBreak(c) || c == '\t' || c == ' ' || c == '\U{001F}' || c == '\U{00A0}' || c == '\U{1680}' || '\U{2000}' <= c <= '\U{200A}'
    || c == '\U{202F}' || c == '\U{205F}' || c == '\U{3000}'
  }

  predicate NoBreaks(s: string) { forall i :: 0 <= i < |s| ==> !IsBreak(s[i]) }

  /** A carriage return and a line feed break once; a final break starts no further line. */
  function Lines(s: string): seq<string>
    decreases |s|
  {
    if s == "" then []
    else if IsBreak(s[0]) then [""] + Lines(if |s| > 1 && s[0] == '\r' && s[1] == '\n' then s[2..] else s[1..])
    else
      var rest := Lines(s[1..]);
      if rest == [] then [[s[0]]] else [[s[0]] + rest[0]] + rest[1..]
  }

  lemma {:induction false} LinesHaveNoBreaks(s: string)
    ensures forall i :: 0 <= i < |Lines(s)| ==> NoBreaks(Lines(s)[i])
    decreases |s|
  {
    if s != "" {
      if IsBreak(s[0]) {
        LinesHaveNoBreaks(if |s| > 1 && s[0] == '\r' && s[1] == '\n' then s[2..] else s[1..]);
      } else {
        LinesHaveNoBreaks(s[1..]);
      }
    }
  }

  /** The text of a list of lines, each ended by a line feed. */
  function Text(lines: seq<string>): string {
    if lines == [] then "" else lines[0] + "\n" + Text(lines[1..])
  }

  lemma {:induction false} FirstLine(line: string, rest: string)
    requires NoBreaks(line)
    ensures Lines(line + "\n" + rest) == [line] + Lines(rest)
    decreases |line|
  {
    var all := line + "\n" + rest;
    if line == "" {
      assert all[0] == '\n' && all[1..] == rest;
    } else {
      FirstLine(line[1..], rest);
      assert all[1..] == line[1..] + "\n" + rest;
      assert [line[0]] + line[1..] == line;
      assert ([line[1..]] + Lines(rest))[1..] == Lines(rest);
    }
  }

  lemma {:induction false} LinesOfText(lines: seq<string>)
    requires forall i :: 0 <= i < |lines| ==> NoBreaks(lines[i])
    ensures Lines(Text(lines)) == lines
  {
    if lines != [] {
      LinesOfText(lines[1..]);
      FirstLine(lines[0], Text(lines[1..]));
      assert [lines[0]] + lines[1..] == lines;
    }
  }

  function StripLeft(s: string): string {
    if s != "" && IsSpace(s[0]) then StripLeft(s[1..]) else s
  }

  function StripRight(s: string): string {
    if s != "" && IsSpace(s[|s| - 1]) then StripRight(s[..|s| - 1]) else s
  }

  function Strip(s: string): string { StripRight(StripLeft(s)) }

  /** No white space at the end. */
  predicate EndsSolid(s: string) { s == "" || !IsSpace(s[|s| - 1]) }

  lemma {:induction false} StripRightSolid(s: string)
    ensures EndsSolid(StripRight(s)) && (NoBreaks(s) ==> NoBreaks(StripRight(s)))
  {
    if s != "" && IsSpace(s[|s| - 1]) { StripRightSolid(s[..|s| - 1]); }
  }

  lemma {:induction false} StripLeftKeeps(s: string)
    ensures NoBreaks(s) ==> NoBreaks(StripLeft(s))
  {
    if s != "" && IsSpace(s[0]) { StripLeftKeeps(s[1..]); }
  }

  lemma StripSolid(s: string)
    ensures EndsSolid(Strip(s)) && (NoBreaks(s) ==> NoBreaks(Strip(s)))
  {
    StripLeftKeeps(s);
    StripRightSolid(StripLeft(s));
  }

  predicate AllSpace(s: string) { forall i :: 0 <= i < |s| ==> IsSpace(s[i]) }

  lemma {:induction false} StripLeftIs(s: string)
    ensures var t := StripLeft(s);
      |t| <= |s| && t == s[|s| - |t|..] && AllSpace(s[..|s| - |t|]) && (t == "" || !IsSpace(t[0]))
  {
    if s != "" && IsSpace(s[0]) {
      StripLeftIs(s[1..]);
      var t := StripLeft(s);
      assert s[..|s| - |t|] == [s[0]] + s[1..][..|s| - 1 - |t|];
    }
  }

  lemma {:induction false} StripRightIs(s: string)
    ensures var t := StripRight(s);
      |t| <= |s| && t == s[..|t|] && AllSpace(s[|t|..])
  {
    if s != "" && IsSpace(s[|s| - 1]) {
      var init := s[..|s| - 1];
      StripRightIs(init);
      var t := StripRight(s);
      assert s[|t|..] == init[|t|..] + [s[|s| - 1]];
    }
  }

  /** Stripping takes away white space at both ends, all of it there, and nothing else. */
  lemma StripExactly(s: string) returns (i: nat, j: nat)
    ensures i <= j <= |s| && Strip(s) == s[i..j] && AllSpace(s[..i]) && AllSpace(s[j..])
    ensures Strip(s) == "" || (!IsSpace(Strip(s)[0]) && !IsSpace(Strip(s)[|Strip(s)| - 1]))
  {
    StripLeftIs(s);
    StripRightIs(StripLeft(s));
    StripSolid(s);
    i := |s| - |StripLeft(s)|;
    j := i + |Strip(s)|;
    hide StripLeft, StripRight;
  }

  // ---------------------------------------------------------------- integers

  /** Digits with single underscores between them. */
  function ReadDigits(s: string, value: nat, afterDigit: bool): Option<int> {
    if s == "" then (if afterDigit then Some(value) else None)
    else if IsDigit(s[0]) then ReadDigits(s[1..], value * 10 + DigitValue(s[0]), true)
    else if s[0] == '_' && afterDigit then ReadDigits(s[1..], value, false)
    else None
  }

  function ReadInt(text: string): Option<int> {
    var s := Strip(text);
    if s != "" && s[0] == '-' then
      var digits := ReadDigits(s[1..], 0, false);
      if digits.Some? then Some(-digits.value) else None
    else ReadDigits(if s != "" && s[0] == '+' then s[1..] else s, 0, false)
  }

  /** A digit, or an underscore that follows a digit. */
  predicate Numeric(s: string, i: nat)
    requires 1 <= i < |s|
  {
    IsDigit(s[i]) || (s[i] == '_' && s[i - 1] != '_')
  }

  /** Digits and single underscores that stand between digits. */
  predicate IsNumeral(s: string) {
    s != "" && IsDigit(s[0]) && IsDigit(s[|s| - 1]) && forall i :: 1 <= i < |s| ==> Numeric(s, i)
  }

  function DigitsOf(s: string): (digits: string)
    ensures AllDigits(digits)
  {
    if s == "" then "" else (if IsDigit(s[0]) then [s[0]] else "") + DigitsOf(s[1..])
  }

  /** What may follow a digit or, without one, must begin a numeral. */
  predicate Continues(s: string, afterDigit: bool) {
    if s == "" then afterDigit
    else
      && IsDigit(s[|s| - 1]) && (IsDigit(s[0]) || (s[0] == '_' && afterDigit))
      && forall i :: 1 <= i < |s| ==> Numeric(s, i)
  }

  lemma {:induction false} ReadDigitsExactly(s: string, value: nat, afterDigit: bool)
    ensures ReadDigits(s, value, afterDigit) == if Continues(s, afterDigit) then Some(ValueOf(DigitsOf(s), value)) else None
    decreases |s|
  {
    if s != "" {
      var rest := s[1..];
      if IsDigit(s[0]) {
        ReadDigitsExactly(rest, value * 10 + DigitValue(s[0]), true);
        assert ([s[0]] + DigitsOf(rest))[1..] == DigitsOf(rest);
        ContinuesRest(s, afterDigit);
      } else if s[0] == '_' && afterDigit {
        ReadDigitsExactly(rest, value, false);
        assert "" + DigitsOf(rest) == DigitsOf(rest);
        ContinuesRest(s, afterDigit);
      }
    }
  }

  lemma ContinuesRest(s: string, afterDigit: bool)
    requires s != "" && (IsDigit(s[0]) || (s[0] == '_' && afterDigit))
    ensures Continues(s, afterDigit) <==> Continues(s[1..], IsDigit(s[0]))
  {
    var rest := s[1..];
    forall i | 1 <= i < |rest| ensures Numeric(rest, i) == Numeric(s, i + 1) {}
    if rest != "" {
      assert rest[0] == s[1] && rest[|rest| - 1] == s[|s| - 1];
      if Continues(s, afterDigit) { assert Numeric(s, 1); }
      if Continues(rest, IsDigit(s[0])) {
        forall i | 1 <= i < |s| ensures Numeric(s, i) {
          if i > 1 { assert Numeric(rest, i - 1); }
        }
      }
    }
  }

  /** A text is an integer exactly when it is, but for white space around it, a numeral with at most one sign before it; and it is that numeral's value. */
  lemma IntegersExactly(text: string)
    ensures var s := Strip(text);
      var signed := s != "" && (s[0] == '-' || s[0] == '+');
      var numeral := if signed then s[1..] else s;
      ReadInt(text) ==
        if !IsNumeral(numeral) then None
        else
          var value: int := ValueOf(DigitsOf(numeral), 0);
          Some(if signed && s[0] == '-' then -value else value)
  {
    var s := Strip(text);
    var numeral := if s != "" && (s[0] == '-' || s[0] == '+') then s[1..] else s;
    ReadDigitsExactly(numeral, 0, false);
    NumeralsContinue(numeral);
  }

  lemma NumeralsContinue(s: string)
    ensures IsNumeral(s) <==> Continues(s, false)
  {
  }

  function ShowInt(n: int): string { if n < 0 then "-" + Decimal(-n) else Decimal(n) }

  lemma {:induction false} ReadAllDigits(s: string, value: nat, afterDigit: bool)
    requires AllDigits(s) && (s != "" || afterDigit)
    ensures ReadDigits(s, value, afterDigit) == Some(ValueOf(s, value))
    decreases |s|
  {
    if s != "" { ReadAllDigits(s[1..], value * 10 + DigitValue(s[0]), true); }
  }

  /** Printed integers contain only digits and perhaps a sign. */
  lemma ShowIntChars(n: int)
    ensures var s := ShowInt(n);
      && s != "" && EndsSolid(s) && !IsSpace(s[0])
      && forall i :: 0 <= i < |s| ==> IsDigit(s[i]) || s[i] == '-'
  {
    DecimalDigits(if n < 0 then -n else n);
  }

  lemma StripNothing(s: string)
    requires s != "" && !IsSpace(s[0]) && EndsSolid(s)
    ensures Strip(s) == s
  {
  }

  /** Reading an integer undoes printing it. */
  lemma ReadShownInt(n: int)
    ensures ReadInt(ShowInt(n)) == Some(n)
  {
    ShowIntChars(n);
    StripNothing(ShowInt(n));
    var m := if n < 0 then -n else n;
    DecimalDigits(m);
    ValueOfDecimal(m);
    ReadAllDigits(Decimal(m), 0, false);
    if n < 0 {
      assert ShowInt(n)[1..] == Decimal(m);
    } else {
      assert ShowInt(n)[0] == Decimal(m)[0] && IsDigit(Decimal(m)[0]);
    }
  }
}
