/** Splitting a text at every occurrence of one character, and joining the pieces again. */
module Splitting {
  function Split(c: char, s: string): (pieces: seq<string>)
    ensures |pieces| >= 1
  {
    if s == "" then [""]
    else
      var rest := Split(c, s[1..]);
      if s[0] == c then [""] + rest else [[s[0]] + rest[0]] + rest[1..]
  }

  function Join(c: char, pieces: seq<string>): string
    requires |pieces| >= 1
  {
    if |pieces| == 1 then pieces[0] else pieces[0] + [c] + Join(c, pieces[1..])
  }

  lemma {:induction false} PiecesAvoid(c: char, s: string)
    ensures forall i :: 0 <= i < |Split(c, s)| ==> c !in Split(c, s)[i]
  {
    if s != "" {
      PiecesAvoid(c, s[1..]);
    }
  }

  /** Joining undoes splitting. */
  lemma {:induction false} JoinOfSplit(c: char, s: string)
    ensures Join(c, Split(c, s)) == s
  {
    if s != "" {
      var rest := Split(c, s[1..]);
      JoinOfSplit(c, s[1..]);
      if s[0] == c {
        assert ([""] + rest)[1..] == rest;
        assert s == "" + [c] + s[1..];
      } else {
        var pieces := [[s[0]] + rest[0]] + rest[1..];
        assert pieces[1..] == rest[1..];
        assert s == [s[0]] + s[1..];
      }
    }
  }

  lemma {:induction false} SplitWhole(c: char, s: string)
    requires c !in s
    ensures Split(c, s) == [s]
  {
    if s != "" {
      SplitWhole(c, s[1..]);
      assert [s[0]] + s[1..] == s;
    }
  }

  lemma {:induction false} SplitFirst(c: char, piece: string, rest: string)
    requires c !in piece
    ensures Split(c, piece + [c] + rest) == [piece] + Split(c, rest)
  {
    var all := piece + [c] + rest;
    if piece == "" {
      assert all[1..] == rest;
    } else {
      SplitFirst(c, piece[1..], rest);
      assert all[1..] == piece[1..] + [c] + rest;
      assert [piece[0]] + piece[1..] == piece;
      assert ([piece[1..]] + Split(c, rest))[1..] == Split(c, rest);
    }
  }

  /** Splitting undoes joining, for pieces without the character. */
  lemma {:induction false} SplitOfJoin(c: char, pieces: seq<string>)
    requires |pieces| >= 1 && forall i :: 0 <= i < |pieces| ==> c !in pieces[i]
    ensures Split(c, Join(c, pieces)) == pieces
  {
    if |pieces| == 1 {
      SplitWhole(c, pieces[0]);
    } else {
      SplitOfJoin(c, pieces[1..]);
      SplitFirst(c, pieces[0], Join(c, pieces[1..]));
      assert [pieces[0]] + pieces[1..] == pieces;
    }
  }
}
