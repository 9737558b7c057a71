/** The sorted listing of a finite set under a total order. */
module Sorting {
  ghost predicate TotalOrder<T(!new)>(le: (T, T) -> bool) {
    && (forall x :: le(x, x))
    && (forall x, y :: le(x, y) || le(y, x))
    && (forall x, y :: le(x, y) && le(y, x) ==> x == y)
    && (forall x, y, z :: le(x, y) && le(y, z) ==> le(x, z))
  }

  lemma {:induction false} LeastExists<T(!new)>(s: set<T>, le: (T, T) -> bool) returns (least: T)
    requires s != {} && TotalOrder(le)
    ensures least in s && forall y :: y in s ==> le(least, y)
    decreases |s|
  {
    least :| least in s;
    if s != {least} {
      var other := LeastExists(s - {least}, le);
      if le(other, least) {
        forall y | y in s ensures le(other, y) {
          if y != least { assert y in s - {least}; }
        }
        least := other;
      } else {
        forall y | y in s ensures le(least, y) {
          if y != least {
            assert y in s - {least};
            assert le(least, other) && le(other, y);
          }
        }
      }
    }
  }

  ghost predicate Least<T>(s: set<T>, le: (T, T) -> bool, x: T) {
    x in s && forall y :: y in s ==> le(x, y)
  }

  lemma HasLeast<T(!new)>(s: set<T>, le: (T, T) -> bool)
    requires s != {} && TotalOrder(le)
    ensures exists x :: Least(s, le, x)
  {
    var x := LeastExists(s, le);
    assert Least(s, le, x);
  }

  /** Lists every element once, in order. */
  ghost predicate Lists<T(!new)>(s: set<T>, list: seq<T>) {
    && (forall i, j :: 0 <= i < j < |list| ==> list[i] != list[j])
    && (forall x :: x in list <==> x in s)
  }

  ghost function Sorted<T(!new)>(s: set<T>, le: (T, T) -> bool): seq<T>
    requires TotalOrder(le)
    decreases |s|
  {
    if s == {} then []
    else
      HasLeast(s, le);
      var least :| Least(s, le, least);
      [least] + Sorted(s - {least}, le)
  }

  lemma {:induction false} SortedLists<T(!new)>(s: set<T>, le: (T, T) -> bool)
    requires TotalOrder(le)
    ensures Lists(s, Sorted(s, le)) && |Sorted(s, le)| == |s|
    ensures forall i, j :: 0 <= i < j < |s| ==> le(Sorted(s, le)[i], Sorted(s, le)[j])
    decreases |s|
  {
    if s != {} {
      var list := Sorted(s, le);
      var rest := s - {list[0]};
      assert list == [list[0]] + Sorted(rest, le);
      SortedLists(rest, le);
      forall i, j | 0 <= i < j < |list| ensures list[i] != list[j] && le(list[i], list[j]) {
        assert list[j] == Sorted(rest, le)[j - 1] && list[j] in Sorted(rest, le);
        if i > 0 { assert list[i] == Sorted(rest, le)[i - 1]; }
      }
      forall x ensures x in list <==> x in s {
        if x != list[0] { assert x in list <==> x in Sorted(rest, le); }
      }
    }
  }

  // ---------------------------------------------------------------- orders

  predicate IntLe(a: int, b: int) { a <= b }

  /** Texts compare character by character. */
  predicate TextLe(a: string, b: string) {
    a == "" || (b != "" && (a[0] < b[0] || (a[0] == b[0] && TextLe(a[1..], b[1..]))))
  }

  lemma {:induction false} TextLeReflexive(a: string)
    ensures TextLe(a, a)
  {
    if a != "" { TextLeReflexive(a[1..]); }
  }

  lemma {:induction false} TextLeTotal(a: string, b: string)
    ensures TextLe(a, b) || TextLe(b, a)
    ensures TextLe(a, b) && TextLe(b, a) ==> a == b
  {
    if a != "" && b != "" {
      TextLeTotal(a[1..], b[1..]);
      assert a == [a[0]] + a[1..] && b == [b[0]] + b[1..];
    }
  }

  lemma {:induction false} TextLeTransitive(a: string, b: string, c: string)
    ensures TextLe(a, b) && TextLe(b, c) ==> TextLe(a, c)
  {
    if a != "" && b != "" && c != "" { TextLeTransitive(a[1..], b[1..], c[1..]); }
  }

  lemma TextOrder()
    ensures TotalOrder(TextLe)
  {
    forall x ensures TextLe(x, x) { TextLeReflexive(x); }
    forall x, y ensures (TextLe(x, y) || TextLe(y, x)) && (TextLe(x, y) && TextLe(y, x) ==> x == y) { TextLeTotal(x, y); }
    forall x, y, z | TextLe(x, y) && TextLe(y, z) ensures TextLe(x, z) { TextLeTransitive(x, y, z); }
  }

  predicate TripleLe(a: (int, int, int), b: (int, int, int)) {
    a.0 < b.0 || (a.0 == b.0 && (a.1 < b.1 || (a.1 == b.1 && a.2 <= b.2)))
  }

  lemma NumberOrders()
    ensures TotalOrder(IntLe) && TotalOrder(TripleLe)
  {
  }

  /** Names compare by the line they are declared at, then by name. */
  predicate DeclaredLe(lines: map<string, int>, a: string, b: string) {
    var x, y := if a in lines then lines[a] else 0, if b in lines then lines[b] else 0;
    x < y || (x == y && TextLe(a, b))
  }

  lemma DeclaredOrder(lines: map<string, int>)
    ensures TotalOrder((a: string, b: string) => DeclaredLe(lines, a, b))
  {
    TextOrder();
  }
}
