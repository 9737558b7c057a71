/** One page of charges, grouped by the work they paid for. */
module Billing {
  import opened Options
  import opened OrderedMaps
  import opened Permutations

  const RECEIVE := "receive"
  const STAGE := "stage"
  const AUTHORING := "authoring"
  const NUL := '\U{0000}'

  /** An instant as it was written; `ms` is None when its text names no calendar date. */
  datatype Instant = Instant(text: string, ms: Option<int>)

  datatype Row = Row(
    fleetId: Option<string>, eventId: Option<string>, attempt: Option<string>, posture: Option<string>, model: Option<string>,
    recordedAt: Option<Instant>, chargeType: string, debit: nat, tokensIn: Option<nat>, tokensOut: Option<nat>)

  datatype Summary = Summary(
    fleetId: Option<string>, eventId: Option<string>, posture: Option<string>, model: Option<string>,
    attempt: Option<string>, setup: Option<nat>, recordedAt: Option<Instant>, receive: nat, stage: nat,
    tokensIn: Option<nat>, tokensOut: Option<nat>, total: nat)

  function OrEmpty(s: Option<string>): string { if s.Some? then s.value else "" }

  function OrZero(n: Option<nat>): nat { if n.Some? then n.value else 0 }

  function GroupKey(r: Row): string {
    if r.attempt.Some? then AUTHORING + [NUL] + r.attempt.value else OrEmpty(r.fleetId) + [NUL] + OrEmpty(r.eventId)
  }

  function AddCount(a: Option<nat>, b: Option<nat>): Option<nat> {
    if a.None? && b.None? then None else Some(OrZero(a) + OrZero(b))
  }

  /** A debit goes to its kind's column, when it has one, and always to the total. */
  function Charged(e: Summary, r: Row): Summary {
    var kept :=
      if r.chargeType == RECEIVE then e.(receive := e.receive + r.debit)
      else if r.chargeType == STAGE then
        e.(stage := e.stage + r.debit, tokensIn := AddCount(e.tokensIn, r.tokensIn), tokensOut := AddCount(e.tokensOut, r.tokensOut))
      else if r.chargeType == AUTHORING then
        e.(attempt := if r.attempt.Some? then r.attempt else e.attempt, setup := Some(OrZero(e.setup) + r.debit),
           tokensIn := AddCount(e.tokensIn, r.tokensIn), tokensOut := AddCount(e.tokensOut, r.tokensOut))
      else e;
    kept.(total := kept.total + r.debit)
  }

  /** Comparing with an instant that names no date is never "before". */
  predicate Earlier(a: Instant, b: Instant) { a.ms.Some? && b.ms.Some? && a.ms.value < b.ms.value }

  function PinEarliest(known: Option<Instant>, at: Option<Instant>): Option<Instant> {
    if at.Some? && (known.None? || Earlier(at.value, known.value)) then at else known
  }

  function NewSummary(r: Row): Summary {
    Summary(r.fleetId, r.eventId, r.posture, r.model, None, None, r.recordedAt, 0, 0, None, None, 0)
  }

  function WithRow(e: Summary, r: Row): Summary {
    var charged := Charged(e, r);
    charged.(recordedAt := PinEarliest(charged.recordedAt, r.recordedAt))
  }

  type Groups = OrderedMap<string, Summary>

  function AddRow(groups: Groups, r: Row): Groups {
    var entry := Lookup(groups, GroupKey(r));
    Put(groups, GroupKey(r), WithRow(if entry.Some? then entry.value else NewSummary(r), r))
  }

  function Grouped(rows: seq<Row>): Groups {
    if rows == [] then [] else AddRow(Grouped(rows[..|rows| - 1]), rows[|rows| - 1])
  }

  // ---------------------------------------------------------------- what a group's entry says

  function RowsOf(rows: seq<Row>, key: string): seq<Row> {
    if rows == [] then []
    else
      var last := rows[|rows| - 1];
      RowsOf(rows[..|rows| - 1], key) + if GroupKey(last) == key then [last] else []
  }

  function Debits(rows: seq<Row>): nat {
    if rows == [] then 0 else Debits(rows[..|rows| - 1]) + rows[|rows| - 1].debit
  }

  function DebitsOf(rows: seq<Row>, kind: string): nat {
    if rows == [] then 0
    else
      var last := rows[|rows| - 1];
      DebitsOf(rows[..|rows| - 1], kind) + if last.chargeType == kind then last.debit else 0
  }

  predicate CountsTokens(r: Row) { r.chargeType == "stage" || r.chargeType == "authoring" }

  function SumIn(rows: seq<Row>): nat {
    if rows == [] then 0
    else
      var last := rows[|rows| - 1];
      SumIn(rows[..|rows| - 1]) + if CountsTokens(last) && last.tokensIn.Some? then last.tokensIn.value else 0
  }

  function SumOut(rows: seq<Row>): nat {
    if rows == [] then 0
    else
      var last := rows[|rows| - 1];
      SumOut(rows[..|rows| - 1]) + if CountsTokens(last) && last.tokensOut.Some? then last.tokensOut.value else 0
  }

  predicate SomeIn(rows: seq<Row>) { exists i :: 0 <= i < |rows| && CountsTokens(rows[i]) && rows[i].tokensIn.Some? }

  predicate SomeOut(rows: seq<Row>) { exists i :: 0 <= i < |rows| && CountsTokens(rows[i]) && rows[i].tokensOut.Some? }

  /** The tokens of the rows that count them, or nothing when none of those says how many. */
  function TokensIn(rows: seq<Row>): Option<nat> { if SomeIn(rows) then Some(SumIn(rows)) else None }

  function TokensOut(rows: seq<Row>): Option<nat> { if SomeOut(rows) then Some(SumOut(rows)) else None }

  lemma {:induction false} NoTokens(rows: seq<Row>)
    ensures !SomeIn(rows) ==> SumIn(rows) == 0
    ensures !SomeOut(rows) ==> SumOut(rows) == 0
  {
    if rows != [] {
      var init := rows[..|rows| - 1];
      NoTokens(init);
      forall i | 0 <= i < |init| ensures init[i] == rows[i] {}
    }
  }

  lemma TokensNext(rows: seq<Row>, r: Row)
    ensures TokensIn(rows + [r]) == if CountsTokens(r) then AddCount(TokensIn(rows), r.tokensIn) else TokensIn(rows)
    ensures TokensOut(rows + [r]) == if CountsTokens(r) then AddCount(TokensOut(rows), r.tokensOut) else TokensOut(rows)
  {
    var all := rows + [r];
    assert all[..|rows|] == rows && all[|rows|] == r;
    NoTokens(rows);
    SomeNext(rows, r);
    hide SomeIn, SomeOut;
  }

  lemma SomeNext(rows: seq<Row>, r: Row)
    ensures SomeIn(rows + [r]) <==> SomeIn(rows) || (CountsTokens(r) && r.tokensIn.Some?)
    ensures SomeOut(rows + [r]) <==> SomeOut(rows) || (CountsTokens(r) && r.tokensOut.Some?)
  {
    var all := rows + [r];
    assert all[|rows|] == r;
    forall i | 0 <= i < |rows| ensures all[i] == rows[i] {}
    if SomeIn(rows) {
      var i :| 0 <= i < |rows| && CountsTokens(rows[i]) && rows[i].tokensIn.Some?;
      assert all[i].tokensIn.Some?;
    }
    if SomeOut(rows) {
      var i :| 0 <= i < |rows| && CountsTokens(rows[i]) && rows[i].tokensOut.Some?;
      assert all[i].tokensOut.Some?;
    }
  }

  /** The first instant the rows record. */
  function FirstRecorded(rows: seq<Row>): Option<Instant> {
    if rows == [] then None
    else
      var first := FirstRecorded(rows[..|rows| - 1]);
      if first.Some? then first else rows[|rows| - 1].recordedAt
  }

  predicate Dated(at: Option<Instant>) { at.Some? && at.value.ms.Some? }

  /** The earliest of the rows' instants, or the first when that one names no date. */
  ghost predicate Pinned(at: Option<Instant>, rows: seq<Row>) {
    var first := FirstRecorded(rows);
    && (first.None? ==> at.None?)
    && (first.Some? && first.value.ms.None? ==> at == first)
    && (first.Some? && first.value.ms.Some? ==>
          && at.Some? && at.value.ms.Some?
          && (exists i :: 0 <= i < |rows| && rows[i].recordedAt == at)
          && (forall i :: 0 <= i < |rows| && Dated(rows[i].recordedAt) ==> rows[i].recordedAt.value.ms.value >= at.value.ms.value))
  }

  predicate HasKind(rows: seq<Row>, kind: string) { exists i :: 0 <= i < |rows| && rows[i].chargeType == kind }

  /** The attempt a setup row names last. */
  function AttemptOf(rows: seq<Row>): Option<string> {
    if rows == [] then None
    else
      var last := rows[|rows| - 1];
      if last.chargeType == AUTHORING && last.attempt.Some? then last.attempt else AttemptOf(rows[..|rows| - 1])
  }

  ghost predicate Describes(e: Summary, rows: seq<Row>) {
    && rows != []
    && (e.fleetId, e.eventId, e.posture, e.model) == (rows[0].fleetId, rows[0].eventId, rows[0].posture, rows[0].model)
    && e.attempt == AttemptOf(rows)
    && (e.setup.Some? <==> HasKind(rows, "authoring"))
    && e.total == Debits(rows)
    && e.receive == DebitsOf(rows, "receive")
    && e.stage == DebitsOf(rows, "stage")
    && (match e.setup case Some(n) => n case None => 0) == DebitsOf(rows, "authoring")
    && e.tokensIn == TokensIn(rows)
    && e.tokensOut == TokensOut(rows)
    && Pinned(e.recordedAt, rows)
  }

  lemma {:induction false} NoneRecorded(rows: seq<Row>)
    ensures FirstRecorded(rows).None? ==> forall i :: 0 <= i < |rows| ==> rows[i].recordedAt.None?
  {
    if rows != [] { NoneRecorded(rows[..|rows| - 1]); }
  }

  lemma PinnedNext(at: Option<Instant>, rows: seq<Row>, r: Row)
    requires Pinned(at, rows)
    ensures Pinned(PinEarliest(at, r.recordedAt), rows + [r])
  {
    var all, next := rows + [r], PinEarliest(at, r.recordedAt);
    assert all[..|rows|] == rows;
    var first := FirstRecorded(all);
    NoneRecorded(rows);
    if first.Some? && first.value.ms.Some? {
      if next == r.recordedAt {
        assert all[|rows|].recordedAt == next;
      } else {
        var i :| 0 <= i < |rows| && rows[i].recordedAt == at;
        assert all[i].recordedAt == next;
      }
      forall i | 0 <= i < |all| && Dated(all[i].recordedAt) ensures all[i].recordedAt.value.ms.value >= next.value.ms.value {
        if i < |rows| { assert all[i] == rows[i]; }
      }
    }
  }

  lemma {:induction false} DebitsNext(rows: seq<Row>, r: Row)
    ensures Debits(rows + [r]) == Debits(rows) + r.debit
    ensures forall kind :: DebitsOf(rows + [r], kind) == DebitsOf(rows, kind) + if r.chargeType == kind then r.debit else 0
  {
    assert (rows + [r])[..|rows|] == rows;
  }

  lemma KindNext(rows: seq<Row>, r: Row, kind: string)
    ensures HasKind(rows + [r], kind) <==> HasKind(rows, kind) || r.chargeType == kind
    ensures AttemptOf(rows + [r]) == if r.chargeType == AUTHORING && r.attempt.Some? then r.attempt else AttemptOf(rows)
  {
    var all := rows + [r];
    assert all[..|rows|] == rows && all[|rows|] == r;
    if HasKind(rows, kind) {
      var i :| 0 <= i < |rows| && rows[i].chargeType == kind;
      assert all[i].chargeType == kind;
    }
  }

  lemma DescribesNext(e: Summary, rows: seq<Row>, r: Row)
    requires Describes(e, rows)
    ensures Describes(WithRow(e, r), rows + [r])
  {
    PinnedNext(e.recordedAt, rows, r);
    DebitsNext(rows, r);
    TokensNext(rows, r);
    KindNext(rows, r, AUTHORING);
    hide Pinned, Debits, DebitsOf, TokensIn, TokensOut, PinEarliest, HasKind, AttemptOf;
  }

  lemma PinnedFirst(r: Row)
    ensures Pinned(PinEarliest(r.recordedAt, r.recordedAt), [r])
  {
    var one := [r];
    assert one[..0] == [] && FirstRecorded(one) == r.recordedAt;
    if r.recordedAt.Some? { assert one[0].recordedAt == r.recordedAt; }
  }

  lemma DescribesFirst(r: Row)
    ensures Describes(WithRow(NewSummary(r), r), [r])
  {
    PinnedFirst(r);
    DebitsNext([], r);
    TokensNext([], r);
    KindNext([], r, AUTHORING);
    assert !HasKind([], AUTHORING) && AttemptOf([]) == None;
    assert Debits([]) == 0 && TokensIn([]) == None && TokensOut([]) == None && forall kind :: DebitsOf([], kind) == 0;
    assert [] + [r] == [r];
    hide Pinned, Debits, DebitsOf, TokensIn, TokensOut, PinEarliest, HasKind, AttemptOf;
  }

  /** Every group's entry sums its rows by kind, and a key has an entry exactly when some row has the key. */
  lemma {:induction false} GroupsDescribe(rows: seq<Row>, key: string)
    ensures var e := Lookup(Grouped(rows), key);
      (e.None? <==> RowsOf(rows, key) == []) && (e.Some? ==> Describes(e.value, RowsOf(rows, key)))
  {
    if rows != [] {
      var init, last := rows[..|rows| - 1], rows[|rows| - 1];
      GroupsDescribe(init, key);
      var before := Grouped(init);
      var entry := Lookup(before, GroupKey(last));
      LookupPut(before, GroupKey(last), WithRow(if entry.Some? then entry.value else NewSummary(last), last), key);
      hide Describes, WithRow, Lookup, Put;
      if key == GroupKey(last) {
        if entry.Some? { DescribesNext(entry.value, RowsOf(init, key), last); } else { DescribesFirst(last); }
        assert RowsOf(init, key) == [] ==> RowsOf(rows, key) == [last];
      } else {
        assert RowsOf(rows, key) == RowsOf(init, key);
      }
    }
  }

  /** Some row names a date, and the group's time names none or a later one. */
  ghost predicate PassesOver(at: Option<Instant>, rows: seq<Row>) {
    exists i :: 0 <= i < |rows| && Dated(rows[i].recordedAt) && (!Dated(at) || rows[i].recordedAt.value.ms.value < at.value.ms.value)
  }

  ghost predicate SomeDated(rows: seq<Row>) { exists i :: 0 <= i < |rows| && Dated(rows[i].recordedAt) }

  predicate FirstIsUndated(rows: seq<Row>) { FirstRecorded(rows).Some? && FirstRecorded(rows).value.ms.None? }

  lemma PinnedPassesOver(at: Option<Instant>, rows: seq<Row>)
    requires Pinned(at, rows)
    ensures PassesOver(at, rows) <==> FirstIsUndated(rows) && SomeDated(rows)
    ensures !PassesOver(at, rows) && SomeDated(rows) ==> exists i :: 0 <= i < |rows| && rows[i].recordedAt == at
  {
    NoneRecorded(rows);
    if FirstIsUndated(rows) && SomeDated(rows) {
      var i :| 0 <= i < |rows| && Dated(rows[i].recordedAt);
      assert !Dated(at);
    }
  }

  /**
    A group's time passes over a dated row, one that is earlier or that has no dated time to be
    compared with, exactly when the first instant its rows record names no date and some row's
    does. Otherwise, when any row is dated, the time is one of the rows' own and none is earlier.
   */
  lemma TimeIsEarliest(rows: seq<Row>, key: string)
    ensures var e, own := Lookup(Grouped(rows), key), RowsOf(rows, key);
      e.Some? ==>
        && (PassesOver(e.value.recordedAt, own) <==> FirstIsUndated(own) && SomeDated(own))
        && (!PassesOver(e.value.recordedAt, own) && SomeDated(own) ==> exists i :: 0 <= i < |own| && own[i].recordedAt == e.value.recordedAt)
  {
    GroupsDescribe(rows, key);
    var e, own := Lookup(Grouped(rows), key), RowsOf(rows, key);
    hide Grouped, RowsOf, Lookup, Pinned, PassesOver, SomeDated, FirstRecorded;
    if e.Some? { PinnedPassesOver(e.value.recordedAt, own); }
  }

  lemma OneMoreRow(rows: seq<Row>, r: Row, key: string)
    ensures FirstRecorded(rows + [r]) == if FirstRecorded(rows).Some? then FirstRecorded(rows) else r.recordedAt
    ensures RowsOf(rows + [r], key) == RowsOf(rows, key) + if GroupKey(r) == key then [r] else []
  {
    assert (rows + [r])[..|rows|] == rows;
  }

  /** An instant whose text has the right shape and names no date comes first, and a dated row of the same event is passed over. */
  lemma UndatedRowHidesDate(undated: Row, dated: Row)
    requires undated.recordedAt == Some(Instant("2026-13-01T00:00:00Z", None))
    requires dated.recordedAt == Some(Instant("2026-10-17T18:06:49Z", Some(1792260409000)))
    requires GroupKey(undated) == GroupKey(dated)
    ensures var e := Lookup(Grouped([undated, dated]), GroupKey(dated));
      e.Some? && e.value.recordedAt == undated.recordedAt && PassesOver(e.value.recordedAt, [undated, dated])
  {
    var one, rows, key := [undated], [undated, dated], GroupKey(dated);
    OneMoreRow([], undated, key);
    OneMoreRow(one, dated, key);
    assert [] + [undated] == one && one + [dated] == rows;
    assert Dated(rows[1].recordedAt) && FirstRecorded([]) == None && RowsOf([], key) == [];
    GroupsDescribe(rows, key);
    TimeIsEarliest(rows, key);
    hide Grouped, RowsOf, Lookup, FirstRecorded, GroupKey;
  }

  /** Debits by kind: the three columns and whatever kinds this client does not know add up to the total. */
  function Unlabelled(rows: seq<Row>): nat {
    if rows == [] then 0
    else
      var last := rows[|rows| - 1];
      Unlabelled(rows[..|rows| - 1]) + if last.chargeType in {RECEIVE, STAGE, AUTHORING} then 0 else last.debit
  }

  lemma {:induction false} KindsAddUp(rows: seq<Row>)
    ensures DebitsOf(rows, RECEIVE) + DebitsOf(rows, STAGE) + DebitsOf(rows, AUTHORING) + Unlabelled(rows) == Debits(rows)
    ensures Unlabelled(rows) == 0 <==> forall i :: 0 <= i < |rows| ==> rows[i].chargeType in {RECEIVE, STAGE, AUTHORING} || rows[i].debit == 0
  {
    if rows != [] {
      var init := rows[..|rows| - 1];
      KindsAddUp(init);
      forall i | 0 <= i < |init| ensures init[i] == rows[i] {}
    }
  }

  /** Receive, stage and setup never exceed a group's total, and equal it exactly when no unknown kind was charged. */
  lemma ColumnsWithinTotal(rows: seq<Row>, key: string)
    ensures var e, own := Lookup(Grouped(rows), key), RowsOf(rows, key);
      e.Some? ==>
        (var columns := e.value.receive + e.value.stage + OrZero(e.value.setup);
         && columns <= e.value.total
         && (columns == e.value.total <==> forall i :: 0 <= i < |own| ==> own[i].chargeType in {RECEIVE, STAGE, AUTHORING} || own[i].debit == 0))
  {
    GroupsDescribe(rows, key);
    KindsAddUp(RowsOf(rows, key));
  }

  // ---------------------------------------------------------------- conservation

  function Totals(groups: Groups): nat {
    if groups == [] then 0 else groups[0].value.total + Totals(groups[1..])
  }

  lemma {:induction false} TotalsPut(groups: Groups, key: string, e: Summary)
    ensures var known := Lookup(groups, key);
      Totals(Put(groups, key, e)) == Totals(groups) - (if known.Some? then known.value.total else 0) + e.total
  {
    if groups != [] {
      if groups[0].key != key {
        TotalsPut(groups[1..], key, e);
        assert Put(groups, key, e)[1..] == Put(groups[1..], key, e);
      } else {
        assert Put(groups, key, e)[1..] == groups[1..];
      }
    }
  }

  /** Nothing is lost: the totals of all groups add up to the debits of all rows. */
  lemma {:induction false} GroupsConserve(rows: seq<Row>)
    ensures Totals(Grouped(rows)) == Debits(rows)
  {
    if rows != [] {
      var init, last := rows[..|rows| - 1], rows[|rows| - 1];
      GroupsConserve(init);
      var entry := Lookup(Grouped(init), GroupKey(last));
      TotalsPut(Grouped(init), GroupKey(last), WithRow(if entry.Some? then entry.value else NewSummary(last), last));
    }
  }

  // ---------------------------------------------------------------- newest first

  function Moment(e: Summary): int {
    if e.recordedAt.Some? && e.recordedAt.value.ms.Some? then e.recordedAt.value.ms.value else 0
  }

  function Place(e: Summary, sorted: seq<Summary>): seq<Summary> {
    if sorted == [] then [e]
    else if Moment(e) >= Moment(sorted[0]) then [e] + sorted
    else [sorted[0]] + Place(e, sorted[1..])
  }

  /** The groups, newest first; groups of the same moment keep the order in which they appeared. */
  function NewestFirst(groups: Groups): seq<Summary> {
    if groups == [] then [] else Place(groups[0].value, NewestFirst(groups[1..]))
  }

  function Values(groups: Groups): seq<Summary> {
    if groups == [] then [] else [groups[0].value] + Values(groups[1..])
  }

  function SummaryTotals(events: seq<Summary>): nat {
    if events == [] then 0 else events[0].total + SummaryTotals(events[1..])
  }

  /** When a group happened, in milliseconds; 0 when its time names no date. */
  function When(e: Summary): int {
    match e.recordedAt case Some(Instant(_, Some(ms))) => ms case _ => 0
  }

  ghost predicate Descending(events: seq<Summary>) {
    forall i, j :: 0 <= i < j < |events| ==> When(events[i]) >= When(events[j])
  }

  function AllAt(events: seq<Summary>, moment: int): seq<Summary> {
    if events == [] then [] else (if When(events[0]) == moment then [events[0]] else []) + AllAt(events[1..], moment)
  }

  lemma {:induction false} PlaceIsStable(e: Summary, sorted: seq<Summary>, moment: int)
    requires Descending(sorted)
    ensures AllAt(Place(e, sorted), moment) == (if When(e) == moment then [e] else []) + AllAt(sorted, moment)
  {
    if sorted == [] || Moment(e) >= Moment(sorted[0]) {
      assert ([e] + sorted)[1..] == sorted;
    } else {
      PlaceIsStable(e, sorted[1..], moment);
      assert Place(e, sorted)[1..] == Place(e, sorted[1..]);
      if When(e) == moment { assert When(sorted[0]) != moment; }
      assert [] + AllAt(sorted[1..], moment) == AllAt(sorted[1..], moment);
    }
  }

  /** Groups of the same moment keep the order in which they came. */
  lemma {:induction false} NewestFirstIsStable(groups: Groups, moment: int)
    ensures AllAt(NewestFirst(groups), moment) == AllAt(Values(groups), moment)
  {
    if groups != [] {
      var rest := NewestFirst(groups[1..]);
      NewestFirstSorts(groups[1..]);
      NewestFirstIsStable(groups[1..], moment);
      PlaceIsStable(groups[0].value, rest, moment);
      assert Values(groups)[1..] == Values(groups[1..]);
    }
  }

  // ---------------------------------------------------------------- the order of the groups

  function KeysOf(groups: Groups): seq<string> { seq(|groups|, i requires 0 <= i < |groups| => groups[i].key) }

  predicate HasKey(rows: seq<Row>, key: string) { exists i :: 0 <= i < |rows| && GroupKey(rows[i]) == key }

  /** The keys of the rows, each where it first occurs. */
  function FirstKeys(rows: seq<Row>): seq<string> {
    if rows == [] then []
    else
      var init, key := rows[..|rows| - 1], GroupKey(rows[|rows| - 1]);
      FirstKeys(init) + if HasKey(init, key) then [] else [key]
  }

  lemma {:induction false} FirstKeysHave(rows: seq<Row>, key: string)
    ensures key in FirstKeys(rows) <==> HasKey(rows, key)
  {
    hide GroupKey;
    if rows != [] {
      var init, last := rows[..|rows| - 1], rows[|rows| - 1];
      FirstKeysHave(init, key);
      forall i | 0 <= i < |init| ensures init[i] == rows[i] {}
      if HasKey(init, key) {
        var i :| 0 <= i < |init| && GroupKey(init[i]) == key;
        assert GroupKey(rows[i]) == key;
      }
    }
  }

  lemma {:induction false} PutKnownKeys(groups: Groups, key: string, e: Summary)
    requires key in KeysOf(groups)
    ensures KeysOf(Put(groups, key, e)) == KeysOf(groups)
  {
    if groups[0].key == key {
      assert KeysOf([Entry(key, e)] + groups[1..]) == KeysOf(groups);
    } else {
      var j :| 0 <= j < |groups| && groups[j].key == key;
      assert KeysOf(groups[1..])[j - 1] == key;
      PutKnownKeys(groups[1..], key, e);
      assert KeysOf(groups) == [groups[0].key] + KeysOf(groups[1..]);
      assert KeysOf([groups[0]] + Put(groups[1..], key, e)) == [groups[0].key] + KeysOf(Put(groups[1..], key, e));
    }
  }

  lemma PutNewKey(groups: Groups, key: string, e: Summary)
    requires key !in KeysOf(groups)
    ensures KeysOf(Put(groups, key, e)) == KeysOf(groups) + [key]
  {
    forall j | 0 <= j < |groups| ensures groups[j].key != key { assert KeysOf(groups)[j] == groups[j].key; }
    PutNew(groups, key, e);
  }

  /** There is one group for every key, and they come in the order in which the page first mentions them. */
  lemma {:induction false} GroupsInOrder(rows: seq<Row>)
    ensures KeysOf(Grouped(rows)) == FirstKeys(rows)
    ensures forall i, j :: 0 <= i < j < |FirstKeys(rows)| ==> FirstKeys(rows)[i] != FirstKeys(rows)[j]
  {
    if rows != [] {
      var init, last := rows[..|rows| - 1], rows[|rows| - 1];
      GroupsInOrder(init);
      FirstKeysHave(init, GroupKey(last));
      hide GroupKey, WithRow, NewSummary, HasKey;
      var known := Lookup(Grouped(init), GroupKey(last));
      var e := WithRow(if known.Some? then known.value else NewSummary(last), last);
      if GroupKey(last) in KeysOf(Grouped(init)) { PutKnownKeys(Grouped(init), GroupKey(last), e); } else { PutNewKey(Grouped(init), GroupKey(last), e); }
    }
  }

  lemma {:induction false} PlaceKeeps(e: Summary, sorted: seq<Summary>)
    ensures multiset(Place(e, sorted)) == multiset{e} + multiset(sorted)
  {
    if sorted != [] && Moment(e) < Moment(sorted[0]) {
      PlaceKeeps(e, sorted[1..]);
      assert sorted == [sorted[0]] + sorted[1..];
    }
  }

  lemma {:induction false} PlaceAdds(e: Summary, sorted: seq<Summary>)
    ensures SummaryTotals(Place(e, sorted)) == e.total + SummaryTotals(sorted)
  {
    if sorted != [] && Moment(e) < Moment(sorted[0]) {
      PlaceAdds(e, sorted[1..]);
      assert Place(e, sorted)[1..] == Place(e, sorted[1..]);
    } else {
      assert ([e] + sorted)[1..] == sorted;
    }
  }

  lemma {:induction false} PlaceSorts(e: Summary, sorted: seq<Summary>)
    requires Descending(sorted)
    ensures Descending(Place(e, sorted))
  {
    if sorted != [] && Moment(e) < Moment(sorted[0]) {
      var first, rest := sorted[0], Place(e, sorted[1..]);
      PlaceSorts(e, sorted[1..]);
      PlaceKeeps(e, sorted[1..]);
      assert When(e) == Moment(e) && When(first) == Moment(first);
      hide Place, Moment, When;
      forall i | 0 <= i < |rest| ensures When(first) >= When(rest[i]) {
        assert rest[i] in multiset(rest);
        assert rest[i] == e || rest[i] in sorted[1..];
      }
    }
  }

  lemma {:induction false} NewestFirstSorts(groups: Groups)
    ensures var events := NewestFirst(groups);
      Descending(events) && multiset(events) == multiset(Values(groups)) && SummaryTotals(events) == Totals(groups)
  {
    if groups != [] {
      NewestFirstSorts(groups[1..]);
      PlaceKeeps(groups[0].value, NewestFirst(groups[1..]));
      PlaceAdds(groups[0].value, NewestFirst(groups[1..]));
      PlaceSorts(groups[0].value, NewestFirst(groups[1..]));
    }
  }

  /** What the page shows: every group once, newest first, and together exactly the debits of every row. */
  lemma PageConserves(rows: seq<Row>)
    ensures var events := NewestFirst(Grouped(rows));
      Descending(events) && multiset(events) == multiset(Values(Grouped(rows))) && SummaryTotals(events) == Debits(rows)
  {
    GroupsConserve(rows);
    NewestFirstSorts(Grouped(rows));
  }

  // ---------------------------------------------------------------- any row order

  lemma {:induction false} RowOut(rows: seq<Row>, i: nat, kind: string)
    requires i < |rows|
    ensures var rest := Without(rows, i);
      && Debits(rows) == rows[i].debit + Debits(rest)
      && DebitsOf(rows, kind) == (if rows[i].chargeType == kind then rows[i].debit else 0) + DebitsOf(rest, kind)
  {
    var init, rest := rows[..|rows| - 1], Without(rows, i);
    if i == |rows| - 1 {
      assert rest == init;
    } else {
      RowOut(init, i, kind);
      assert rest[..|rest| - 1] == Without(init, i) && rest[|rest| - 1] == rows[|rows| - 1];
    }
  }

  lemma {:induction false} DebitsOrder(rows: seq<Row>, others: seq<Row>, kind: string)
    requires multiset(rows) == multiset(others)
    ensures Debits(rows) == Debits(others) && DebitsOf(rows, kind) == DebitsOf(others, kind)
    decreases |rows|
  {
    SameLength(rows, others);
    if rows != [] {
      var i := Matching(rows, 0, others);
      hide Without;
      DebitsOrder(Without(rows, 0), Without(others, i), kind);
      RowOut(rows, 0, kind);
      RowOut(others, i, kind);
    }
  }

  lemma {:induction false} RowsOfCount(rows: seq<Row>, key: string, r: Row)
    ensures multiset(RowsOf(rows, key))[r] == if GroupKey(r) == key then multiset(rows)[r] else 0
  {
    hide GroupKey;
    if rows != [] {
      var init, last := rows[..|rows| - 1], rows[|rows| - 1];
      RowsOfCount(init, key, r);
      assert rows == init + [last];
    }
  }

  /** However the rows of a page are ordered, each group has the same columns and total, and so has the page. */
  lemma AnyRowOrder(rows: seq<Row>, others: seq<Row>, key: string)
    requires multiset(rows) == multiset(others)
    ensures var a, b := Lookup(Grouped(rows), key), Lookup(Grouped(others), key);
      && a.Some? == b.Some?
      && (a.Some? ==>
           && a.value.total == b.value.total && a.value.receive == b.value.receive
           && a.value.stage == b.value.stage && OrZero(a.value.setup) == OrZero(b.value.setup))
    ensures SummaryTotals(NewestFirst(Grouped(rows))) == SummaryTotals(NewestFirst(Grouped(others)))
  {
    hide Grouped, Lookup, Debits, DebitsOf, NewestFirst, GroupKey, Pinned, TokensIn, TokensOut;
    var a, b := RowsOf(rows, key), RowsOf(others, key);
    forall r ensures multiset(a)[r] == multiset(b)[r] {
      RowsOfCount(rows, key, r);
      RowsOfCount(others, key, r);
    }
    assert multiset(a) == multiset(b);
    assert |a| == |multiset(a)| && |b| == |multiset(b)|;
    hide RowsOf;
    DebitsOrder(a, b, RECEIVE);
    DebitsOrder(a, b, STAGE);
    DebitsOrder(a, b, AUTHORING);
    DebitsOrder(rows, others, RECEIVE);
    GroupsDescribe(rows, key);
    GroupsDescribe(others, key);
    PageConserves(rows);
    PageConserves(others);
  }

  // ---------------------------------------------------------------- which rows share a group

  /** Two rows of the same authoring attempt, or of the same fleet's event. */
  predicate SameWork(r: Row, s: Row) {
    if r.attempt.Some? then r.attempt == s.attempt
    else s.attempt.None? && OrEmpty(r.fleetId) == OrEmpty(s.fleetId) && OrEmpty(r.eventId) == OrEmpty(s.eventId)
  }

  /** An event of a fleet called like the authoring prefix, and an attempt called like that event. */
  predicate Collides(r: Row, s: Row) {
    r.attempt.Some? && s.attempt.None? && OrEmpty(s.fleetId) == AUTHORING && OrEmpty(s.eventId) == r.attempt.value
  }

  predicate NoNul(r: Row) { r.fleetId.Some? ==> NUL !in r.fleetId.value }

  lemma {:induction false} SplitAtNul(a: string, x: string, b: string, y: string)
    requires NUL !in a && NUL !in b
    ensures a + [NUL] + x == b + [NUL] + y <==> a == b && x == y
  {
    var p, q := a + [NUL] + x, b + [NUL] + y;
    if p == q {
      assert p[|a|] == NUL && q[|b|] == NUL;
      assert |a| == |b|;
      assert a == p[..|a|] && b == q[..|b|];
      assert x == p[|a| + 1..] && y == q[|b| + 1..];
    }
  }

  /** Rows share a group exactly when they are the same work, but for a fleet called "authoring" whose event is called like an attempt. */
  lemma SameGroup(r: Row, s: Row)
    requires NoNul(r) && NoNul(s)
    ensures GroupKey(r) == GroupKey(s) <==> SameWork(r, s) || Collides(r, s) || Collides(s, r)
  {
    var a, x := if r.attempt.Some? then AUTHORING else OrEmpty(r.fleetId), if r.attempt.Some? then r.attempt.value else OrEmpty(r.eventId);
    var b, y := if s.attempt.Some? then AUTHORING else OrEmpty(s.fleetId), if s.attempt.Some? then s.attempt.value else OrEmpty(s.eventId);
    SplitAtNul(a, x, b, y);
  }

  /** An authoring attempt and an event of a fleet called "authoring" that share a group without being the same work. */
  lemma CollidingRows(setup: Row, event: Row)
    requires setup.attempt == Some("7") && event.attempt == None && event.fleetId == Some("authoring") && event.eventId == Some("7")
    requires NoNul(setup)
    ensures GroupKey(setup) == GroupKey(event) && !SameWork(setup, event)
  {
    assert NUL !in "authoring";
    hide GroupKey;
    SameGroup(setup, event);
  }

  // ---------------------------------------------------------------- the loop over a page

  /** The entry of one group, updated in place. */
  class EventEntry {
    const fleetId: Option<string>
    const eventId: Option<string>
    const posture: Option<string>
    const model: Option<string>
    var attempt: Option<string>
    var setup: Option<nat>
    var recordedAt: Option<Instant>
    var receive: nat
    var stage: nat
    var tokensIn: Option<nat>
    var tokensOut: Option<nat>
    var total: nat

    function State(): Summary
      reads this
    {
      Summary(fleetId, eventId, posture, model, attempt, setup, recordedAt, receive, stage, tokensIn, tokensOut, total)
    }

    constructor (r: Row)
      ensures State() == NewSummary(r)
    {
      fleetId, eventId, posture, model, recordedAt := r.fleetId, r.eventId, r.posture, r.model, r.recordedAt;
      attempt, setup, receive, stage, tokensIn, tokensOut, total := None, None, 0, 0, None, None, 0;
    }

    method ApplyCharge(r: Row)
      modifies this
      ensures State() == Charged(old(State()), r)
    {
      if r.chargeType == RECEIVE {
        receive := receive + r.debit;
      } else if r.chargeType == STAGE || r.chargeType == AUTHORING {
        if r.chargeType == AUTHORING {
          if r.attempt.Some? { attempt := r.attempt; }
          setup := Some(OrZero(setup) + r.debit);
        } else {
          stage := stage + r.debit;
        }
        tokensIn := AddCount(tokensIn, r.tokensIn);
        tokensOut := AddCount(tokensOut, r.tokensOut);
      }
      total := total + r.debit;
    }

    /** One row of the group: its charge, and its instant when that is earlier. */
    method TakeRow(r: Row)
      modifies this
      ensures State() == WithRow(old(State()), r)
    {
      ApplyCharge(r);
      if r.recordedAt.Some? && (recordedAt.None? || Earlier(r.recordedAt.value, recordedAt.value)) {
        recordedAt := r.recordedAt;
      }
    }
  }

  /** The entries by key, in the order in which the keys appeared. */
  function Contents(keys: seq<string>, byEvent: map<string, EventEntry>): (groups: Groups)
    requires forall i :: 0 <= i < |keys| ==> keys[i] in byEvent
    reads byEvent.Values
    ensures |groups| == |keys|
    ensures forall i :: 0 <= i < |keys| ==> groups[i] == Entry(keys[i], byEvent[keys[i]].State())
  {
    if keys == [] then [] else [Entry(keys[0], byEvent[keys[0]].State())] + Contents(keys[1..], byEvent)
  }

  ghost predicate Keyed(keys: seq<string>, byEvent: map<string, EventEntry>) {
    && (forall k :: k in byEvent <==> k in keys)
    && (forall i, j :: 0 <= i < j < |keys| ==> keys[i] != keys[j])
    && (forall p, q :: p in byEvent && q in byEvent && p != q ==> byEvent[p] != byEvent[q])
  }

  lemma {:induction false} PutAt(groups: Groups, i: nat, e: Summary)
    requires i < |groups| && forall j :: 0 <= j < i ==> groups[j].key != groups[i].key
    ensures Put(groups, groups[i].key, e) == groups[i := Entry(groups[i].key, e)] && Lookup(groups, groups[i].key) == Some(groups[i].value)
  {
    if i > 0 {
      PutAt(groups[1..], i - 1, e);
      assert groups[1..][i - 1] == groups[i];
      assert [groups[0]] + groups[1..][i - 1 := Entry(groups[i].key, e)] == groups[i := Entry(groups[i].key, e)];
    }
  }

  method AddToKnown(keys: seq<string>, byEvent: map<string, EventEntry>, r: Row)
    requires Keyed(keys, byEvent) && GroupKey(r) in byEvent
    modifies byEvent[GroupKey(r)]
    ensures Contents(keys, byEvent) == AddRow(old(Contents(keys, byEvent)), r)
  {
    hide WithRow, Lookup, Put, Contents, GroupKey;
    ghost var before := Contents(keys, byEvent);
    var entry := byEvent[GroupKey(r)];
    ghost var i :| 0 <= i < |keys| && keys[i] == GroupKey(r);
    ghost var after := WithRow(entry.State(), r);
    PutAt(before, i, after);
    entry.TakeRow(r);
    ghost var now := Contents(keys, byEvent);
    forall j | 0 <= j < |keys| ensures now[j] == before[i := Entry(keys[i], after)][j] {
      if j != i { assert byEvent[keys[j]] != entry; }
    }
    assert now == before[i := Entry(keys[i], after)];
  }

  method AddToNew(keys: seq<string>, byEvent: map<string, EventEntry>, r: Row) returns (nextKeys: seq<string>, next: map<string, EventEntry>)
    requires Keyed(keys, byEvent) && GroupKey(r) !in byEvent
    ensures Keyed(nextKeys, next) && fresh(next.Values - byEvent.Values)
    ensures Contents(nextKeys, next) == AddRow(old(Contents(keys, byEvent)), r)
  {
    hide WithRow, Lookup, Put, Contents, GroupKey;
    ghost var before := Contents(keys, byEvent);
    var entry := new EventEntry(r);
    entry.TakeRow(r);
    PutNew(before, GroupKey(r), entry.State());
    next := byEvent[GroupKey(r) := entry];
    nextKeys := keys + [GroupKey(r)];
    ghost var now := Contents(nextKeys, next);
    forall j | 0 <= j < |keys| ensures now[j] == before[j] {}
    assert now == before + [Entry(GroupKey(r), entry.State())];
  }

  /** Adds a row to its key's entry, which is created when the key is new. */
  method AddCharge(keys: seq<string>, byEvent: map<string, EventEntry>, r: Row) returns (nextKeys: seq<string>, next: map<string, EventEntry>)
    requires Keyed(keys, byEvent)
    modifies byEvent.Values
    ensures Keyed(nextKeys, next) && fresh(next.Values - byEvent.Values)
    ensures Contents(nextKeys, next) == AddRow(old(Contents(keys, byEvent)), r)
  {
    hide AddRow, Contents, GroupKey;
    if GroupKey(r) in byEvent {
      AddToKnown(keys, byEvent, r);
      nextKeys, next := keys, byEvent;
    } else {
      nextKeys, next := AddToNew(keys, byEvent, r);
    }
  }

  lemma GroupedNext(rows: seq<Row>, n: nat)
    requires n < |rows|
    ensures Grouped(rows[..n + 1]) == AddRow(Grouped(rows[..n]), rows[n])
  {
    assert rows[..n + 1][..n] == rows[..n];
  }

  /** One page of rows, grouped: an entry per key, each row added to its key's entry, then sorted newest first. */
  method GroupRowsByEvent(rows: seq<Row>) returns (events: seq<Summary>)
    ensures events == NewestFirst(Grouped(rows))
  {
    var keys: seq<string> := [];
    var byEvent: map<string, EventEntry> := map[];
    for n := 0 to |rows|
      invariant Keyed(keys, byEvent) && fresh(byEvent.Values)
      invariant Contents(keys, byEvent) == Grouped(rows[..n])
    {
      hide AddRow, Keyed, Contents, Grouped;
      GroupedNext(rows, n);
      keys, byEvent := AddCharge(keys, byEvent, rows[n]);
    }
    assert rows[..|rows|] == rows;
    events := NewestFirst(Contents(keys, byEvent));
  }
}
