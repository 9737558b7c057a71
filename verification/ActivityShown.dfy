/** Which lines a run prints, told from its frames alone. */
module ActivityShown {
  import opened Decimals
  import opened Options
  import opened OrderedMaps
  import opened TaskActivity
  import opened ActivityReplay

  // ---------------------------------------------------------------- which frames count

  /** The phases in the order in which an operation may pass through them. */
  const STEPS: seq<set<Phase>> := [{Starting, Preparing}, {Scanning}, {Uploading}, {Verifying}, {Restoring}, {Unavailable, Failed}, {Phase.Recorded, Saved, Restored}]

  predicate NotBefore(p: Phase, q: Phase) {
    forall i, j :: 0 <= i < |STEPS| && 0 <= j < |STEPS| && p in STEPS[i] && q in STEPS[j] ==> i <= j
  }

  /** `b` takes nothing back that `a` has confirmed. */
  predicate Continues(a: Progress, b: Progress) {
    && (a.sequence.Some? ==> b.sequence.Some? && a.sequence.value <= b.sequence.value)
    && NotBefore(a.phase, b.phase) && a.completed <= b.completed
    && (match a.bytes
        case Some(x) => (match b.bytes case Some(y) => x.acknowledged <= y.acknowledged && x.reused <= y.reused
                                       case None => x.acknowledged == 0 && x.reused == 0)
        case None => true)
  }

  predicate IsProgress(f: Frame) {
    (f.kind == "task_decision_started" || f.kind == "task_decision_completed" || f.kind == "task_transfer_progress") && f.progress.Some?
  }

  predicate SameOp(f: Frame, g: Frame)
    requires f.progress.Some? && g.progress.Some?
  {
    f.progress.value.activity == g.progress.value.activity && f.progress.value.operation == g.progress.value.operation
  }

  predicate SameStage(f: Frame, g: Frame)
    requires f.progress.Some? && g.progress.Some?
  {
    f.kind == g.kind && SameOp(f, g) && f.progress.value.phase == g.progress.value.phase
  }

  /** The frame is readable, and takes nothing back from any earlier frame of its operation that counts. */
  ghost predicate Counts(frames: seq<Frame>, i: nat)
    requires i < |frames|
    decreases i
  {
    && IsProgress(frames[i])
    && forall j :: 0 <= j < i ==>
         (Counts(frames, j) && SameOp(frames[j], frames[i]) ==> Continues(frames[j].progress.value, frames[i].progress.value))
  }

  ghost predicate CountsForStage(frames: seq<Frame>, j: nat, f: Frame)
    requires j < |frames| && f.progress.Some?
  {
    frames[j].progress.Some? && Counts(frames, j) && SameStage(frames[j], f)
  }

  /** Of the first `n` frames, `j` is the last that counts for the stage of `f`. */
  ghost predicate LastOfStage(frames: seq<Frame>, n: nat, j: nat, f: Frame)
    requires j < n <= |frames| && f.progress.Some?
  {
    CountsForStage(frames, j, f) && forall k :: j < k < n ==> !CountsForStage(frames, k, f)
  }

  /** It counts, and the last frame before it that counts for its stage, if any, has another line. */
  ghost predicate IsNews(frames: seq<Frame>, i: nat)
    requires i < |frames|
  {
    frames[i].progress.Some? && Counts(frames, i) && forall j :: 0 <= j < i && LastOfStage(frames, i, j, frames[i]) ==> Line(frames[j].progress.value) != Line(frames[i].progress.value)
  }

  /** The lines of the news among the first `n` frames. */
  ghost function News(frames: seq<Frame>, n: nat): seq<string>
    requires n <= |frames|
  {
    if n == 0 then []
    else News(frames, n - 1) + if IsNews(frames, n - 1) then [Line(frames[n - 1].progress.value)] else []
  }

  // ---------------------------------------------------------------- the same, as the printer decides it

  lemma PhasesInOrder(p: Phase, q: Phase)
    ensures NotBefore(p, q) <==> Rank(p) <= Rank(q)
  {
    assert |STEPS| == 7;
    assert p in STEPS[Rank(p)] && q in STEPS[Rank(q)];
    forall i | 0 <= i < |STEPS| && p in STEPS[i] ensures i == Rank(p) {}
    forall i | 0 <= i < |STEPS| && q in STEPS[i] ensures i == Rank(q) {}
  }

  lemma StaleTakesBack(a: Progress, b: Progress)
    ensures Stale(a, b) <==> !Continues(a, b)
  {
    PhasesInOrder(a.phase, b.phase);
    hide NotBefore;
  }

  lemma ContinuesOn(a: Progress, b: Progress, c: Progress)
    requires Continues(a, b) && Continues(b, c)
    ensures Continues(a, c)
  {
    PhasesInOrder(a.phase, b.phase);
    PhasesInOrder(b.phase, c.phase);
    PhasesInOrder(a.phase, c.phase);
    hide NotBefore;
  }

  lemma {:induction false} CountsInPrefix(frames: seq<Frame>, n: nat, i: nat)
    requires i < n <= |frames|
    ensures Counts(frames[..n], i) == Counts(frames, i)
    decreases i
  {
    forall j | 0 <= j < i ensures Counts(frames[..n], j) == Counts(frames, j) && frames[..n][j] == frames[j] { CountsInPrefix(frames, n, j); }
  }

  ghost predicate CountsForOp(frames: seq<Frame>, j: nat, op: OpKey)
    requires j < |frames|
  {
    frames[j].progress.Some? && Counts(frames, j) && KeyOf(frames[j].progress.value) == op
  }

  /** Of the first `n` frames, `j` is the last that counts for the operation. */
  ghost predicate LastOfOp(frames: seq<Frame>, n: nat, j: nat, op: OpKey)
    requires j < n <= |frames|
  {
    CountsForOp(frames, j, op) && forall k :: j < k < n ==> !CountsForOp(frames, k, op)
  }

  /** What the printer has confirmed of an operation is its last frame that counts. */
  ghost predicate LatestIs(frames: seq<Frame>, n: nat, latest: Option<Progress>, op: OpKey)
    requires n <= |frames|
  {
    match latest
    case None => forall j :: 0 <= j < n ==> !CountsForOp(frames, j, op)
    case Some(p) => exists j :: 0 <= j < n && LastOfOp(frames, n, j, op) && frames[j].progress == Some(p)
  }

  /** What the printer has shown of a stage is the line of its last frame that counts. */
  ghost predicate SeenIs(frames: seq<Frame>, n: nat, seen: Option<string>, f: Frame)
    requires n <= |frames| && f.progress.Some?
  {
    match seen
    case None => forall j :: 0 <= j < n ==> !CountsForStage(frames, j, f)
    case Some(line) => exists j :: 0 <= j < n && LastOfStage(frames, n, j, f) && line == Line(frames[j].progress.value)
  }

  ghost predicate Agrees(frames: seq<Frame>, n: nat)
    requires n <= |frames|
  {
    var s := After(frames[..n]);
    && (forall op :: LatestIs(frames, n, Lookup(s.latest, op), op))
    && (forall f: Frame :: IsProgress(f) ==> SeenIs(frames, n, Lookup(s.seen, StageOf(f.kind, f.progress.value)), f))
  }

  /** To continue the last frame that counts is to continue all of them. */
  lemma ContinuesAll(frames: seq<Frame>, n: nat, j: nat, i: nat)
    requires i <= j < n < |frames| && IsProgress(frames[n]) && Counts(frames, j) && Counts(frames, i) && SameOp(frames[j], frames[n]) && SameOp(frames[i], frames[n])
    requires Continues(frames[j].progress.value, frames[n].progress.value)
    ensures Continues(frames[i].progress.value, frames[n].progress.value)
  {
    hide Continues;
    if i < j {
      assert SameOp(frames[i], frames[j]);
      ContinuesOn(frames[i].progress.value, frames[j].progress.value, frames[n].progress.value);
    }
  }

  lemma CountsAfterLast(frames: seq<Frame>, n: nat, j: nat)
    requires j < n < |frames| && IsProgress(frames[n]) && LastOfOp(frames, n, j, KeyOf(frames[n].progress.value))
    ensures Counts(frames, n) <==> Continues(frames[j].progress.value, frames[n].progress.value)
  {
    hide Continues;
    var f := frames[n];
    CountsIsProgress(frames, j);
    if Continues(frames[j].progress.value, f.progress.value) {
      forall i | 0 <= i < n && Counts(frames, i) && SameOp(frames[i], f) ensures Continues(frames[i].progress.value, f.progress.value) {
        CountsIsProgress(frames, i);
        assert CountsForOp(frames, i, KeyOf(f.progress.value)) && i <= j;
        ContinuesAll(frames, n, j, i);
      }
    }
  }

  lemma CountsFirst(frames: seq<Frame>, n: nat)
    requires n < |frames| && IsProgress(frames[n]) && forall j :: 0 <= j < n ==> !CountsForOp(frames, j, KeyOf(frames[n].progress.value))
    ensures Counts(frames, n)
  {
    hide Continues;
    forall i | 0 <= i < n && Counts(frames, i) ensures frames[i].progress.Some? && !SameOp(frames[i], frames[n]) {
      CountsIsProgress(frames, i);
      assert !CountsForOp(frames, i, KeyOf(frames[n].progress.value));
    }
  }

  lemma TakenCounts(frames: seq<Frame>, n: nat)
    requires n < |frames| && Agrees(frames, n)
    ensures Takes(After(frames[..n]), frames[n]) <==> Counts(frames, n)
  {
    var s, f := After(frames[..n]), frames[n];
    hide After, Continues, Stale, LastOfOp;
    if IsProgress(f) {
      var op := KeyOf(f.progress.value);
      assert LatestIs(frames, n, Lookup(s.latest, op), op);
      if Lookup(s.latest, op).Some? {
        var j :| 0 <= j < n && LastOfOp(frames, n, j, op) && frames[j].progress == Lookup(s.latest, op);
        StaleTakesBack(frames[j].progress.value, f.progress.value);
        CountsAfterLast(frames, n, j);
      } else {
        CountsFirst(frames, n);
      }
    }
  }

  lemma LatestNext(frames: seq<Frame>, n: nat, op: OpKey, before: Option<Progress>)
    requires n < |frames| && LatestIs(frames, n, before, op)
    ensures LatestIs(frames, n + 1, if CountsForOp(frames, n, op) then frames[n].progress else before, op)
  {
    hide CountsForOp;
    if CountsForOp(frames, n, op) {
      CountsForOpIsProgress(frames, n, op);
      assert LastOfOp(frames, n + 1, n, op);
    } else if before.Some? {
      var j :| 0 <= j < n && LastOfOp(frames, n, j, op) && frames[j].progress == before;
      assert LastOfOp(frames, n + 1, j, op);
    }
  }

  lemma CountsForOpIsProgress(frames: seq<Frame>, i: nat, op: OpKey)
    requires i < |frames| && CountsForOp(frames, i, op)
    ensures IsProgress(frames[i])
  {
  }

  lemma CountsIsProgress(frames: seq<Frame>, i: nat)
    requires i < |frames| && Counts(frames, i)
    ensures IsProgress(frames[i])
  {
  }

  lemma SeenNext(frames: seq<Frame>, n: nat, f: Frame, before: Option<string>)
    requires n < |frames| && f.progress.Some? && SeenIs(frames, n, before, f)
    ensures CountsForStage(frames, n, f) ==> frames[n].progress.Some?
    ensures SeenIs(frames, n + 1, if CountsForStage(frames, n, f) then Some(Line(frames[n].progress.value)) else before, f)
  {
    hide Counts, Line;
    if CountsForStage(frames, n, f) {
      assert LastOfStage(frames, n + 1, n, f);
    } else if before.Some? {
      var j :| 0 <= j < n && LastOfStage(frames, n, j, f) && before == Some(Line(frames[j].progress.value));
      assert LastOfStage(frames, n + 1, j, f);
    }
  }

  lemma AgreesNext(frames: seq<Frame>, n: nat)
    requires n < |frames| && Agrees(frames, n) && Fits(After(frames[..n]), frames[n])
    ensures Agrees(frames, n + 1)
  {
    var s, g := After(frames[..n]), frames[n];
    assert frames[..n + 1] == frames[..n] + [g];
    AfterOneMore(frames[..n], g);
    TakenCounts(frames, n);
    hide After, Show, Fits, Line, LatestIs, SeenIs, Takes;
    var next := After(frames[..n + 1]);
    forall op ensures LatestIs(frames, n + 1, Lookup(next.latest, op), op) {
      LatestAfter(s, g, op);
      LatestNext(frames, n, op, Lookup(s.latest, op));
    }
    forall f: Frame | IsProgress(f) ensures SeenIs(frames, n + 1, Lookup(next.seen, StageOf(f.kind, f.progress.value)), f) {
      SeenAfter(s, g, StageOf(f.kind, f.progress.value));
      SeenNext(frames, n, f, Lookup(s.seen, StageOf(f.kind, f.progress.value)));
    }
  }

  /** A frame that counts is news exactly when the line seen for its stage is not its own. */
  lemma NewsIsUnseen(frames: seq<Frame>, n: nat, seen: Option<string>)
    requires n < |frames| && Counts(frames, n) && IsProgress(frames[n]) && SeenIs(frames, n, seen, frames[n])
    ensures IsNews(frames, n) <==> seen != Some(Line(frames[n].progress.value))
  {
    hide Line, Counts;
    if seen.Some? {
      var j :| 0 <= j < n && LastOfStage(frames, n, j, frames[n]) && seen == Some(Line(frames[j].progress.value));
      forall i | 0 <= i < n && LastOfStage(frames, n, i, frames[n]) ensures i == j {}
    }
  }

  lemma PrintsNews(frames: seq<Frame>, n: nat)
    requires n < |frames| && Agrees(frames, n)
    ensures Show(After(frames[..n]), frames[n]).1 == if IsNews(frames, n) then [Line(frames[n].progress.value)] else []
  {
    var s, f := After(frames[..n]), frames[n];
    TakenCounts(frames, n);
    hide After, Line, Counts, LatestIs, SeenIs;
    if Takes(s, f) {
      CountsIsProgress(frames, n);
      NewsIsUnseen(frames, n, Lookup(s.seen, StageOf(f.kind, f.progress.value)));
    }
  }

  lemma {:induction false} PrintedSoFar(frames: seq<Frame>, n: nat)
    requires n <= |frames| && NoEviction(frames[..n])
    ensures ShowAll(NEW_PRINTER, frames[..n]).1 == News(frames, n) && Agrees(frames, n)
    decreases n
  {
    if n > 0 {
      var front, last := frames[..n - 1], frames[n - 1];
      assert frames[..n] == front + [last] && frames[..n][..n - 1] == front;
      AfterOneMore(front, last);
      PrintedSoFar(frames, n - 1);
      hide NoEviction, Agrees, Show, IsNews, Fits;
      AgreesNext(frames, n - 1);
      PrintsNews(frames, n - 1);
    }
  }

  // ---------------------------------------------------------------- when nothing is evicted

  function OpsOf(frames: seq<Frame>): set<OpKey> { set f | f in frames && f.progress.Some? :: KeyOf(f.progress.value) }

  function StagesOf(frames: seq<Frame>): set<StageKey> { set f | f in frames && f.progress.Some? :: StageOf(f.kind, f.progress.value) }

  ghost predicate KeysAmong<K(!new), V>(m: OrderedMap<K, V>, keys: set<K>) { forall i :: 0 <= i < |m| ==> m[i].key in keys }

  lemma {:induction false} NoMoreThanKeys<K(!new), V>(m: OrderedMap<K, V>, keys: set<K>)
    requires DistinctKeys(m) && KeysAmong(m, keys)
    ensures |m| <= |keys|
    decreases |m|
  {
    if m != [] {
      var init, last := m[..|m| - 1], m[|m| - 1];
      assert KeysAmong(init, keys - {last.key});
      NoMoreThanKeys(init, keys - {last.key});
    }
  }

  lemma PutAmong<K(!new), V>(m: OrderedMap<K, V>, keys: set<K>, k: K, v: V)
    requires DistinctKeys(m) && KeysAmong(m, keys) && k in keys
    ensures DistinctKeys(Put(m, k, v)) && KeysAmong(Put(m, k, v), keys) && |Put(m, k, v)| <= |keys|
  {
    PutKeys(m, k, v);
    NoMoreThanKeys(Put(m, k, v), keys);
  }

  ghost predicate Among(s: Printer, ops: set<OpKey>, stages: set<StageKey>) {
    DistinctKeys(s.latest) && KeysAmong(s.latest, ops) && DistinctKeys(s.seen) && KeysAmong(s.seen, stages)
  }

  lemma ShowAmong(s: Printer, f: Frame, ops: set<OpKey>, stages: set<StageKey>)
    requires Among(s, ops, stages) && |ops| <= 128 && |stages| <= 256
    requires f.progress.Some? ==> KeyOf(f.progress.value) in ops && StageOf(f.kind, f.progress.value) in stages
    ensures Fits(s, f) && Among(Show(s, f).0, ops, stages)
  {
    if f.progress.Some? {
      var p := f.progress.value;
      PutAmong(s.latest, ops, KeyOf(p), p);
      PutAmong(s.seen, stages, StageOf(f.kind, p), Line(p));
    }
    hide Line, DistinctKeys, KeysAmong, Put;
  }

  lemma {:induction false} FewAreKept(frames: seq<Frame>, ops: set<OpKey>, stages: set<StageKey>)
    requires OpsOf(frames) <= ops && StagesOf(frames) <= stages && |ops| <= 128 && |stages| <= 256
    ensures NoEviction(frames) && Among(After(frames), ops, stages)
    decreases |frames|
  {
    if frames != [] {
      var init, last := frames[..|frames| - 1], frames[|frames| - 1];
      assert frames == init + [last];
      forall f | f in init ensures f in frames {}
      assert OpsOf(init) <= OpsOf(frames) && StagesOf(init) <= StagesOf(frames);
      FewAreKept(init, ops, stages);
      assert last in frames;
      hide Among, Show, NoEviction, Fits;
      ShowAmong(After(init), last, ops, stages);
      AfterOneMore(init, last);
    }
  }

  /**
    A run of at most 128 operations and 256 stages prints exactly the lines of its news, in order: a
    frame is news if it takes nothing back from the frames of its operation that counted, and the
    last one that counted for its stage had another line.
   */
  lemma PrintedExactly(frames: seq<Frame>)
    requires |OpsOf(frames)| <= 128 && |StagesOf(frames)| <= 256
    ensures ShowAll(NEW_PRINTER, frames).1 == News(frames, |frames|)
  {
    hide OpsOf, StagesOf, NoEviction, Among, Agrees, News;
    FewAreKept(frames, OpsOf(frames), StagesOf(frames));
    assert frames[..|frames|] == frames;
    PrintedSoFar(frames, |frames|);
  }

  // ---------------------------------------------------------------- bounds, windows and lines

  lemma {:induction false} PutGrows<K, V>(m: OrderedMap<K, V>, k: K, v: V)
    ensures |m| <= |Put(m, k, v)| <= |m| + 1
  {
    if m != [] && m[0].key != k { PutGrows(m[1..], k, v); }
  }

  /** However long a run is, no more than 128 operations and 256 stages are retained. */
  lemma {:induction false} RetainedIsBounded(frames: seq<Frame>)
    ensures |After(frames).latest| <= 128 && |After(frames).seen| <= 256
    decreases |frames|
  {
    if frames != [] {
      var init, last := frames[..|frames| - 1], frames[|frames| - 1];
      RetainedIsBounded(init);
      assert frames == init + [last];
      AfterOneMore(init, last);
      if last.progress.Some? {
        var p, s := last.progress.value, After(init);
        PutGrows(s.latest, KeyOf(p), p);
        PutGrows(s.seen, StageOf(last.kind, p), Line(p));
      }
    }
  }

  /** Of a saved history only the last 128 items are read. */
  lemma OnlyTheLastAreRead(s: Printer, earlier: seq<Frame>, items: seq<Frame>, truncated: bool)
    requires |items| == 128 || (|items| < 128 && earlier == [])
    ensures ShowHistory(s, earlier + items, truncated) == ShowHistory(s, items, truncated)
    ensures !truncated ==> ShowHistory(s, items, truncated) == ShowAll(s, items)
  {
    assert LastFrames(earlier + items) == items && LastFrames(items) == items;
  }

  /** The parts of a line, a middle dot between any two. */
  function Dotted(parts: seq<string>): string
    requires |parts| >= 1
  {
    if |parts| == 1 then parts[0] else Dotted(parts[..|parts| - 1]) + " \U{00B7} " + parts[|parts| - 1]
  }

  function ModelPart(p: Progress): seq<string> {
    match p.model
    case None => []
    case Some(model) => if model == "" then [] else [(match p.provider case Some(name) => name case None => "") + " / " + model]
  }

  function TotalPart(p: Progress): seq<string> {
    match p.total case Some(total) => [Decimal(p.completed) + "/" + Decimal(total) + " objects"] case None => []
  }

  function WithBytes(head: seq<string>, t: Transfer): seq<string> {
    head + [Decimal(t.acknowledged) + " bytes acknowledged"] + [Decimal(t.missing) + " known missing bytes"] + [Decimal(t.reused) + " bytes reused"]
  }

  function PartsOf(p: Progress): seq<string> {
    var head := [PhaseText(p.phase), OperationText(p.operation)] + ModelPart(p) + TotalPart(p);
    match p.bytes case None => head case Some(t) => WithBytes(head, t)
  }

  lemma DottedMore(parts: seq<string>, more: string)
    requires |parts| >= 1
    ensures Dotted(parts + [more]) == Dotted(parts) + " \U{00B7} " + more
  {
    assert (parts + [more])[..|parts|] == parts;
  }

  lemma Regroup(a: string, b: string, c: string)
    ensures a + (b + c) == a + b + c
  {
  }

  lemma NumberPart(head: seq<string>, number: string, unit: string)
    requires |head| >= 1
    ensures Dotted(head + [number + unit]) == Dotted(head) + DOT + number + unit
  {
    DottedMore(head, number + unit);
    hide Dotted;
    Regroup(Dotted(head) + DOT, number, unit);
  }

  lemma Ungroup(h: string, a: string, b: string, c: string, x: string, y: string, z: string)
    ensures h + (DOT + a + x + DOT + b + y + DOT + c + z) == h + DOT + a + x + DOT + b + y + DOT + c + z
  {
    Regroup(h, DOT, a);
    Regroup(h, DOT + a, x);
    Regroup(h, DOT + a + x, DOT);
    Regroup(h, DOT + a + x + DOT, b);
    Regroup(h, DOT + a + x + DOT + b, y);
    Regroup(h, DOT + a + x + DOT + b + y, DOT);
    Regroup(h, DOT + a + x + DOT + b + y + DOT, c);
    Regroup(h, DOT + a + x + DOT + b + y + DOT + c, z);
  }

  lemma BytesHaveParts(head: seq<string>, t: Transfer)
    requires |head| >= 1
    ensures Dotted(WithBytes(head, t)) == Dotted(head) + DOT + Decimal(t.acknowledged) + " bytes acknowledged" + DOT + Decimal(t.missing) + " known missing bytes"
      + DOT + Decimal(t.reused) + " bytes reused"
  {
    hide Decimal, Dotted;
    var a, b := Decimal(t.acknowledged) + " bytes acknowledged", Decimal(t.missing) + " known missing bytes";
    NumberPart(head, Decimal(t.acknowledged), " bytes acknowledged");
    NumberPart(head + [a], Decimal(t.missing), " known missing bytes");
    NumberPart(head + [a] + [b], Decimal(t.reused), " bytes reused");
  }

  lemma ModelHasPart(p: Progress, head: seq<string>)
    requires |head| >= 1 && p.model.Some? && p.model.value != ""
    ensures Dotted(head + ModelPart(p)) == Dotted(head) + (DOT + (if p.provider.Some? then p.provider.value else "") + " / " + p.model.value)
  {
    hide Dotted;
    var name := if p.provider.Some? then p.provider.value else "";
    DottedMore(head, name + " / " + p.model.value);
    Regroup(Dotted(head), DOT, name + " / " + p.model.value);
    Regroup(DOT, name + " / ", p.model.value);
    Regroup(DOT, name, " / ");
  }

  lemma TotalHasPart(p: Progress, head: seq<string>)
    requires |head| >= 1 && p.total.Some?
    ensures Dotted(head + TotalPart(p)) == Dotted(head) + (DOT + Decimal(p.completed) + "/" + Decimal(p.total.value) + " objects")
  {
    hide Dotted, Decimal;
    var a, b := Decimal(p.completed), Decimal(p.total.value);
    DottedMore(head, a + "/" + b + " objects");
    Regroup(Dotted(head), DOT, a + "/" + b + " objects");
    Regroup(DOT, a + "/" + b, " objects");
    Regroup(DOT, a + "/", b);
    Regroup(DOT, a, "/");
  }

  lemma HeadHasParts(p: Progress)
    ensures var named := [PhaseText(p.phase), OperationText(p.operation)] + ModelPart(p);
      Dotted(named + TotalPart(p)) == LineHead(p)
  {
    hide PhaseText, OperationText, Decimal;
    var head := [PhaseText(p.phase), OperationText(p.operation)];
    DottedMore([PhaseText(p.phase)], OperationText(p.operation));
    assert [PhaseText(p.phase)] + [OperationText(p.operation)] == head && head + [] == head;
    var named := head + ModelPart(p);
    hide Dotted;
    if p.model.Some? && p.model.value != "" { ModelHasPart(p, head); }
    if p.total.Some? { TotalHasPart(p, named); } else { assert named + [] == named; }
  }

  /** A line up to its bytes. */
  function LineHead(p: Progress): string {
    PhaseText(p.phase) + DOT + OperationText(p.operation)
    + (if p.model.Some? && p.model.value != "" then DOT + (if p.provider.Some? then p.provider.value else "") + " / " + p.model.value else "")
    + (if p.total.Some? then DOT + Decimal(p.completed) + "/" + Decimal(p.total.value) + " objects" else "")
  }

  lemma LineIsHeadAndBytes(p: Progress)
    ensures Line(p) == if p.bytes.None? then LineHead(p) else
      LineHead(p) + DOT + Decimal(p.bytes.value.acknowledged) + " bytes acknowledged" + DOT + Decimal(p.bytes.value.missing) + " known missing bytes"
        + DOT + Decimal(p.bytes.value.reused) + " bytes reused"
  {
    hide PhaseText, OperationText, Decimal;
    var h := LineHead(p);
    assert h + "" == h;
    if p.bytes.Some? {
      var a, b, c := Decimal(p.bytes.value.acknowledged), Decimal(p.bytes.value.missing), Decimal(p.bytes.value.reused);
      Ungroup(h, a, b, c, " bytes acknowledged", " known missing bytes", " bytes reused");
    }
  }

  /** Every line names its phase and operation, then what is known of the model, the objects and the bytes, each number in its place. */
  lemma LineHasParts(p: Progress)
    ensures Line(p) == Dotted(PartsOf(p))
  {
    HeadHasParts(p);
    LineIsHeadAndBytes(p);
    hide PhaseText, OperationText, Decimal, Dotted, ModelPart, TotalPart, WithBytes, Line;
    var head := [PhaseText(p.phase), OperationText(p.operation)] + ModelPart(p) + TotalPart(p);
    if p.bytes.Some? { BytesHaveParts(head, p.bytes.value); }
  }
}
