/** The printer of task progress: it forgets nothing it has confirmed and repeats nothing it has shown. */
module TaskActivity {
  import opened Options
  import opened OrderedMaps
  import opened Decimals

  datatype Phase = Starting | Recorded | Unavailable | Preparing | Scanning | Uploading | Verifying | Saved | Restoring | Restored | Failed
  datatype Operation = Intent | Goal | Capture | Restore
  datatype Transfer = Transfer(acknowledged: nat, missing: nat, reused: nat)

  datatype Progress = Progress(
    sequence: Option<nat>, activity: string, operation: Operation, phase: Phase,
    provider: Option<string>, model: Option<string>, completed: nat, total: Option<nat>, bytes: Option<Transfer>)

  const KINDS := {"task_decision_started", "task_decision_completed", "task_transfer_progress"}

  function Rank(p: Phase): nat {
    match p
    case Starting => 0 case Preparing => 0 case Scanning => 1 case Uploading => 2 case Verifying => 3 case Restoring => 4
    case Unavailable => 5 case Failed => 5 case Recorded => 6 case Saved => 6 case Restored => 6
  }

  function PhaseText(p: Phase): string {
    match p
    case Starting => "Assessing" case Recorded => "Assessment recorded" case Unavailable => "Assessment unavailable"
    case Preparing => "Preparing recovery files" case Scanning => "Scanning frozen recovery files"
    case Uploading => "Saving encrypted files" case Verifying => "Verifying recovery data" case Saved => "Recovery point saved"
    case Restoring => "Restoring saved progress" case Restored => "Saved progress restored" case Failed => "Recovery interrupted"
  }

  function OperationText(o: Operation): string {
    match o case Intent => "intent" case Goal => "goal" case Capture => "capture" case Restore => "restore"
  }

  const DOT := " \U{00B7} "

  function Line(p: Progress): string {
    PhaseText(p.phase) + DOT + OperationText(p.operation)
    + (if p.model.Some? && p.model.value != "" then DOT + (if p.provider.Some? then p.provider.value else "") + " / " + p.model.value else "")
    + (if p.total.Some? then DOT + Decimal(p.completed) + "/" + Decimal(p.total.value) + " objects" else "")
    + (if p.bytes.Some? then
         DOT + Decimal(p.bytes.value.acknowledged) + " bytes acknowledged" + DOT + Decimal(p.bytes.value.missing) + " known missing bytes"
         + DOT + Decimal(p.bytes.value.reused) + " bytes reused"
       else "")
  }

  /** One operation of one activity. */
  datatype OpKey = OpKey(activity: string, operation: Operation)

  /** One stage that can be shown, or the notice that history was cut. */
  datatype StageKey = Stage(kind: string, op: OpKey, phase: Phase) | Truncated

  datatype Printer = Printer(seen: OrderedMap<StageKey, string>, latest: OrderedMap<OpKey, Progress>)

  const NEW_PRINTER := Printer([], [])
  const MAX_LATEST := 128
  const MAX_SEEN := 256
  const MAX_HISTORY := 128
  const TRUNCATED := "Earlier progress stages are outside the retained activity window."

  /** A progress frame: its kind and its progress, if that could be decoded. */
  datatype Frame = Frame(kind: string, progress: Option<Progress>)

  function KeyOf(p: Progress): OpKey { OpKey(p.activity, p.operation) }
  function StageOf(kind: string, p: Progress): StageKey { Stage(kind, KeyOf(p), p.phase) }

  function Acknowledged(p: Progress): nat { if p.bytes.Some? then p.bytes.value.acknowledged else 0 }
  function Reused(p: Progress): nat { if p.bytes.Some? then p.bytes.value.reused else 0 }

  /** The frame would take the operation back. */
  predicate Stale(previous: Progress, p: Progress) {
    || (previous.sequence.Some? && (p.sequence.None? || previous.sequence.value > p.sequence.value))
    || Rank(previous.phase) > Rank(p.phase)
    || previous.completed > p.completed
    || Acknowledged(previous) > Acknowledged(p)
    || Reused(previous) > Reused(p)
  }

  function Bounded<K, V>(m: OrderedMap<K, V>, max: nat): OrderedMap<K, V> {
    if |m| > max then m[1..] else m
  }

  /** The printer after a frame, and the lines it prints. */
  function Show(s: Printer, f: Frame): (Printer, seq<string>) {
    if f.kind !in KINDS || f.progress.None? then (s, [])
    else
      var p := f.progress.value;
      var previous := Lookup(s.latest, KeyOf(p));
      if previous.Some? && Stale(previous.value, p) then (s, [])
      else
        var s1 := s.(latest := Bounded(Put(s.latest, KeyOf(p), p), MAX_LATEST));
        if Lookup(s.seen, StageOf(f.kind, p)) == Some(Line(p)) then (s1, [])
        else (s1.(seen := Bounded(Put(s.seen, StageOf(f.kind, p), Line(p)), MAX_SEEN)), [Line(p)])
  }

  function ShowAll(s: Printer, frames: seq<Frame>): (Printer, seq<string>)
    decreases |frames|
  {
    if frames == [] then (s, [])
    else
      var (before, lines) := ShowAll(s, frames[..|frames| - 1]);
      var (after, more) := Show(before, frames[|frames| - 1]);
      (after, lines + more)
  }

  function LastFrames(items: seq<Frame>): seq<Frame> {
    if |items| > MAX_HISTORY then items[|items| - MAX_HISTORY..] else items
  }

  function ShowHistory(s: Printer, items: seq<Frame>, truncated: bool): (Printer, seq<string>) {
    var (after, lines) := ShowAll(s, LastFrames(items));
    if truncated && Lookup(after.seen, Truncated).None? then (after.(seen := Put(after.seen, Truncated, "yes")), lines + [TRUNCATED])
    else (after, lines)
  }

  class ActivityPrinter {
    var seen: OrderedMap<StageKey, string>
    var latest: OrderedMap<OpKey, Progress>
    ghost var printed: seq<string>

    ghost function State(): Printer
      reads this
    {
      Printer(seen, latest)
    }

    constructor ()
      ensures State() == NEW_PRINTER && printed == []
    {
      seen, latest, printed := [], [], [];
    }

    /** Returns whether the frame belongs to this printer. */
    method OnFrame(f: Frame) returns (taken: bool)
      modifies this
      ensures taken == (f.kind in KINDS)
      ensures State() == Show(old(State()), f).0 && printed == old(printed) + Show(old(State()), f).1
    {
      assert printed + [] == printed;
      if f.kind !in KINDS { return false; }
      taken := true;
      if f.progress.None? { return; }
      var p := f.progress.value;
      var previous := Lookup(latest, KeyOf(p));
      if previous.Some? && Stale(previous.value, p) { return; }
      latest := Put(latest, KeyOf(p), p);
      if |latest| > MAX_LATEST { latest := latest[1..]; }
      var line := Line(p);
      if Lookup(seen, StageOf(f.kind, p)) == Some(line) { return; }
      seen := Put(seen, StageOf(f.kind, p), line);
      if |seen| > MAX_SEEN { seen := seen[1..]; }
      printed := printed + [line];
    }

    method History(items: seq<Frame>, truncated: bool)
      modifies this
      ensures State() == ShowHistory(old(State()), items, truncated).0
      ensures printed == old(printed) + ShowHistory(old(State()), items, truncated).1
    {
      var window := LastFrames(items);
      ghost var s0, before := State(), printed;
      assert window[..0] == [] && before + [] == before;
      for i := 0 to |window|
        invariant State() == ShowAll(s0, window[..i]).0 && printed == before + ShowAll(s0, window[..i]).1
      {
        hide Show, ShowAll;
        OneFrameMore(s0, window, i, before);
        var _ := OnFrame(window[i]);
      }
      assert window[..|window|] == window;
      hide ShowAll;
      ghost var shown := ShowAll(s0, window).1;
      assert (before + shown) + [TRUNCATED] == before + (shown + [TRUNCATED]);
      if truncated && Lookup(seen, Truncated).None? {
        seen := Put(seen, Truncated, "yes");
        printed := printed + [TRUNCATED];
      }
    }
  }

  lemma OneFrameMore(s: Printer, frames: seq<Frame>, i: nat, before: seq<string>)
    requires i < |frames|
    ensures var (shown, lines) := ShowAll(s, frames[..i]);
      var (next, more) := Show(shown, frames[i]);
      ShowAll(s, frames[..i + 1]) == (next, lines + more) && (before + lines) + more == before + (lines + more)
  {
    assert frames[..i + 1][..i] == frames[..i];
  }

  // ---------------------------------------------------------------- nothing goes back

  /** `b` has everything `a` has confirmed. */
  predicate AtLeast(a: Progress, b: Progress) {
    && (a.sequence.Some? ==> b.sequence.Some? && a.sequence.value <= b.sequence.value)
    && Rank(a.phase) <= Rank(b.phase) && a.completed <= b.completed
    && Acknowledged(a) <= Acknowledged(b) && Reused(a) <= Reused(b)
  }

  /** What is stale against a confirmed state is stale against every later one. */
  lemma RejectedStaysRejected(a: Progress, b: Progress, p: Progress)
    requires AtLeast(a, b) && Stale(a, p)
    ensures Stale(b, p)
  {
  }

  /** A frame does not push any entry out. */
  predicate Fits(s: Printer, f: Frame) {
    f.progress.Some? ==>
      && |Put(s.latest, KeyOf(f.progress.value), f.progress.value)| <= MAX_LATEST
      && |Put(s.seen, StageOf(f.kind, f.progress.value), Line(f.progress.value))| <= MAX_SEEN
  }

  ghost predicate NoEviction(frames: seq<Frame>)
    decreases |frames|
  {
    frames != [] ==>
      && NoEviction(frames[..|frames| - 1])
      && Fits(ShowAll(NEW_PRINTER, frames[..|frames| - 1]).0, frames[|frames| - 1])
  }

  lemma ShowKeepsDistinct(s: Printer, f: Frame)
    requires DistinctKeys(s.latest)
    ensures DistinctKeys(Show(s, f).0.latest)
  {
    if f.progress.Some? {
      var p := f.progress.value;
      PutKeys(s.latest, KeyOf(p), p);
      DropFirst(Put(s.latest, KeyOf(p), p), KeyOf(p));
    }
  }

  lemma {:induction false} RunKeepsDistinct(frames: seq<Frame>)
    ensures DistinctKeys(ShowAll(NEW_PRINTER, frames).0.latest)
    decreases |frames|
  {
    if frames != [] {
      RunKeepsDistinct(frames[..|frames| - 1]);
      ShowKeepsDistinct(ShowAll(NEW_PRINTER, frames[..|frames| - 1]).0, frames[|frames| - 1]);
    }
  }

  /** While an operation is held, everything confirmed of it only grows, whatever else is evicted. */
  lemma ConfirmedOnlyGrows(s: Printer, f: Frame, op: OpKey)
    requires DistinctKeys(s.latest) && Lookup(s.latest, op).Some? && Lookup(Show(s, f).0.latest, op).Some?
    ensures AtLeast(Lookup(s.latest, op).value, Lookup(Show(s, f).0.latest, op).value)
  {
    if f.progress.Some? {
      var p := f.progress.value;
      LookupPut(s.latest, KeyOf(p), p, op);
      PutKeys(s.latest, KeyOf(p), p);
      DropFirst(Put(s.latest, KeyOf(p), p), op);
    }
  }

  ghost predicate Held(frames: seq<Frame>, j: nat, op: OpKey)
    requires j <= |frames|
  {
    Lookup(ShowAll(NEW_PRINTER, frames[..j]).0.latest, op).Some?
  }

  /** The operation is among the retained ones after each of these moments. */
  ghost predicate HeldFrom(frames: seq<Frame>, k: nat, op: OpKey) {
    forall j :: k <= j <= |frames| ==> Held(frames, j, op)
  }

  /** Over every run, the confirmed values of an operation never go down for as long as it is retained. */
  lemma {:induction false} RunOnlyGrows(frames: seq<Frame>, k: nat, op: OpKey)
    requires k <= |frames| && HeldFrom(frames, k, op)
    ensures Held(frames, k, op) && Lookup(ShowAll(NEW_PRINTER, frames).0.latest, op).Some?
    ensures AtLeast(Lookup(ShowAll(NEW_PRINTER, frames[..k]).0.latest, op).value, Lookup(ShowAll(NEW_PRINTER, frames).0.latest, op).value)
    decreases |frames|
  {
    hide AtLeast, Show;
    assert frames[..|frames|] == frames;
    assert Held(frames, k, op) && Held(frames, |frames|, op);
    if k == |frames| {
      Reflexive(Lookup(ShowAll(NEW_PRINTER, frames).0.latest, op).value);
    } else {
      var front, last := frames[..|frames| - 1], frames[|frames| - 1];
      forall j | k <= j <= |front| ensures Held(front, j, op) {
        assert front[..j] == frames[..j] && Held(frames, j, op);
      }
      assert front[..k] == frames[..k] && front[..|front|] == front && Held(front, |front|, op);
      RunOnlyGrows(front, k, op);
      RunKeepsDistinct(front);
      var s := ShowAll(NEW_PRINTER, front).0;
      ConfirmedOnlyGrows(s, last, op);
      Transitive(Lookup(ShowAll(NEW_PRINTER, frames[..k]).0.latest, op).value, Lookup(s.latest, op).value, Lookup(Show(s, last).0.latest, op).value);
    }
  }

  lemma Reflexive(a: Progress)
    ensures AtLeast(a, a)
  {
  }

  lemma Transitive(a: Progress, b: Progress, c: Progress)
    requires AtLeast(a, b) && AtLeast(b, c)
    ensures AtLeast(a, c)
  {
  }

  // ---------------------------------------------------------------- nothing is repeated

  predicate Known(f: Frame) { f.kind in KINDS && f.progress.Some? }

  predicate SameOperation(f: Frame, g: Frame) {
    Known(f) && Known(g) && KeyOf(f.progress.value) == KeyOf(g.progress.value)
  }

  /** Within each operation the frames carry strictly increasing sequences. */
  ghost predicate Increasing(frames: seq<Frame>) {
    && (forall i :: 0 <= i < |frames| && Known(frames[i]) ==> frames[i].progress.value.sequence.Some?)
    && (forall i, j :: 0 <= i < j < |frames| && SameOperation(frames[i], frames[j]) ==>
         frames[i].progress.value.sequence.value < frames[j].progress.value.sequence.value)
  }

  /** The printer already knows this frame: it is confirmed and shown, or stale. */
  predicate Digested(s: Printer, f: Frame) {
    Known(f) ==>
      var p := f.progress.value;
      var latest := Lookup(s.latest, KeyOf(p));
      latest.Some? && (Stale(latest.value, p) || (latest.value == p && Lookup(s.seen, StageOf(f.kind, p)) == Some(Line(p))))
  }

  lemma DigestedIsSilent(s: Printer, f: Frame)
    requires Digested(s, f) && |s.latest| <= MAX_LATEST
    ensures Show(s, f) == (s, [])
  {
    if Known(f) && !Stale(Lookup(s.latest, KeyOf(f.progress.value)).value, f.progress.value) {
      PutSame(s.latest, KeyOf(f.progress.value), f.progress.value);
    }
  }

  lemma ShownIsDigested(s: Printer, f: Frame)
    requires Fits(s, f)
    ensures Digested(Show(s, f).0, f)
  {
    if Known(f) {
      var p := f.progress.value;
      LookupPut(s.latest, KeyOf(p), p, KeyOf(p));
      LookupPut(s.seen, StageOf(f.kind, p), Line(p), StageOf(f.kind, p));
    }
  }

  lemma DigestedStays(s: Printer, f: Frame, g: Frame)
    requires Digested(s, f) && Fits(s, g)
    requires SameOperation(f, g) ==>
      f.progress.value.sequence.Some? && g.progress.value.sequence.Some? && f.progress.value.sequence.value < g.progress.value.sequence.value
    ensures Digested(Show(s, g).0, f)
  {
    if Known(f) && Known(g) {
      var p, q := f.progress.value, g.progress.value;
      LookupPut(s.latest, KeyOf(q), q, KeyOf(p));
      LookupPut(s.seen, StageOf(g.kind, q), Line(q), StageOf(f.kind, p));
    }
  }

  lemma {:induction false} AllDigested(frames: seq<Frame>)
    requires Increasing(frames) && NoEviction(frames)
    ensures forall i :: 0 <= i < |frames| ==> Digested(ShowAll(NEW_PRINTER, frames).0, frames[i])
    ensures |ShowAll(NEW_PRINTER, frames).0.latest| <= MAX_LATEST
    decreases |frames|
  {
    if frames != [] {
      var front, last := frames[..|frames| - 1], frames[|frames| - 1];
      AllDigested(front);
      var s := ShowAll(NEW_PRINTER, front).0;
      ShownIsDigested(s, last);
      forall i | 0 <= i < |front| ensures Digested(Show(s, last).0, frames[i]) {
        assert front[i] == frames[i];
        DigestedStays(s, frames[i], last);
      }
    }
  }

  /**
    With strictly increasing sequences and no eviction, replaying frames that were already
    processed, any of them, in any order and any number of times, prints nothing and changes nothing.
   */
  lemma {:induction false} ReplayIsSilent(frames: seq<Frame>, again: seq<Frame>)
    requires Increasing(frames) && NoEviction(frames) && forall i :: 0 <= i < |again| ==> again[i] in frames
    ensures ShowAll(ShowAll(NEW_PRINTER, frames).0, again) == (ShowAll(NEW_PRINTER, frames).0, [])
    decreases |again|
  {
    if again != [] {
      var front, last := again[..|again| - 1], again[|again| - 1];
      forall i | 0 <= i < |front| ensures front[i] in frames { assert front[i] == again[i]; }
      ReplayIsSilent(frames, front);
      AllDigested(frames);
      var j :| 0 <= j < |frames| && frames[j] == last;
      var s := ShowAll(NEW_PRINTER, frames).0;
      DigestedIsSilent(s, last);
      hide Show, Increasing, NoEviction;
      assert ShowAll(s, front) == (s, []) && Show(s, last) == (s, []);
      assert ShowAll(s, again) == (s, [] + []);
    }
  }

  function Uploaded(missing: nat): Progress {
    Progress(Some(1), "a", Capture, Uploading, None, None, 0, None, Some(Transfer(0, missing, 0)))
  }

  lemma MissingIsShown(missing: nat)
    requires missing < 10
    ensures var prefix := PhaseText(Uploading) + DOT + OperationText(Capture) + DOT + Decimal(0) + " bytes acknowledged" + DOT;
      |Line(Uploaded(missing))| > |prefix| && Line(Uploaded(missing))[|prefix|] == Digit(missing)
  {
    var prefix := PhaseText(Uploading) + DOT + OperationText(Capture) + DOT + Decimal(0) + " bytes acknowledged" + DOT;
    var rest := " known missing bytes" + DOT + Decimal(0) + " bytes reused";
    assert Line(Uploaded(missing)) == prefix + Decimal(missing) + rest;
  }

  /** Without the condition it fails: two frames of one stage under one sequence are shown again on replay. */
  lemma EqualSequencesRepeat(f: Frame, g: Frame)
    requires f == Frame("task_transfer_progress", Some(Uploaded(5))) && g == Frame("task_transfer_progress", Some(Uploaded(3)))
    ensures NoEviction([f, g]) && !Increasing([f, g])
    ensures ShowAll(ShowAll(NEW_PRINTER, [f, g]).0, [f]).1 == [Line(Uploaded(5))]
  {
    MissingIsShown(5);
    MissingIsShown(3);
    assert [f, g][..1] == [f] && [f][..0] == [];
    var once := Show(NEW_PRINTER, f).0;
    var op, stage := KeyOf(Uploaded(5)), StageOf(f.kind, Uploaded(5));
    assert once == Printer([Entry(stage, Line(Uploaded(5)))], [Entry(op, Uploaded(5))]);
    var twice := Show(once, g).0;
    assert twice == Printer([Entry(stage, Line(Uploaded(3)))], [Entry(op, Uploaded(3))]);
    assert ShowAll(NEW_PRINTER, [f]).0 == once && ShowAll(NEW_PRINTER, [f, g]).0 == twice;
    assert SameOperation([f, g][0], [f, g][1]);
  }
}
