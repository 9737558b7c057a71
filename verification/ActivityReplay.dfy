/** Progress shown again: which frames stay rejected, when a replay is silent, and what repeated polls print. */
module ActivityReplay {
  import opened Options
  import opened OrderedMaps
  import opened TaskActivity

  // ---------------------------------------------------------------- what one frame does

  predicate Rejected(s: Printer, f: Frame) {
    Known(f) && var latest := Lookup(s.latest, KeyOf(f.progress.value)); latest.Some? && Stale(latest.value, f.progress.value)
  }

  predicate Takes(s: Printer, f: Frame) { Known(f) && !Rejected(s, f) }

  lemma LatestAfter(s: Printer, f: Frame, op: OpKey)
    requires Fits(s, f)
    ensures Lookup(Show(s, f).0.latest, op) ==
      if Takes(s, f) && op == KeyOf(f.progress.value) then f.progress else Lookup(s.latest, op)
  {
    if Known(f) { LookupPut(s.latest, KeyOf(f.progress.value), f.progress.value, op); }
  }

  lemma SeenAfter(s: Printer, f: Frame, k: StageKey)
    requires Fits(s, f)
    ensures Lookup(Show(s, f).0.seen, k) ==
      if Takes(s, f) && k == StageOf(f.kind, f.progress.value) then Some(Line(f.progress.value)) else Lookup(s.seen, k)
  {
    if Known(f) {
      var p := f.progress.value;
      LookupPut(s.seen, StageOf(f.kind, p), Line(p), k);
    }
  }

  ghost function After(frames: seq<Frame>): Printer { ShowAll(NEW_PRINTER, frames).0 }

  lemma AfterOneMore(frames: seq<Frame>, f: Frame)
    ensures After(frames + [f]) == Show(After(frames), f).0
    ensures NoEviction(frames + [f]) <==> NoEviction(frames) && Fits(After(frames), f)
  {
    assert (frames + [f])[..|frames|] == frames;
  }

  /**
    Over every run: a frame rejected at some moment is rejected at every later one exactly when its
    operation is retained at every later one.
   */
  lemma RejectedForGood(frames: seq<Frame>, k: nat, f: Frame)
    requires k <= |frames| && Rejected(After(frames[..k]), f)
    ensures (forall j :: k <= j <= |frames| ==> Rejected(After(frames[..j]), f)) <==> HeldFrom(frames, k, KeyOf(f.progress.value))
  {
    var op := KeyOf(f.progress.value);
    if HeldFrom(frames, k, op) {
      forall j | k <= j <= |frames| ensures Rejected(After(frames[..j]), f) {
        var part := frames[..j];
        assert part[..k] == frames[..k];
        forall i | k <= i <= |part| ensures Held(part, i, op) { assert part[..i] == frames[..i] && Held(frames, i, op); }
        RunOnlyGrows(part, k, op);
        RejectedStaysRejected(Lookup(After(part[..k]).latest, op).value, Lookup(After(part).latest, op).value, f.progress.value);
      }
    }
    if forall j :: k <= j <= |frames| ==> Rejected(After(frames[..j]), f) {
      forall j | k <= j <= |frames| ensures Held(frames, j, op) { assert Rejected(After(frames[..j]), f); }
    }
  }

  /** A frame of an operation that is not retained is taken, whatever it says. */
  lemma ForgottenIsTaken(s: Printer, f: Frame)
    requires Known(f) && Lookup(s.latest, KeyOf(f.progress.value)).None?
    ensures Lookup(Show(s, f).0.latest, KeyOf(f.progress.value)) == f.progress
  {
    var p := f.progress.value;
    AbsentKey(s.latest, KeyOf(p));
    PutNew(s.latest, KeyOf(p), p);
    LookupPut(s.latest, KeyOf(p), p, KeyOf(p));
    if s.latest != [] {
      assert (s.latest + [Entry(KeyOf(p), p)])[1..] == s.latest[1..] + [Entry(KeyOf(p), p)];
      LookupAbsentRest(s.latest, KeyOf(p), p);
    }
  }

  lemma {:induction false} AbsentKey<K, V>(m: OrderedMap<K, V>, k: K)
    requires Lookup(m, k).None?
    ensures forall j :: 0 <= j < |m| ==> m[j].key != k
  {
    if m != [] { AbsentKey(m[1..], k); }
  }

  lemma LookupAbsentRest<K, V>(m: OrderedMap<K, V>, k: K, v: V)
    requires m != [] && forall j :: 0 <= j < |m| ==> m[j].key != k
    ensures Lookup(m[1..] + [Entry(k, v)], k) == Some(v)
  {
    PutNew(m[1..], k, v);
    LookupPut(m[1..], k, v, k);
  }

  // ---------------------------------------------------------------- which frames are still current

  /** The frame does not take its operation back. */
  predicate Current(s: Printer, f: Frame) {
    Known(f) && Lookup(s.latest, KeyOf(f.progress.value)).Some? && !Rejected(s, f)
  }

  /** Nothing that is compared tells the two apart. */
  predicate Ties(p: Progress, q: Progress) {
    p.sequence == q.sequence && Rank(p.phase) == Rank(q.phase) && p.completed == q.completed
    && Acknowledged(p) == Acknowledged(q) && Reused(p) == Reused(q)
  }

  ghost predicate Accepted(frames: seq<Frame>, i: nat)
    requires i < |frames|
  {
    Takes(After(frames[..i]), frames[i])
  }

  /** A later accepted frame of the operation leaves this one behind. */
  ghost predicate Overtaken(frames: seq<Frame>, i: nat)
    requires i < |frames|
  {
    exists j :: i < j < |frames| && Overtakes(frames, i, j)
  }

  ghost predicate Overtakes(frames: seq<Frame>, i: nat, j: nat)
    requires i < |frames| && j < |frames|
  {
    Accepted(frames, j) && SameOperation(frames[i], frames[j]) && Stale(frames[j].progress.value, frames[i].progress.value)
  }

  /** After it was processed, a frame is behind its operation or confirmed by it. */
  predicate Processed(s: Printer, f: Frame) {
    Known(f) ==>
      var latest := Lookup(s.latest, KeyOf(f.progress.value));
      latest.Some? && (Stale(latest.value, f.progress.value) || AtLeast(f.progress.value, latest.value))
  }

  lemma ProcessedNext(s: Printer, f: Frame, g: Frame)
    requires Fits(s, g) && (Processed(s, f) || f == g)
    ensures Processed(Show(s, g).0, f)
  {
    hide Show, Fits;
    if Known(f) { LatestAfter(s, g, KeyOf(f.progress.value)); }
  }

  lemma {:induction false} AllProcessed(frames: seq<Frame>)
    requires NoEviction(frames)
    ensures forall i :: 0 <= i < |frames| ==> Processed(After(frames), frames[i])
    ensures |After(frames).latest| <= MAX_LATEST && |After(frames).seen| <= MAX_SEEN
    decreases |frames|
  {
    if frames != [] {
      var init, last := frames[..|frames| - 1], frames[|frames| - 1];
      AllProcessed(init);
      forall i | 0 <= i < |frames| ensures Processed(After(frames), frames[i]) {
        if i < |init| { assert init[i] == frames[i]; }
        ProcessedNext(After(init), frames[i], last);
      }
    }
  }

  lemma CurrentTies(s: Printer, f: Frame)
    requires Processed(s, f) && Current(s, f)
    ensures Ties(f.progress.value, Lookup(s.latest, KeyOf(f.progress.value)).value)
  {
  }

  /** A new frame keeps another one current exactly when it was current and the new one does not overtake it. */
  lemma CurrentNext(s: Printer, f: Frame, g: Frame)
    requires Fits(s, g) && Known(f) && Lookup(s.latest, KeyOf(f.progress.value)).Some?
    ensures Current(Show(s, g).0, f) <==>
      Current(s, f) && !(Takes(s, g) && SameOperation(f, g) && Stale(g.progress.value, f.progress.value))
  {
    hide Show, Fits;
    LatestAfter(s, g, KeyOf(f.progress.value));
  }

  lemma AcceptedPrefix(frames: seq<Frame>, f: Frame, i: nat)
    requires i < |frames|
    ensures Accepted(frames + [f], i) == Accepted(frames, i)
    ensures Overtaken(frames + [f], i) <==>
      Overtaken(frames, i) || (Takes(After(frames), f) && SameOperation(frames[i], f) && Stale(f.progress.value, frames[i].progress.value))
  {
    hide Takes, Stale, After;
    var all := frames + [f];
    forall k | 0 <= k < |frames| ensures all[..k] == frames[..k] && all[k] == frames[k] && Accepted(all, k) == Accepted(frames, k) {}
    assert all[..|frames|] == frames && all[|frames|] == f;
    if Overtaken(frames, i) {
      var j :| i < j < |frames| && Overtakes(frames, i, j);
      assert Overtakes(all, i, j);
    }
    if Overtaken(all, i) {
      var j :| i < j < |all| && Overtakes(all, i, j);
      if j < |frames| { assert Overtakes(frames, i, j); }
    }
    if Takes(After(frames), f) && SameOperation(frames[i], f) && Stale(f.progress.value, frames[i].progress.value) {
      assert Overtakes(all, i, |frames|);
    }
  }

  /** A processed frame is current exactly when it was accepted and nothing has overtaken it. */
  lemma {:induction false} CurrentIsNotOvertaken(frames: seq<Frame>, i: nat)
    requires NoEviction(frames) && i < |frames| && Known(frames[i])
    ensures Current(After(frames), frames[i]) <==> Accepted(frames, i) && !Overtaken(frames, i)
    decreases |frames|
  {
    var init, last := frames[..|frames| - 1], frames[|frames| - 1];
    assert frames == init + [last];
    AfterOneMore(init, last);
    if i < |init| {
      CurrentIsNotOvertaken(init, i);
      AllProcessed(init);
      assert Processed(After(init), init[i]);
      CurrentNext(After(init), frames[i], last);
      AcceptedPrefix(init, last, i);
    } else {
      LatestAfter(After(init), last, KeyOf(last.progress.value));
      hide After, Show, NoEviction, Fits;
      assert !Overtaken(frames, i);
    }
  }

  // ---------------------------------------------------------------- what current frames have shown

  /** The line seen for the frame's stage is that of a current frame of the same stage. */
  ghost predicate StageShown(s: Printer, frames: seq<Frame>, f: Frame)
    requires Known(f)
  {
    exists j :: 0 <= j < |frames| && ShowsStage(s, frames[j], f)
  }

  predicate ShowsStage(s: Printer, g: Frame, f: Frame)
    requires Known(f)
  {
    && Current(s, g) && StageOf(g.kind, g.progress.value) == StageOf(f.kind, f.progress.value)
    && Lookup(s.seen, StageOf(f.kind, f.progress.value)) == Some(Line(g.progress.value))
  }

  lemma TiedStayTogether(s: Printer, f: Frame, g: Frame, h: Frame)
    requires Fits(s, h) && Processed(s, f) && Processed(s, g) && Current(s, f) && Current(s, g) && SameOperation(f, g)
    ensures Current(Show(s, h).0, f) == Current(Show(s, h).0, g)
  {
    CurrentTies(s, f);
    CurrentTies(s, g);
    CurrentNext(s, f, h);
    CurrentNext(s, g, h);
  }

  lemma StageNext(s: Printer, frames: seq<Frame>, f: Frame, h: Frame)
    requires Fits(s, h) && (forall i :: 0 <= i < |frames| ==> Processed(s, frames[i]))
    requires f in frames && Known(f) && Current(Show(s, h).0, f) && (Current(s, f) ==> StageShown(s, frames, f))
    ensures StageShown(Show(s, h).0, frames + [h], f)
  {
    var s', all, k := Show(s, h).0, frames + [h], StageOf(f.kind, f.progress.value);
    assert Processed(s, f);
    CurrentNext(s, f, h);
    SeenAfter(s, h, k);
    if Takes(s, h) && StageOf(h.kind, h.progress.value) == k {
      LatestAfter(s, h, KeyOf(h.progress.value));
      assert ShowsStage(s', all[|frames|], f);
    } else {
      var j :| 0 <= j < |frames| && ShowsStage(s, frames[j], f);
      TiedStayTogether(s, f, frames[j], h);
      assert all[j] == frames[j] && ShowsStage(s', all[j], f);
    }
  }

  lemma {:induction false} StagesShown(frames: seq<Frame>)
    requires NoEviction(frames)
    ensures forall i :: 0 <= i < |frames| && Current(After(frames), frames[i]) ==> StageShown(After(frames), frames, frames[i])
    decreases |frames|
  {
    if frames != [] {
      var init, last := frames[..|frames| - 1], frames[|frames| - 1];
      assert frames == init + [last];
      AfterOneMore(init, last);
      StagesShown(init);
      AllProcessed(init);
      var s := After(init);
      forall i | 0 <= i < |frames| && Current(After(frames), frames[i]) ensures StageShown(After(frames), frames, frames[i]) {
        if i < |init| {
          assert init[i] == frames[i];
          StageNext(s, init, frames[i], last);
        } else {
          LatestAfter(s, last, KeyOf(last.progress.value));
          SeenAfter(s, last, StageOf(last.kind, last.progress.value));
          assert ShowsStage(After(frames), frames[i], last);
        }
      }
    }
  }

  // ---------------------------------------------------------------- silent replay, exactly

  /** Two accepted frames of one stage that nothing has overtaken show different lines. */
  ghost predicate Clash(frames: seq<Frame>, i: nat, j: nat)
    requires i < |frames| && j < |frames|
  {
    && Accepted(frames, i) && Accepted(frames, j) && !Overtaken(frames, i) && !Overtaken(frames, j)
    && StageOf(frames[i].kind, frames[i].progress.value) == StageOf(frames[j].kind, frames[j].progress.value)
    && Line(frames[i].progress.value) != Line(frames[j].progress.value)
  }

  ghost predicate Clashes(frames: seq<Frame>) {
    exists i, j :: 0 <= i < |frames| && 0 <= j < |frames| && Clash(frames, i, j)
  }

  /** Such frames agree in everything that orders frames, so only their missing bytes, total, provider or model differ. */
  lemma ClashAgrees(frames: seq<Frame>, i: nat, j: nat)
    requires NoEviction(frames) && i < |frames| && j < |frames| && Clash(frames, i, j)
    ensures Ties(frames[i].progress.value, frames[j].progress.value)
  {
    AllProcessed(frames);
    CurrentIsNotOvertaken(frames, i);
    CurrentIsNotOvertaken(frames, j);
    hide After, NoEviction;
    assert Processed(After(frames), frames[i]) && Processed(After(frames), frames[j]);
    CurrentTies(After(frames), frames[i]);
    CurrentTies(After(frames), frames[j]);
  }

  /** Showing the frame again prints nothing. */
  predicate Quiet(s: Printer, f: Frame) {
    Known(f) ==>
      var latest := Lookup(s.latest, KeyOf(f.progress.value));
      latest.Some? && (Stale(latest.value, f.progress.value)
        || (Ties(f.progress.value, latest.value) && Lookup(s.seen, StageOf(f.kind, f.progress.value)) == Some(Line(f.progress.value))))
  }

  lemma SameLine(frames: seq<Frame>, i: nat, j: nat)
    requires NoEviction(frames) && !Clashes(frames) && i < |frames| && j < |frames|
    requires Current(After(frames), frames[i]) && ShowsStage(After(frames), frames[j], frames[i])
    ensures Lookup(After(frames).seen, StageOf(frames[i].kind, frames[i].progress.value)) == Some(Line(frames[i].progress.value))
  {
    hide After, NoEviction, Accepted, Overtaken, Line, Stale, Lookup;
    CurrentIsNotOvertaken(frames, i);
    CurrentIsNotOvertaken(frames, j);
    assert !Clash(frames, i, j);
  }

  lemma QuietWithoutClash(frames: seq<Frame>, i: nat)
    requires NoEviction(frames) && !Clashes(frames) && i < |frames|
    ensures Quiet(After(frames), frames[i])
  {
    hide After, NoEviction, Clashes, Line, Stale, Ties, Lookup;
    var s, f := After(frames), frames[i];
    AllProcessed(frames);
    assert Processed(s, f);
    if Known(f) && !Rejected(s, f) {
      CurrentTies(s, f);
      StagesShown(frames);
      assert StageShown(s, frames, f);
      var j :| 0 <= j < |frames| && ShowsStage(s, frames[j], f);
      SameLine(frames, i, j);
    }
  }

  /** The printer after a replay: no operation has moved, and no stage shows another line. */
  ghost predicate Echoes(s: Printer, t: Printer) {
    && |t.latest| == |s.latest|
    && (forall op :: Lookup(t.latest, op).Some? == Lookup(s.latest, op).Some?)
    && (forall op :: Lookup(s.latest, op).Some? && Lookup(t.latest, op).Some? ==> Ties(Lookup(t.latest, op).value, Lookup(s.latest, op).value))
    && (forall k: StageKey :: k.Stage? ==> Lookup(t.seen, k) == Lookup(s.seen, k))
  }

  lemma {:induction false} PutKeepsSize<K, V>(m: OrderedMap<K, V>, k: K, v: V)
    requires Lookup(m, k).Some?
    ensures |Put(m, k, v)| == |m|
  {
    if m[0].key != k { PutKeepsSize(m[1..], k, v); }
  }

  lemma QuietStep(s: Printer, t: Printer, f: Frame)
    requires Echoes(s, t) && |s.latest| <= MAX_LATEST && Quiet(s, f)
    ensures Show(t, f).1 == [] && Show(t, f).0.seen == t.seen && Echoes(s, Show(t, f).0)
  {
    if Known(f) {
      var p := f.progress.value;
      assert Lookup(t.latest, KeyOf(p)).Some?;
      PutKeepsSize(t.latest, KeyOf(p), p);
      forall op ensures Lookup(Put(t.latest, KeyOf(p), p), op) == if op == KeyOf(p) then Some(p) else Lookup(t.latest, op) {
        LookupPut(t.latest, KeyOf(p), p, op);
      }
    }
  }

  lemma {:induction false} QuietRun(s: Printer, t: Printer, again: seq<Frame>)
    requires Echoes(s, t) && |s.latest| <= MAX_LATEST && forall i :: 0 <= i < |again| ==> Quiet(s, again[i])
    ensures ShowAll(t, again).1 == [] && ShowAll(t, again).0.seen == t.seen && Echoes(s, ShowAll(t, again).0)
    decreases |again|
  {
    if again != [] {
      QuietRun(s, t, again[..|again| - 1]);
      hide Echoes, Quiet, Show;
      QuietStep(s, ShowAll(t, again[..|again| - 1]).0, again[|again| - 1]);
    }
  }

  ghost predicate Among(again: seq<Frame>, frames: seq<Frame>) { forall i :: 0 <= i < |again| ==> again[i] in frames }

  /** Replaying processed frames, any of them, in any order and any number of times, prints nothing. */
  ghost predicate SilentReplay(frames: seq<Frame>) {
    forall again :: Among(again, frames) ==> ShowAll(After(frames), again).1 == []
  }

  lemma AllQuiet(frames: seq<Frame>, again: seq<Frame>)
    requires NoEviction(frames) && !Clashes(frames) && Among(again, frames)
    ensures forall i :: 0 <= i < |again| ==> Quiet(After(frames), again[i])
  {
    hide NoEviction, Clashes, Quiet, After;
    forall i | 0 <= i < |again| ensures Quiet(After(frames), again[i]) {
      var j :| 0 <= j < |frames| && frames[j] == again[i];
      QuietWithoutClash(frames, j);
    }
  }

  lemma EchoesItself(s: Printer)
    ensures Echoes(s, s)
  {
  }

  lemma CurrentPrints(s: Printer, f: Frame)
    requires Current(s, f) && Lookup(s.seen, StageOf(f.kind, f.progress.value)) != Some(Line(f.progress.value))
    ensures ShowAll(s, [f]).1 == [Line(f.progress.value)]
  {
    assert [f][..0] == [];
    assert ShowAll(s, [f]).1 == [] + Show(s, f).1;
  }

  lemma CurrentIsNotSilent(frames: seq<Frame>, i: nat)
    requires i < |frames| && Current(After(frames), frames[i])
    requires Lookup(After(frames).seen, StageOf(frames[i].kind, frames[i].progress.value)) != Some(Line(frames[i].progress.value))
    ensures !SilentReplay(frames)
  {
    hide After;
    CurrentPrints(After(frames), frames[i]);
    assert Among([frames[i]], frames);
  }

  lemma ClashIsNotSilent(frames: seq<Frame>, i: nat, j: nat)
    requires NoEviction(frames) && i < |frames| && j < |frames| && Clash(frames, i, j)
    ensures !SilentReplay(frames)
  {
    CurrentIsNotOvertaken(frames, i);
    CurrentIsNotOvertaken(frames, j);
    hide After, NoEviction, Accepted, Overtaken, Rejected, SilentReplay, Line, Lookup;
    if Lookup(After(frames).seen, StageOf(frames[i].kind, frames[i].progress.value)) == Some(Line(frames[i].progress.value)) {
      CurrentIsNotSilent(frames, j);
    } else {
      CurrentIsNotSilent(frames, i);
    }
  }

  /**
    Without eviction, a replay is silent exactly when no two accepted frames of one stage, neither
    overtaken later, show different lines.
   */
  lemma SilentExactly(frames: seq<Frame>)
    requires NoEviction(frames)
    ensures SilentReplay(frames) <==> !Clashes(frames)
  {
    if Clashes(frames) {
      var i, j :| 0 <= i < |frames| && 0 <= j < |frames| && Clash(frames, i, j);
      ClashIsNotSilent(frames, i, j);
    } else {
      AllProcessed(frames);
      hide NoEviction, Clashes, Quiet, After, Echoes;
      EchoesItself(After(frames));
      forall again | Among(again, frames) ensures ShowAll(After(frames), again).1 == [] {
        AllQuiet(frames, again);
        QuietRun(After(frames), After(frames), again);
      }
    }
  }

  // ---------------------------------------------------------------- repeated polls

  /** One read of the saved history. */
  datatype Poll = Poll(items: seq<Frame>, truncated: bool)

  function ShowPolls(s: Printer, polls: seq<Poll>): (Printer, seq<string>)
    decreases |polls|
  {
    if polls == [] then (s, [])
    else
      var (before, lines) := ShowPolls(s, polls[..|polls| - 1]);
      var (after, more) := ShowHistory(before, polls[|polls| - 1].items, polls[|polls| - 1].truncated);
      (after, lines + more)
  }

  ghost predicate SomeTruncated(polls: seq<Poll>) { exists i :: 0 <= i < |polls| && polls[i].truncated }

  predicate Noticed(s: Printer) { Lookup(s.seen, Truncated).Some? }

  lemma QuietPoll(s: Printer, t: Printer, poll: Poll)
    requires Echoes(s, t) && |s.latest| <= MAX_LATEST && forall i :: 0 <= i < |poll.items| ==> Quiet(s, poll.items[i])
    ensures var (after, lines) := ShowHistory(t, poll.items, poll.truncated);
      && Echoes(s, after) && (Noticed(after) <==> Noticed(t) || poll.truncated)
      && lines == if poll.truncated && !Noticed(t) then [TRUNCATED] else []
  {
    hide Quiet;
    var window := LastFrames(poll.items);
    forall i | 0 <= i < |window| ensures Quiet(s, window[i]) { assert window[i] == poll.items[|poll.items| - |window| + i]; }
    QuietRun(s, t, window);
    var quiet := ShowAll(t, window).0;
    forall k ensures Lookup(Put(quiet.seen, Truncated, "yes"), k) == if k == Truncated then Some("yes") else Lookup(quiet.seen, k) {
      LookupPut(quiet.seen, Truncated, "yes", k);
    }
    hide ShowAll;
    assert [] + [TRUNCATED] == [TRUNCATED];
  }

  lemma {:induction false} QuietPolls(s: Printer, polls: seq<Poll>)
    requires |s.latest| <= MAX_LATEST && forall n, i :: 0 <= n < |polls| && 0 <= i < |polls[n].items| ==> Quiet(s, polls[n].items[i])
    ensures var (after, lines) := ShowPolls(s, polls);
      && Echoes(s, after) && (Noticed(after) <==> Noticed(s) || SomeTruncated(polls))
      && lines == if SomeTruncated(polls) && !Noticed(s) then [TRUNCATED] else []
    decreases |polls|
  {
    hide Quiet, Echoes, Noticed, ShowHistory;
    if polls == [] {
      EchoesItself(s);
    } else {
      var init, last := polls[..|polls| - 1], polls[|polls| - 1];
      forall n, i | 0 <= n < |init| && 0 <= i < |init[n].items| ensures Quiet(s, init[n].items[i]) { assert init[n] == polls[n]; }
      QuietPolls(s, init);
      QuietPoll(s, ShowPolls(s, init).0, last);
      assert SomeTruncated(polls) <==> SomeTruncated(init) || last.truncated by {
        assert forall n :: 0 <= n < |init| ==> init[n] == polls[n];
        if SomeTruncated(init) {
          var n :| 0 <= n < |init| && init[n].truncated;
          assert polls[n].truncated;
        }
      }
    }
  }

  /**
    However often a saved history of processed frames is read again, all the reads together print
    at most the notice that it was cut, and that once: exactly when some read was cut and the
    notice had not been shown.
   */
  lemma PollsAreSilent(frames: seq<Frame>, polls: seq<Poll>)
    requires NoEviction(frames) && !Clashes(frames) && forall n :: 0 <= n < |polls| ==> Among(polls[n].items, frames)
    ensures ShowPolls(After(frames), polls).1 == if SomeTruncated(polls) && !Noticed(After(frames)) then [TRUNCATED] else []
  {
    AllProcessed(frames);
    hide NoEviction, Clashes, Quiet, After, Noticed, ShowPolls, SomeTruncated, Among;
    forall n | 0 <= n < |polls| ensures forall i :: 0 <= i < |polls[n].items| ==> Quiet(After(frames), polls[n].items[i]) {
      AllQuiet(frames, polls[n].items);
    }
    QuietPolls(After(frames), polls);
  }

  // ---------------------------------------------------------------- increasing sequences never clash

  /** Strictly increasing sequences are enough, and not needed: a single frame without one replays silently. */
  lemma {:induction false} IncreasingIsEnough(frames: seq<Frame>)
    requires NoEviction(frames) && Increasing(frames)
    ensures !Clashes(frames)
  {
    forall again | Among(again, frames) ensures ShowAll(After(frames), again).1 == [] {
      hide Increasing, NoEviction;
      ReplayIsSilent(frames, again);
    }
    SilentExactly(frames);
  }

  lemma UnsequencedIsSilent(f: Frame)
    requires Known(f) && f.progress.value.sequence.None?
    ensures !Increasing([f]) && NoEviction([f]) && SilentReplay([f])
  {
    var p := f.progress.value;
    assert [f][0] == f && [f][..0] == [] && ShowAll(NEW_PRINTER, []).0 == NEW_PRINTER;
    assert Put(NEW_PRINTER.latest, KeyOf(p), p) == [Entry(KeyOf(p), p)];
    assert Put(NEW_PRINTER.seen, StageOf(f.kind, p), Line(p)) == [Entry(StageOf(f.kind, p), Line(p))];
    assert NoEviction([f]);
    assert Known([f][0]);
    hide NoEviction, SilentReplay, Line;
    assert !Overtaken([f], 0);
    SilentExactly([f]);
  }
}
