/** What the live tail shows, told from the frames alone: the lines in order, and where they end. */
module SteerScreen {
  import opened Decimals
  import opened Options
  import opened SteerTail

  predicate IsOwn<D>(id: string, f: Frame<D>) { f.eventId.Some? && f.eventId.value == id }

  /** The printers after the event's own frames. */
  function PrintersAfter<P, D>(present: Present<P, D>, id: string, printers: P, frames: seq<Frame<D>>): P {
    if frames == [] then printers
    else
      var before := PrintersAfter(present, id, printers, frames[..|frames| - 1]);
      if IsOwn(id, frames[|frames| - 1]) then present(before, frames[|frames| - 1]).printers else before
  }

  /** What the printers make of frame `i` when it comes. */
  function At<P, D>(present: Present<P, D>, id: string, printers: P, frames: seq<Frame<D>>, i: nat): Presented<P>
    requires i < |frames|
  {
    present(PrintersAfter(present, id, printers, frames[..i]), frames[i])
  }

  /** An answer in words: a chunk with a text that is not reasoning. */
  predicate Speaks<D>(f: Frame<D>) {
    f.kind == "chunk" && f.text.Some? && !(f.textKind.Some? && f.textKind.value == "reasoning")
  }

  predicate Replies<D>(f: Frame<D>) {
    f.kind == "event_complete" && f.finalReply.Some? && f.finalReply.value != ""
  }

  /** The lines of an own frame: what the printers print, and what it says itself if none of them took it. */
  function LinesOf<P, D>(presented: Presented<P>, f: Frame<D>): seq<string> {
    if presented.taken then presented.lines
    else if Speaks(f) then presented.lines + ["[claw] " + f.text.value]
    else if Replies(f) then presented.lines + ["Final reply:\n" + f.finalReply.value]
    else presented.lines
  }

  function LinesAfter<P, D>(present: Present<P, D>, id: string, printers: P, frames: seq<Frame<D>>): seq<string> {
    if frames == [] then []
    else
      var i := |frames| - 1;
      LinesAfter(present, id, printers, frames[..i]) + if IsOwn(id, frames[i]) then LinesOf(At(present, id, printers, frames, i), frames[i]) else []
  }

  /** Frame `i` completes the event. */
  ghost predicate Completes<P, D>(present: Present<P, D>, id: string, printers: P, frames: seq<Frame<D>>, i: nat)
    requires i < |frames|
  {
    IsOwn(id, frames[i]) && frames[i].kind == "event_complete" && !At(present, id, printers, frames, i).taken
  }

  ghost predicate NoneCompletes<P, D>(present: Present<P, D>, id: string, printers: P, frames: seq<Frame<D>>, n: nat)
    requires n <= |frames|
  {
    forall i :: 0 <= i < n ==> !Completes(present, id, printers, frames, i)
  }

  function StatusOf<D>(f: Frame<D>): string { if f.status.Some? then f.status.value else "unknown" }

  /** The screen over the first `n` frames. */
  function Told<P, D>(present: Present<P, D>, id: string, s: Screen<P>, frames: seq<Frame<D>>, complete: Option<string>): Screen<P> {
    Screen(PrintersAfter(present, id, s.printers, frames), s.lines + LinesAfter(present, id, s.printers, frames), complete)
  }

  lemma OneMoreFrame<P, D>(present: Present<P, D>, id: string, s: Screen<P>, frames: seq<Frame<D>>, i: nat)
    requires i < |frames| && s.complete.None?
    ensures var before := Told(present, id, s, frames[..i], None);
      Filter(present, id, before, frames[i]) == Told(present, id, s, frames[..i + 1],
        if Completes(present, id, s.printers, frames, i) then Some(StatusOf(frames[i])) else None)
  {
    assert frames[..i + 1][..i] == frames[..i];
    var shown := At(present, id, s.printers, frames, i);
    var lines := LinesAfter(present, id, s.printers, frames[..i]);
    assert s.lines + (lines + shown.lines) == (s.lines + lines) + shown.lines;
    assert lines + [] == lines && shown.lines + [] == shown.lines;
    if Speaks(frames[i]) {
      assert s.lines + (lines + (shown.lines + [ChunkLine(frames[i].text.value)])) == ((s.lines + lines) + shown.lines) + [ChunkLine(frames[i].text.value)];
    }
    if Replies(frames[i]) {
      assert s.lines + (lines + (shown.lines + [ReplyLine(frames[i].finalReply.value)])) == ((s.lines + lines) + shown.lines) + [ReplyLine(frames[i].finalReply.value)];
    }
  }

  lemma {:induction false} UntilComplete<P, D>(present: Present<P, D>, id: string, s: Screen<P>, frames: seq<Frame<D>>, n: nat)
    requires n <= |frames| && s.complete.None? && NoneCompletes(present, id, s.printers, frames, n)
    ensures Replay(present, id, s, frames[..n]) == Told(present, id, s, frames[..n], None)
    decreases n
  {
    if n == 0 {
      assert s.lines + [] == s.lines;
    } else {
      UntilComplete(present, id, s, frames, n - 1);
      OneMoreFrame(present, id, s, frames, n - 1);
      hide Filter, Told, Completes;
      assert frames[..n] == frames[..n - 1] + [frames[n - 1]];
      ReplayConcat(present, id, s, frames[..n - 1], [frames[n - 1]]);
      ReplayOne(present, id, Replay(present, id, s, frames[..n - 1]), frames[n - 1]);
      ToldIsOpen(present, id, s, frames[..n - 1]);
    }
  }

  lemma ToldIsOpen<P, D>(present: Present<P, D>, id: string, s: Screen<P>, frames: seq<Frame<D>>)
    ensures Told(present, id, s, frames, None).complete.None?
  {
  }

  /**
    For every trace: up to the first own completion that no printer takes, the lines are in order
    those of the own frames - the printers' lines, `[claw] ` and the text of each chunk that no
    printer took, that has a text and is not reasoning, and at last the final reply if there is one.
    The status is that completion's, and nothing after it is shown. Without one everything is shown
    and nothing is complete. `n` is the place of the first completion, or the length.
   */
  lemma ScreenIsTold<P, D>(present: Present<P, D>, id: string, s: Screen<P>, frames: seq<Frame<D>>, n: nat)
    requires s.complete.None? && n <= |frames| && NoneCompletes(present, id, s.printers, frames, n)
    requires n < |frames| ==> Completes(present, id, s.printers, frames, n)
    ensures Replay(present, id, s, frames) ==
      if n < |frames| then Told(present, id, s, frames[..n + 1], Some(StatusOf(frames[n]))) else Told(present, id, s, frames, None)
  {
    UntilComplete(present, id, s, frames, n);
    assert frames[..|frames|] == frames;
    if n < |frames| {
      OneMoreFrame(present, id, s, frames, n);
      hide Filter;
      assert frames == frames[..n] + ([frames[n]] + frames[n + 1..]);
      ReplayConcat(present, id, s, frames[..n], [frames[n]] + frames[n + 1..]);
      ReplayConcat(present, id, Replay(present, id, s, frames[..n]), [frames[n]], frames[n + 1..]);
      ReplayOne(present, id, Replay(present, id, s, frames[..n]), frames[n]);
    }
  }

  /** The place of the first completion, or the length of the trace. */
  lemma {:induction false} FirstCompletion<P, D>(present: Present<P, D>, id: string, printers: P, frames: seq<Frame<D>>, k: nat) returns (n: nat)
    requires k <= |frames| && NoneCompletes(present, id, printers, frames, k)
    ensures k <= n <= |frames| && NoneCompletes(present, id, printers, frames, n)
    ensures n < |frames| ==> Completes(present, id, printers, frames, n)
    decreases |frames| - k
  {
    n := k;
    if k < |frames| && !Completes(present, id, printers, frames, k) { n := FirstCompletion(present, id, printers, frames, k + 1); }
  }

  /**
    The same for the whole tail, whenever the id arrives: first the notice with the number of the
    early frames that were dropped, then the longest suffix of the early frames that fits both caps,
    and the later frames.
   */
  lemma TailIsTold<P, D>(present: Present<P, D>, printers: P, frames: seq<Frame<D>>, k: nat, id: string, n: nat)
    requires k <= |frames|
    requires var shown := Keep(frames[..k]) + frames[k..];
      n <= |shown| && NoneCompletes(present, id, printers, shown, n) && (n < |shown| ==> Completes(present, id, printers, shown, n))
    ensures var shown, dropped := Keep(frames[..k]) + frames[k..], k - |Keep(frames[..k])|;
      var s0 := Screen(printers, if dropped > 0 then [Decimal(dropped) + " early frame(s) dropped live"] else [], None);
      TailOf(present, printers, frames, k, id).screen ==
        if n < |shown| then Told(present, id, s0, shown[..n + 1], Some(StatusOf(shown[n]))) else Told(present, id, s0, shown, None)
  {
    var shown, dropped := Keep(frames[..k]) + frames[k..], k - |Keep(frames[..k])|;
    TailShowsKeptFrames(present, printers, frames, k, id);
    hide TailOf, Keep, Replay, Told, NoneCompletes, Completes;
    var s0 := Screen(printers, if dropped > 0 then [DropNotice(dropped)] else [], None);
    ScreenIsTold(present, id, s0, shown, n);
  }

  /** Printers that neither print nor take anything. */
  ghost predicate Silent<P(!new), D(!new)>(present: Present<P, D>) {
    forall p, f :: present(p, f).lines == [] && !present(p, f).taken
  }

  /** The frame is the event's own and says the line. */
  predicate Says<D>(id: string, f: Frame<D>, line: string) {
    && IsOwn(id, f)
    && ((Speaks(f) && line == "[claw] " + f.text.value) || (Replies(f) && line == "Final reply:\n" + f.finalReply.value))
  }

  /** Beside silent printers every line is the text of an own chunk that is not reasoning, or an own final reply. */
  lemma {:induction false} EveryLineIsSaid<P(!new), D(!new)>(present: Present<P, D>, id: string, printers: P, frames: seq<Frame<D>>, line: string)
    requires Silent(present) && line in LinesAfter(present, id, printers, frames)
    ensures exists i :: 0 <= i < |frames| && Says(id, frames[i], line)
    decreases |frames|
  {
    var i := |frames| - 1;
    var front := frames[..i];
    if line in LinesAfter(present, id, printers, front) {
      EveryLineIsSaid(present, id, printers, front, line);
      var j :| 0 <= j < |front| && Says(id, front[j], line);
      assert frames[j] == front[j];
    } else {
      assert line in LinesOf(At(present, id, printers, frames, i), frames[i]);
    }
  }
}
