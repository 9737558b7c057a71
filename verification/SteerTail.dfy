/**
  The live tail of one steered event. Frames that arrive before the event id is known wait in
  a bounded buffer that drops its oldest; the id turns the stream into a filter that first
  replays the buffer. `P` is the state of the progress and tool printers and `present` their
  joint step: its new state, the lines it prints, and whether it took the frame.
 */
module SteerTail {
  import opened Decimals
  import opened Options

  const MAX_FRAMES := 256
  const MAX_BYTES := 256 * 1024

  /** A frame; `payload` is what only the printers read. */
  datatype Frame<D> = Frame(
    eventId: Option<string>, kind: string, textKind: Option<string>, text: Option<string>,
    finalReply: Option<string>, status: Option<string>, payload: D, bytes: nat)

  datatype Presented<P> = Presented(printers: P, lines: seq<string>, taken: bool)

  type Present<!P, !D> = (P, Frame<D>) -> Presented<P>

  /** What the user has been shown, and the terminal status once it is known. */
  datatype Screen<P> = Screen(printers: P, lines: seq<string>, complete: Option<string>)

  // ---------------------------------------------------------------- the filter

  function ChunkLine(text: string): string { "[claw] " + text }

  function ReplyLine(text: string): string { "Final reply:\n" + text }

  /** One frame through the filter; `complete` becomes known exactly when the filter asks to stop. */
  function Filter<P, D>(present: Present<P, D>, id: string, s: Screen<P>, f: Frame<D>): Screen<P> {
    if f.eventId != Some(id) then s
    else
      var shown := present(s.printers, f);
      var s1 := Screen(shown.printers, s.lines + shown.lines, s.complete);
      if shown.taken then s1
      else if f.kind == "chunk" && f.textKind == Some("reasoning") then s1
      else if f.kind == "chunk" && f.text.Some? then s1.(lines := s1.lines + [ChunkLine(f.text.value)])
      else if f.kind == "event_complete" then
        s1.(lines := s1.lines + (if f.finalReply.Some? && f.finalReply.value != "" then [ReplyLine(f.finalReply.value)] else []),
            complete := Some(if f.status.Some? then f.status.value else "unknown"))
      else s1
  }

  /** Filtering a trace from its first frame, stopping at the first stop. */
  function Replay<P, D>(present: Present<P, D>, id: string, s: Screen<P>, frames: seq<Frame<D>>): Screen<P>
    decreases |frames|
  {
    if frames == [] || s.complete.Some? then s
    else Replay(present, id, Filter(present, id, s, frames[0]), frames[1..])
  }

  function Own<D>(id: string, frames: seq<Frame<D>>): seq<Frame<D>> {
    if frames == [] then []
    else (if frames[0].eventId == Some(id) then [frames[0]] else []) + Own(id, frames[1..])
  }

  lemma ReplayOne<P, D>(present: Present<P, D>, id: string, s: Screen<P>, f: Frame<D>)
    ensures Replay(present, id, s, [f]) == if s.complete.Some? then s else Filter(present, id, s, f)
  {
    assert [f][1..] == [];
  }

  lemma {:induction false} ReplayConcat<P, D>(present: Present<P, D>, id: string, s: Screen<P>, a: seq<Frame<D>>, b: seq<Frame<D>>)
    ensures Replay(present, id, s, a + b) == Replay(present, id, Replay(present, id, s, a), b)
    decreases |a|
  {
    if a == [] {
      assert a + b == b;
    } else if s.complete.None? {
      assert (a + b)[1..] == a[1..] + b;
      ReplayConcat(present, id, Filter(present, id, s, a[0]), a[1..], b);
    }
  }

  /** What is shown depends only on the frames that carry the id. */
  lemma {:induction false} OnlyOwnFramesMatter<P, D>(present: Present<P, D>, id: string, s: Screen<P>, frames: seq<Frame<D>>)
    ensures Replay(present, id, s, frames) == Replay(present, id, s, Own(id, frames))
    decreases |frames|
  {
    if frames != [] && s.complete.None? {
      var rest := Own(id, frames[1..]);
      OnlyOwnFramesMatter(present, id, Filter(present, id, s, frames[0]), frames[1..]);
      if frames[0].eventId == Some(id) {
        assert ([frames[0]] + rest)[1..] == rest;
      } else {
        assert Own(id, frames) == rest;
      }
    }
  }

  // ---------------------------------------------------------------- the bounded buffer

  function Bytes<D>(frames: seq<Frame<D>>): nat {
    if frames == [] then 0 else frames[0].bytes + Bytes(frames[1..])
  }

  predicate Fits<D>(frames: seq<Frame<D>>) {
    |frames| <= MAX_FRAMES && Bytes(frames) <= MAX_BYTES
  }

  /** Drops the oldest frames until the rest fits. */
  function Keep<D>(frames: seq<Frame<D>>): (kept: seq<Frame<D>>)
    ensures |kept| <= |frames|
  {
    if Fits(frames) then frames else Keep(frames[1..])
  }

  lemma {:induction false} BytesAppend<D>(frames: seq<Frame<D>>, f: Frame<D>)
    ensures Bytes(frames + [f]) == Bytes(frames) + f.bytes
  {
    if frames != [] {
      assert (frames + [f])[1..] == frames[1..] + [f];
      BytesAppend(frames[1..], f);
    }
  }

  /** What is kept is the longest suffix that fits both caps. */
  lemma {:induction false} KeepIsLongestSuffix<D>(frames: seq<Frame<D>>)
    ensures Keep(frames) == frames[|frames| - |Keep(frames)|..] && |Keep(frames)| <= 256 && Bytes(Keep(frames)) <= 262_144
    ensures forall i :: 0 <= i <= |frames| && |frames[i..]| <= 256 && Bytes(frames[i..]) <= 262_144 ==> |frames| - i <= |Keep(frames)|
    decreases |frames|
  {
    if !Fits(frames) {
      KeepIsLongestSuffix(frames[1..]);
      forall i | 0 <= i <= |frames| && |frames[i..]| <= 256 && Bytes(frames[i..]) <= 262_144 ensures |frames| - i <= |Keep(frames)| {
        if i > 0 {
          assert frames[i..] == frames[1..][i - 1..];
        }
      }
    }
  }

  lemma KeepingAllKeepsAll<D>(frames: seq<Frame<D>>)
    requires |Keep(frames)| == |frames|
    ensures Keep(frames) == frames
  {
    KeepIsLongestSuffix(frames);
  }

  lemma {:induction false} FittingFrontFits<D>(frames: seq<Frame<D>>, f: Frame<D>)
    requires Fits(frames + [f])
    ensures Fits(frames)
  {
    BytesAppend(frames, f);
  }

  /** Evicting after every arrival keeps what evicting once at the end would keep. */
  lemma {:induction false} KeepIncrementally<D>(frames: seq<Frame<D>>, f: Frame<D>)
    ensures Keep(frames + [f]) == Keep(Keep(frames) + [f])
    decreases |frames|
  {
    if !Fits(frames) {
      if Fits(frames + [f]) { FittingFrontFits(frames, f); }
      assert (frames + [f])[1..] == frames[1..] + [f];
      KeepIncrementally(frames[1..], f);
    }
  }

  // ---------------------------------------------------------------- the tail

  datatype Tail<P, D> = Tail(entries: seq<Frame<D>>, dropped: nat, live: Option<string>, screen: Screen<P>)

  function DropNotice(n: nat): string { Decimal(n) + " early frame(s) dropped live" }

  function NewTail<P, D>(printers: P): Tail<P, D> {
    Tail([], 0, None, Screen(printers, [], None))
  }

  /** A frame arrives. After a stop the stream is aborted, so nothing further is shown. */
  function Arrive<P, D>(present: Present<P, D>, t: Tail<P, D>, f: Frame<D>): Tail<P, D> {
    if t.live.Some? then t.(screen := Replay(present, t.live.value, t.screen, [f]))
    else
      var kept := Keep(t.entries + [f]);
      t.(entries := kept, dropped := t.dropped + (|t.entries| + 1 - |kept|))
  }

  /** The event id arrives: any loss is announced, then the buffer is replayed. */
  function Deliver<P, D>(present: Present<P, D>, t: Tail<P, D>, id: string): Tail<P, D> {
    var noted := if t.dropped > 0 then t.screen.(lines := t.screen.lines + [DropNotice(t.dropped)]) else t.screen;
    Tail([], t.dropped, Some(id), Replay(present, id, noted, t.entries))
  }

  class EventTail<P, D> {
    const present: Present<P, D>
    var entries: seq<Frame<D>>
    var totalBytes: nat
    var dropped: nat
    var live: Option<string>
    var screen: Screen<P>

    ghost predicate Valid()
      reads this
    {
      totalBytes == Bytes(entries)
    }

    ghost function State(): Tail<P, D>
      reads this
    {
      Tail(entries, dropped, live, screen)
    }

    constructor (present: Present<P, D>, printers: P)
      ensures Valid() && State() == NewTail(printers) && this.present == present
    {
      this.present := present;
      entries, totalBytes, dropped, live, screen := [], 0, 0, None, Screen(printers, [], None);
    }

    method OnFrame(f: Frame<D>)
      requires Valid()
      modifies this
      ensures Valid() && State() == Arrive(present, old(State()), f)
    {
      if live.Some? {
        ReplayOne(present, live.value, screen, f);
        if screen.complete.None? { screen := Filter(present, live.value, screen, f); }
        return;
      }
      BytesAppend(entries, f);
      entries := entries + [f];
      totalBytes := totalBytes + f.bytes;
      ghost var all := entries;
      while |entries| > MAX_FRAMES || totalBytes > MAX_BYTES
        invariant totalBytes == Bytes(entries)
        invariant |entries| <= |all| && Keep(entries) == Keep(all)
        invariant dropped == old(dropped) + (|all| - |entries|)
        invariant live == old(live) && screen == old(screen)
        decreases |entries|
      {
        if |entries| == 0 { break; }
        totalBytes := totalBytes - entries[0].bytes;
        entries := entries[1..];
        dropped := dropped + 1;
      }
    }

    /** Returns whether the replay asks the stream to stop. */
    method DeliverEventId(id: string) returns (stop: bool)
      requires Valid()
      modifies this
      ensures Valid() && State() == Deliver(present, old(State()), id)
      ensures stop == screen.complete.Some?
    {
      if dropped > 0 { screen := screen.(lines := screen.lines + [DropNotice(dropped)]); }
      live := Some(id);
      var replayed := entries;
      entries, totalBytes := [], 0;
      ghost var noted := screen;
      var i := 0;
      while i < |replayed| && screen.complete.None?
        invariant 0 <= i <= |replayed|
        invariant Replay(present, id, noted, replayed) == Replay(present, id, screen, replayed[i..])
        invariant Valid() && entries == [] && dropped == old(dropped) && live == Some(id)
      {
        screen := Filter(present, id, screen, replayed[i]);
        i := i + 1;
      }
      stop := screen.complete.Some?;
    }
  }

  // ---------------------------------------------------------------- the moment of the id does not matter

  function ArriveAll<P, D>(present: Present<P, D>, t: Tail<P, D>, frames: seq<Frame<D>>): Tail<P, D> {
    if frames == [] then t else Arrive(present, ArriveAll(present, t, frames[..|frames| - 1]), frames[|frames| - 1])
  }

  /** The tail of a trace whose event id is delivered after its first `k` frames. */
  function TailOf<P, D>(present: Present<P, D>, printers: P, frames: seq<Frame<D>>, k: nat, id: string): Tail<P, D>
    requires k <= |frames|
  {
    ArriveAll(present, Deliver(present, ArriveAll(present, NewTail(printers), frames[..k]), id), frames[k..])
  }

  lemma {:induction false} BufferHoldsLongestSuffix<P, D>(present: Present<P, D>, printers: P, frames: seq<Frame<D>>)
    ensures var t := ArriveAll(present, NewTail(printers), frames);
      && t.live.None? && t.screen == Screen(printers, [], None)
      && |Keep(frames)| <= |frames| && t.entries == Keep(frames) && t.dropped == |frames| - |Keep(frames)|
    decreases |frames|
  {
    if frames != [] {
      var front := frames[..|frames| - 1];
      BufferHoldsLongestSuffix(present, printers, front);
      KeepIncrementally(front, frames[|frames| - 1]);
      assert frames == front + [frames[|frames| - 1]];
    }
  }

  lemma {:induction false} LiveFramesReplay<P, D>(present: Present<P, D>, t: Tail<P, D>, id: string, frames: seq<Frame<D>>)
    requires t.live == Some(id)
    ensures ArriveAll(present, t, frames) == t.(screen := Replay(present, id, t.screen, frames))
    decreases |frames|
  {
    if frames != [] {
      var front, last := frames[..|frames| - 1], frames[|frames| - 1];
      LiveFramesReplay(present, t, id, front);
      ReplayConcat(present, id, t.screen, front, [last]);
      assert frames == front + [last];
    }
  }

  /**
    For every trace and every moment the id arrives: what is shown is the drop notice, if any,
    then the filter over the longest suffix of the early frames that fits both caps and all
    later frames, and the drop count is exact.
   */
  lemma TailShowsKeptFrames<P, D>(present: Present<P, D>, printers: P, frames: seq<Frame<D>>, k: nat, id: string)
    requires k <= |frames|
    ensures var early := frames[..k];
      var t := TailOf(present, printers, frames, k, id);
      && |Keep(early)| <= k && t.dropped == k - |Keep(early)|
      && t.screen == Replay(present, id,
           Screen(printers, if t.dropped > 0 then [DropNotice(t.dropped)] else [], None),
           Keep(early) + frames[k..])
  {
    var early := frames[..k];
    BufferHoldsLongestSuffix(present, printers, early);
    var delivered := Deliver(present, ArriveAll(present, NewTail(printers), early), id);
    LiveFramesReplay(present, delivered, id, frames[k..]);
    assert [] + [DropNotice(delivered.dropped)] == [DropNotice(delivered.dropped)];
    var noted := Screen(printers, if delivered.dropped > 0 then [DropNotice(delivered.dropped)] else [], None);
    ReplayConcat(present, id, noted, Keep(early), frames[k..]);
  }

  /** If nothing was dropped, the moment the id arrives changes nothing: the screen is that of filtering from the first frame. */
  lemma TimingDoesNotMatter<P, D>(present: Present<P, D>, printers: P, frames: seq<Frame<D>>, k: nat, id: string)
    requires k <= |frames|
    ensures var t := TailOf(present, printers, frames, k, id);
      t.dropped == 0 ==>
        && t.screen == Replay(present, id, Screen(printers, [], None), frames)
        && t.screen == Replay(present, id, Screen(printers, [], None), Own(id, frames))
  {
    TailShowsKeptFrames(present, printers, frames, k, id);
    if |Keep(frames[..k])| == k { KeepingAllKeepsAll(frames[..k]); }
    OnlyOwnFramesMatter(present, id, Screen(printers, [], None), frames);
    assert frames[..k] + frames[k..] == frames;
  }
}
