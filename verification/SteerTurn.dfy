/**
  One steered turn against an activity channel without replay: the order of subscribing,
  posting, delivering the event id and falling back to the durable read.
 */
module SteerTurn {
  import opened Options
  import opened SteerScreen
  import opened SteerTail

  datatype Readiness = Opened | Settled | TimedOut

  datatype TurnEnd = Interrupted | SendFailed | LiveComplete(status: string) | Polling

  /**
    `published` is everything the channel ever carried. A subscription opened at `openAt` sees
    exactly what is published from there on, in order; `read` frames of it have reached the tail.
    `settled` says the stream has ended. `sent` says the message is on its way or beyond, and
    `posted` is the moment the server accepted it, which an abort in flight need not prevent.
   */
  datatype World<P, D> = World(
    published: seq<Frame<D>>, openAt: Option<nat>, read: nat, settled: bool,
    readiness: Option<Readiness>, sent: bool, posted: Option<nat>, aborted: bool, delivered: bool,
    tail: Tail<P, D>, ended: Option<TurnEnd>)

  datatype Step<D> =
    | Publish(frame: Frame<D>)   // the server publishes a frame
    | Open                    // the stream's headers are accepted
    | Receive                 // the next frame reaches the tail
    | Settle                  // the stream ends, fails or is closed
    | BecomeReady(how: Readiness)
    | Abort                   // the caller's signal
    | Interrupt               // the turn notices the signal and fails
    | Send                    // the message leaves
    | Accept                  // the server accepts it
    | FailSend                // the turn learns of no acceptance
    | DeliverId
    | Fallback                // the turn leaves the stream for the durable read
    | Finish                  // the turn takes the outcome of the settled stream

  function Seen<P, D>(w: World<P, D>): nat {
    if w.openAt.Some? then w.openAt.value + w.read else 0
  }

  predicate Enabled<P, D>(w: World<P, D>, id: string, step: Step<D>) {
    match step
    case Publish(frame) => frame.eventId == Some(id) ==> w.posted.Some?  // an event's frames follow its message
    case Open => w.openAt.None? && !w.settled
    case Receive => w.openAt.Some? && !w.settled && Seen(w) < |w.published|
    case Settle => !w.settled
    case BecomeReady(how) =>
      && w.readiness.None?
      && (how == Opened ==> w.openAt.Some?)
      && (how == Settled ==> w.settled)
    case Abort => !w.aborted
    case Interrupt => w.aborted && w.readiness.Some? && w.ended.None?
    case Send => w.readiness.Some? && !w.aborted && !w.sent && w.ended.None?
    case Accept => w.sent && w.posted.None?
    case FailSend => w.sent && !w.aborted && !w.delivered && w.ended.None?
    case DeliverId => w.posted.Some? && !w.aborted && w.readiness != Some(TimedOut) && !w.delivered && w.ended.None?
    case Fallback =>
      && w.posted.Some? && w.ended.None? && w.settled
      && (w.readiness == Some(TimedOut) || (w.delivered && !w.aborted && w.tail.screen.complete.None?))
    case Finish => w.delivered && w.settled && !w.aborted && w.ended.None? && w.tail.screen.complete.Some?
  }

  function Next<P, D>(present: Present<P, D>, id: string, w: World<P, D>, step: Step<D>): World<P, D>
    requires Enabled(w, id, step)
  {
    match step
    case Publish(frame) => w.(published := w.published + [frame])
    case Open => w.(openAt := Some(|w.published|))
    case Receive =>
      var tail := Arrive(present, w.tail, w.published[Seen(w)]);
      w.(tail := tail, read := w.read + 1, settled := tail.screen.complete.Some?)
    case Settle => w.(settled := true)
    case BecomeReady(how) => w.(readiness := Some(how))
    case Abort => w.(aborted := true)
    case Interrupt => w.(ended := Some(Interrupted))
    case Send => w.(sent := true)
    case Accept => w.(posted := Some(|w.published|))
    case FailSend => w.(ended := Some(SendFailed))
    case DeliverId =>
      var tail := Deliver(present, w.tail, id);
      w.(tail := tail, delivered := true, settled := w.settled || tail.screen.complete.Some?)
    case Fallback => w.(ended := Some(Polling))
    case Finish => w.(ended := Some(LiveComplete(w.tail.screen.complete.value)))
  }

  ghost predicate Legal<P, D>(present: Present<P, D>, id: string, w: World<P, D>, steps: seq<Step<D>>)
    decreases |steps|
  {
    steps != [] ==> Enabled(w, id, steps[0]) && Legal(present, id, Next(present, id, w, steps[0]), steps[1..])
  }

  ghost function After<P, D>(present: Present<P, D>, id: string, w: World<P, D>, steps: seq<Step<D>>): World<P, D>
    requires Legal(present, id, w, steps)
    decreases |steps|
  {
    if steps == [] then w else After(present, id, Next(present, id, w, steps[0]), steps[1..])
  }

  /** A turn that has not started; the channel may already carry frames of other events. */
  ghost predicate Initial<P, D>(id: string, printers: P, w: World<P, D>) {
    && w == World(w.published, None, 0, false, None, false, None, w.aborted, false, NewTail(printers), None)
    && Own(id, w.published) == []
  }

  /** Where the live frames of the tail begin. */
  function From<P, D>(w: World<P, D>): nat {
    if w.openAt.Some? then w.openAt.value else 0
  }

  ghost predicate ScreenIs<P, D>(present: Present<P, D>, id: string, printers: P, w: World<P, D>)
    requires From(w) <= Seen(w) <= |w.published|
  {
    var heard := w.published[From(w)..Seen(w)];
    if !w.delivered then w.tail == ArriveAll(present, NewTail(printers), heard)
    else w.tail.live == Some(id) && (w.tail.dropped == 0 ==> w.tail.screen == Replay(present, id, Screen(printers, [], None), heard))
  }

  ghost predicate Inv<P, D>(present: Present<P, D>, id: string, printers: P, w: World<P, D>) {
    && From(w) <= Seen(w) <= |w.published|
    && (w.openAt.None? ==> w.read == 0)
    && (w.sent ==> w.readiness.Some?)
    && (w.posted.Some? ==> w.sent && w.posted.value <= |w.published| && Own(id, w.published[..w.posted.value]) == [])
    && (w.posted.None? ==> Own(id, w.published) == [])
    && (w.readiness == Some(Opened) ==> w.openAt.Some?)
    && (w.readiness == Some(Settled) ==> w.settled)
    && (w.posted.Some? && w.openAt.Some? && w.readiness != Some(TimedOut) ==> w.openAt.value <= w.posted.value)
    && (w.delivered ==> w.posted.Some? && w.readiness != Some(TimedOut))
    && (w.readiness == Some(TimedOut) ==> !w.delivered)
    && (w.delivered && w.tail.screen.complete.Some? ==> w.settled)
    && (w.ended == Some(Polling) ==> w.settled)
    && (w.ended == Some(Polling) ==> w.readiness == Some(TimedOut) || w.tail.screen.complete.None?)
    && (w.ended.Some? && w.ended.value.LiveComplete? ==> w.delivered && w.settled && w.tail.screen.complete == Some(w.ended.value.status))
    && ScreenIs(present, id, printers, w)
  }

  lemma {:induction false} OwnConcat<D>(id: string, a: seq<Frame<D>>, b: seq<Frame<D>>)
    ensures Own(id, a + b) == Own(id, a) + Own(id, b)
    decreases |a|
  {
    if a == [] {
      assert a + b == b;
    } else {
      OwnConcat(id, a[1..], b);
      assert (a + b)[0] == a[0] && (a + b)[1..] == a[1..] + b;
      var first := if a[0].eventId == Some(id) then [a[0]] else [];
      assert Own(id, a + b) == first + (Own(id, a[1..]) + Own(id, b));
      assert first + (Own(id, a[1..]) + Own(id, b)) == (first + Own(id, a[1..])) + Own(id, b);
    }
  }

  lemma ReceiveScreen<P, D>(present: Present<P, D>, id: string, printers: P, tail: Tail<P, D>, heard: seq<Frame<D>>, f: Frame<D>, delivered: bool)
    requires if !delivered then tail == ArriveAll(present, NewTail(printers), heard)
             else tail.live == Some(id) && (tail.dropped == 0 ==> tail.screen == Replay(present, id, Screen(printers, [], None), heard))
    ensures var next := Arrive(present, tail, f);
      if !delivered then next == ArriveAll(present, NewTail(printers), heard + [f]) && next.screen.complete.None?
      else next.live == Some(id) && (next.dropped == 0 ==> next.screen == Replay(present, id, Screen(printers, [], None), heard + [f]))
  {
    if delivered {
      ReplayConcat(present, id, Screen(printers, [], None), heard, [f]);
    } else {
      assert (heard + [f])[..|heard|] == heard;
      BufferHoldsLongestSuffix(present, printers, heard + [f]);
    }
  }

  lemma ReceiveKeepsInv<P, D>(present: Present<P, D>, id: string, printers: P, w: World<P, D>)
    requires Inv(present, id, printers, w) && Enabled(w, id, Receive)
    ensures Inv(present, id, printers, Next(present, id, w, Receive))
  {
    var f := w.published[Seen(w)];
    var heard := w.published[From(w)..Seen(w)];
    var w' := Next(present, id, w, Receive);
    assert w'.published[From(w')..Seen(w')] == heard + [f];
    ReceiveScreen(present, id, printers, w.tail, heard, f, w.delivered);
    hide Arrive, ArriveAll, Replay, Own;
  }

  lemma DeliveredScreen<P, D>(present: Present<P, D>, id: string, printers: P, heard: seq<Frame<D>>)
    ensures var t := Deliver(present, ArriveAll(present, NewTail(printers), heard), id);
      t.live == Some(id) && (t.dropped == 0 ==> t.screen == Replay(present, id, Screen(printers, [], None), heard))
  {
    BufferHoldsLongestSuffix(present, printers, heard);
    if |Keep(heard)| == |heard| { KeepingAllKeepsAll(heard); }
  }

  lemma DeliverKeepsInv<P, D>(present: Present<P, D>, id: string, printers: P, w: World<P, D>)
    requires Inv(present, id, printers, w) && Enabled(w, id, DeliverId)
    ensures Inv(present, id, printers, Next(present, id, w, DeliverId))
  {
    DeliveredScreen(present, id, printers, w.published[From(w)..Seen(w)]);
    hide Deliver, Replay, ArriveAll, Own;
  }

  lemma PublishKeepsInv<P, D>(present: Present<P, D>, id: string, printers: P, w: World<P, D>, f: Frame<D>)
    requires Inv(present, id, printers, w) && Enabled(w, id, Publish(f))
    ensures Inv(present, id, printers, Next(present, id, w, Publish(f)))
  {
    var w' := Next(present, id, w, Publish(f));
    OwnConcat(id, w.published, [f]);
    assert w'.published[From(w)..Seen(w)] == w.published[From(w)..Seen(w)];
    if w.posted.Some? {
      assert w'.published[..w.posted.value] == w.published[..w.posted.value];
    }
  }

  lemma OpenKeepsInv<P, D>(present: Present<P, D>, id: string, printers: P, w: World<P, D>)
    requires Inv(present, id, printers, w) && Enabled(w, id, Open)
    ensures Inv(present, id, printers, Next(present, id, w, Open))
  {
    assert w.published[|w.published|..|w.published|] == w.published[0..0];
    if w.posted.Some? {
      match w.readiness.value {
        case Opened =>
        case Settled =>
        case TimedOut =>
      }
    }
  }

  /** The steps that touch neither the channel nor the tail. */
  lemma QuietKeepsInv<P, D>(present: Present<P, D>, id: string, printers: P, w: World<P, D>, step: Step<D>)
    requires Inv(present, id, printers, w) && Enabled(w, id, step)
    requires !step.Publish? && !step.Open? && !step.Receive? && !step.DeliverId?
    ensures Inv(present, id, printers, Next(present, id, w, step))
  {
    hide Arrive, Deliver, ArriveAll, Replay, Own;
    assert w.published[..|w.published|] == w.published;
  }

  lemma StepKeepsInv<P, D>(present: Present<P, D>, id: string, printers: P, w: World<P, D>, step: Step<D>)
    requires Inv(present, id, printers, w) && Enabled(w, id, step)
    ensures Inv(present, id, printers, Next(present, id, w, step))
  {
    hide Inv, Next;
    match step
    case Publish(f) => PublishKeepsInv(present, id, printers, w, f);
    case Receive => ReceiveKeepsInv(present, id, printers, w);
    case DeliverId => DeliverKeepsInv(present, id, printers, w);
    case Open => OpenKeepsInv(present, id, printers, w);
    case _ => QuietKeepsInv(present, id, printers, w, step);
  }

  lemma {:induction false} RunKeepsInv<P, D>(present: Present<P, D>, id: string, printers: P, w: World<P, D>, steps: seq<Step<D>>)
    requires Inv(present, id, printers, w) && Legal(present, id, w, steps)
    ensures Inv(present, id, printers, After(present, id, w, steps))
    decreases |steps|
  {
    if steps != [] {
      StepKeepsInv(present, id, printers, w, steps[0]);
      hide Inv, Next, Enabled;
      RunKeepsInv(present, id, printers, Next(present, id, w, steps[0]), steps[1..]);
    }
  }

  lemma InitialInv<P, D>(present: Present<P, D>, id: string, printers: P, w: World<P, D>)
    requires Initial(id, printers, w)
    ensures Inv(present, id, printers, w)
  {
  }

  /**
    A live completion with nothing dropped shows the whole event: exactly what filtering
    everything the channel ever published for it shows, from its first frame to its
    completion. The message was accepted only after the subscription was open.
   */
  lemma LiveCompletionIsWhole<P, D>(present: Present<P, D>, id: string, printers: P, w0: World<P, D>, steps: seq<Step<D>>)
    requires Initial(id, printers, w0) && Legal(present, id, w0, steps)
    ensures var w := After(present, id, w0, steps);
      w.ended.Some? && w.ended.value.LiveComplete? && w.tail.dropped == 0 ==>
        && w.openAt.Some? && w.posted.Some? && w.openAt.value <= w.posted.value
        && w.settled && w.tail.screen.complete == Some(w.ended.value.status)
        && w.tail.screen == Replay(present, id, Screen(printers, [], None), Own(id, w.published))
  {
    InitialInv(present, id, printers, w0);
    RunKeepsInv(present, id, printers, w0, steps);
    var w := After(present, id, w0, steps);
    if w.ended.Some? && w.ended.value.LiveComplete? && w.tail.dropped == 0 {
      ShownIsAllOwn(present, id, printers, w);
    }
  }

  /**
    So it shows the event as it was published: of all its frames those up to its first completion
    that no printer takes, each with the lines it stands for, and that completion's status.
   */
  lemma LiveCompletionIsTold<P, D>(present: Present<P, D>, id: string, printers: P, w0: World<P, D>, steps: seq<Step<D>>) returns (n: nat)
    requires Initial(id, printers, w0) && Legal(present, id, w0, steps)
    requires var w := After(present, id, w0, steps); w.ended.Some? && w.ended.value.LiveComplete? && w.tail.dropped == 0
    ensures var w := After(present, id, w0, steps);
      var own := Own(id, w.published);
      && n < |own| && NoneCompletes(present, id, printers, own, n) && Completes(present, id, printers, own, n)
      && w.tail.screen == Told(present, id, Screen(printers, [], None), own[..n + 1], Some(StatusOf(own[n])))
      && w.ended == Some(LiveComplete(StatusOf(own[n])))
  {
    LiveCompletionIsWhole(present, id, printers, w0, steps);
    var own := Own(id, After(present, id, w0, steps).published);
    n := FirstCompletion(present, id, printers, own, 0);
    hide After, Legal, Replay, Completes;
    ScreenIsTold(present, id, Screen(printers, [], None), own, n);
    ToldIsOpen(present, id, Screen(printers, [], None), own);
  }

  lemma ShownIsAllOwn<P, D>(present: Present<P, D>, id: string, printers: P, w: World<P, D>)
    requires Inv(present, id, printers, w) && w.delivered && w.tail.dropped == 0 && w.tail.screen.complete.Some? && w.openAt.Some?
    ensures w.tail.screen == Replay(present, id, Screen(printers, [], None), Own(id, w.published))
  {
    var s0 := Screen(printers, [], None);
    var before, heard, later := w.published[..From(w)], w.published[From(w)..Seen(w)], w.published[Seen(w)..];
    assert before + heard + later == w.published;
    var accepted := w.published[..w.posted.value];
    assert accepted == before + accepted[From(w)..];
    OwnConcat(id, before, accepted[From(w)..]);
    OnlyOwnFramesMatter(present, id, s0, before);
    ReplayConcat(present, id, s0, before, heard);
    ReplayConcat(present, id, s0, before + heard, later);
    OnlyOwnFramesMatter(present, id, s0, w.published);
  }

  /** A tail that was not ready in time never shows anything: the durable read decides alone. */
  lemma UnreadyTailIsNeverHeard<P, D>(present: Present<P, D>, id: string, printers: P, w0: World<P, D>, steps: seq<Step<D>>)
    requires Initial(id, printers, w0) && Legal(present, id, w0, steps)
    ensures var w := After(present, id, w0, steps);
      w.readiness == Some(TimedOut) ==>
        w.tail.live.None? && w.tail.screen == Screen(printers, [], None) && (w.ended.Some? ==> !w.ended.value.LiveComplete?)
  {
    InitialInv(present, id, printers, w0);
    RunKeepsInv(present, id, printers, w0, steps);
    var w := After(present, id, w0, steps);
    BufferHoldsLongestSuffix(present, printers, w.published[From(w)..Seen(w)]);
  }

  /** A turn aborted before it sends never sends, so the server never accepts its message and no frame of the event is published. */
  lemma {:induction false} AbortedTurnNeverPosts<P, D>(present: Present<P, D>, id: string, w: World<P, D>, steps: seq<Step<D>>)
    requires Legal(present, id, w, steps) && w.aborted && !w.sent && w.posted.None? && Own(id, w.published) == []
    ensures var end := After(present, id, w, steps);
      !end.sent && end.posted.None? && Own(id, end.published) == []
    decreases |steps|
  {
    if steps != [] {
      if steps[0].Publish? { OwnConcat(id, w.published, [steps[0].frame]); }
      AbortedTurnNeverPosts(present, id, Next(present, id, w, steps[0]), steps[1..]);
    }
  }

  /**
    Of a turn aborted before it has an end: no continuation reports a completion, and only a tail
    that timed out leaves it to the durable read. Aborted before the event id was delivered, it
    shows nothing more either.
   */
  lemma {:induction false} AbortedTurnNeverCompletes<P, D>(present: Present<P, D>, id: string, w: World<P, D>, steps: seq<Step<D>>)
    requires Legal(present, id, w, steps) && w.aborted
    requires w.ended.None? || w.ended == Some(Interrupted) || (w.ended == Some(Polling) && w.readiness == Some(TimedOut))
    requires w.delivered || w.tail.live.None?
    ensures var end := After(present, id, w, steps);
      && (end.ended.None? || end.ended == Some(Interrupted) || (end.ended == Some(Polling) && end.readiness == Some(TimedOut)))
      && (!w.delivered ==> !end.delivered && end.tail.screen == w.tail.screen)
    decreases |steps|
  {
    if steps != [] {
      AbortedTurnNeverCompletes(present, id, Next(present, id, w, steps[0]), steps[1..]);
      hide Replay, Keep;
    }
  }

  /** An abort in flight does not undo the send: the server may accept the message of a turn that reports the interruption. */
  lemma InterruptedTurnMayRun<P, D>(present: Present<P, D>, id: string, printers: P, w: World<P, D>)
    requires w == World([], None, 0, false, None, false, None, false, false, NewTail(printers), None)
    ensures var steps: seq<Step<D>> := [Open, BecomeReady(Opened), Send, Abort, Interrupt, Accept];
      && Initial(id, printers, w) && Legal(present, id, w, steps)
      && After(present, id, w, steps).ended == Some(Interrupted) && After(present, id, w, steps).posted.Some?
  {
    var steps: seq<Step<D>> := [Open, BecomeReady(Opened), Send, Abort, Interrupt, Accept];
    var w1 := w.(openAt := Some(0));
    var w2 := w1.(readiness := Some(Opened));
    var w3 := w2.(sent := true);
    var w4 := w3.(aborted := true);
    var w5 := w4.(ended := Some(Interrupted));
    var w6 := w5.(posted := Some(0));
    Chain(present, id, w, steps, [w, w1, w2, w3, w4, w5, w6]);
  }

  lemma {:induction false} UnsentStaysUnsent<P, D>(present: Present<P, D>, id: string, w: World<P, D>, steps: seq<Step<D>>)
    requires Legal(present, id, w, steps) && w.aborted && !w.sent && w.posted.None?
    ensures After(present, id, w, steps).posted.None?
    decreases |steps|
  {
    if steps != [] { UnsentStaysUnsent(present, id, Next(present, id, w, steps[0]), steps[1..]); }
  }

  /** The server takes the message in the end. */
  ghost predicate Accepts<P, D>(present: Present<P, D>, id: string, w: World<P, D>, steps: seq<Step<D>>) {
    Legal(present, id, w, steps) && After(present, id, w, steps).posted.Some?
  }

  /** Of an aborted turn whose message is not accepted yet, some continuation has it accepted exactly when it has been sent. */
  lemma AbortedRunsExactlyIfSent<P, D>(present: Present<P, D>, id: string, w: World<P, D>)
    requires w.aborted && w.posted.None?
    ensures (exists steps :: Accepts(present, id, w, steps)) <==> w.sent
  {
    if w.sent {
      Chain(present, id, w, [Accept], [w, Next(present, id, w, Accept)]);
      assert Accepts(present, id, w, [Accept]);
    } else {
      forall steps ensures !Accepts(present, id, w, steps) {
        if Legal(present, id, w, steps) { UnsentStaysUnsent(present, id, w, steps); }
      }
    }
  }

  /** A list of worlds that follow each other step by step is a legal run. */
  lemma {:induction false} Chain<P, D>(present: Present<P, D>, id: string, w: World<P, D>, steps: seq<Step<D>>, worlds: seq<World<P, D>>)
    requires |worlds| == |steps| + 1 && worlds[0] == w
    requires forall i :: 0 <= i < |steps| ==> Enabled(worlds[i], id, steps[i]) && worlds[i + 1] == Next(present, id, worlds[i], steps[i])
    ensures Legal(present, id, w, steps) && After(present, id, w, steps) == worlds[|steps|]
    decreases |steps|
  {
    hide Next, Enabled;
    if steps != [] { Chain(present, id, worlds[1], steps[1..], worlds[1..]); }
  }

  // ---------------------------------------------------------------- the durable read

  /** One read of the event: its row, a failure worth another read, the not-found answer, or any other failure. */
  datatype Read = Row(matches: bool, status: Option<string>) | Transient | NotFound | Refused

  datatype Polled = Complete(status: string) | Timeout | Failed

  predicate IsTerminal(status: string) {
    status == "processed" || status == "fleet_error" || status == "gate_blocked"
  }

  /** The row is the event's own, with one of the three final states. */
  predicate Decides(r: Read) {
    r in {Row(true, Some("processed")), Row(true, Some("fleet_error")), Row(true, Some("gate_blocked"))}
  }

  /** A read ends the poll with a failure: any refusal, or a not-found once the event has been seen. */
  predicate Fatal(answers: seq<Read>, i: nat)
    requires i < |answers|
  {
    answers[i].Refused? || (answers[i].NotFound? && exists j :: 0 <= j < i && answers[j].Row? && answers[j].matches)
  }

  /** The reads that fit before the deadline or the abort; the first that decides ends the poll. */
  method PollEventTerminal(answers: seq<Read>) returns (result: Polled)
    ensures result.Timeout? <==> forall i :: 0 <= i < |answers| ==> !Decides(answers[i]) && !Fatal(answers, i)
    ensures result.Complete? <==> exists i :: 0 <= i < |answers| && Decides(answers[i]) && result == Complete(answers[i].status.value)
                                    && forall j :: 0 <= j < i ==> !Decides(answers[j]) && !Fatal(answers, j)
    ensures result.Failed? <==> exists i :: 0 <= i < |answers| && Fatal(answers, i) && forall j :: 0 <= j < i ==> !Decides(answers[j]) && !Fatal(answers, j)
  {
    var observed := false;
    for i := 0 to |answers|
      invariant observed <==> exists j :: 0 <= j < i && answers[j].Row? && answers[j].matches
      invariant forall j :: 0 <= j < i ==> !Decides(answers[j]) && !Fatal(answers, j)
    {
      var read := answers[i];
      if read.Refused? || (read.NotFound? && observed) {
        assert Fatal(answers, i);
        return Failed;
      }
      if read.Row? && read.matches && read.status.Some? && IsTerminal(read.status.value) {
        return Complete(read.status.value);
      }
      if read.Row? && read.matches { observed := true; }
    }
    result := Timeout;
  }
}
