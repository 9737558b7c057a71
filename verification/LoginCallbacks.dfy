/**
  The loopback server of a browser sign-in. Requests are handled concurrently: each handler is
  admitted, reads its body, and resumes later, while cancellation, expiry, finishing and
  closing may happen at any moment in between.
 */
module LoginCallbacks {
  import opened Options

  datatype Stage = Waiting | Finalizing | Closed
  datatype Submission = Approved(code: string) | Denied
  datatype Decision = Submitted(submission: Submission) | Canceled | Expired
  datatype Page = SuccessPage | FailedPage

  /** What a handler answers. `Promised` is the reply that finishing the sign-in will give. */
  datatype Reply = Refusal(status: int) | DeniedPage | Promised

  /** The declared length of a body: absent, malformed, or a number. */
  datatype Length = NoLength | BadLength | Length(bytes: nat)

  const MAX_PENDING_READS := 8
  const MAX_BODY_BYTES := 1024

  /** `settles` counts how often the decision promise was resolved. */
  datatype Server = Server(stage: Stage, pendingReads: int, decision: Option<Decision>, settles: nat, response: Option<Page>)

  const NEW_SERVER := Server(Waiting, 0, None, 0, None)

  function Resolve(s: Server, d: Decision): Server {
    s.(decision := if s.decision.None? then Some(d) else s.decision, settles := s.settles + 1)
  }

  function WaitingEnded(s: Server, d: Decision): Server {
    if s.stage != Waiting then s else Resolve(s.(stage := Closed), d)
  }

  function Finished(s: Server, success: bool): Server {
    if s.stage != Finalizing then s
    else s.(stage := Closed, response := if s.response.None? then Some(if success then SuccessPage else FailedPage) else s.response)
  }

  function ClosedDown(s: Server): Server { Finished(WaitingEnded(s, Canceled), false) }

  /** A request arrives: it is refused at once, or its body starts being read. */
  function Admitted(s: Server, headersValid: bool, length: Length): (Server, Option<Reply>) {
    if s.stage != Waiting then (s, Some(Refusal(409)))
    else if !headersValid then (s, Some(Refusal(400)))
    else if s.pendingReads >= MAX_PENDING_READS then (s, Some(Refusal(429)))
    else if length.BadLength? || (length.Length? && length.bytes > MAX_BODY_BYTES) then (s, Some(Refusal(413)))
    else (s.(pendingReads := s.pendingReads + 1), None)
  }

  function ReadFinished(s: Server): Server { s.(pendingReads := s.pendingReads - 1) }

  /** The handler resumes with what its body says, if anything. */
  function Resumed(s: Server, submitted: Option<Submission>, aborted: bool): (Server, Reply) {
    if aborted || submitted.None? then (s, Refusal(400))
    else if s.stage != Waiting then (s, Refusal(409))
    else
      var after := Resolve(s.(stage := if submitted.value.Approved? then Finalizing else Closed), Submitted(submitted.value));
      (after, if submitted.value.Denied? then DeniedPage else Promised)
  }

  // ---------------------------------------------------------------- the class

  class LoginCallback {
    var stage: Stage
    var pendingReads: int
    var decision: Option<Decision>
    ghost var settles: nat
    var response: Option<Page>

    ghost function State(): Server
      reads this
    {
      Server(stage, pendingReads, decision, settles, response)
    }

    constructor ()
      ensures State() == NEW_SERVER
    {
      stage, pendingReads, decision, settles, response := Waiting, 0, None, 0, None;
    }

    method Settle(d: Decision)
      modifies this
      ensures State() == Resolve(old(State()), d)
    {
      if decision.None? { decision := Some(d); }
      settles := settles + 1;
    }

    /** Cancellation and expiry. */
    method EndWaiting(d: Decision) returns (ended: bool)
      modifies this
      ensures State() == WaitingEnded(old(State()), d) && ended == (old(stage) == Waiting)
    {
      if stage != Waiting { return false; }
      stage := Closed;
      Settle(d);
      ended := true;
    }

    method Finish(success: bool)
      modifies this
      ensures State() == Finished(old(State()), success)
    {
      if stage != Finalizing { return; }
      stage := Closed;
      if response.None? { response := Some(if success then SuccessPage else FailedPage); }
    }

    method Close()
      modifies this
      ensures State() == ClosedDown(old(State()))
    {
      var _ := EndWaiting(Canceled);
      Finish(false);
    }

    /** The part of a handler before it waits for the body. */
    method Admit(headersValid: bool, length: Length) returns (reply: Option<Reply>)
      modifies this
      ensures (State(), reply) == Admitted(old(State()), headersValid, length)
    {
      if stage != Waiting { return Some(Refusal(409)); }
      if !headersValid { return Some(Refusal(400)); }
      if pendingReads >= MAX_PENDING_READS { return Some(Refusal(429)); }
      if length.BadLength? || (length.Length? && length.bytes > MAX_BODY_BYTES) { return Some(Refusal(413)); }
      pendingReads := pendingReads + 1;
      reply := None;
    }

    method ReadOver()
      modifies this
      ensures State() == ReadFinished(old(State()))
    {
      pendingReads := pendingReads - 1;
    }

    /** The part of a handler after its body. */
    method Resume(submitted: Option<Submission>, aborted: bool) returns (reply: Reply)
      modifies this
      ensures (State(), reply) == Resumed(old(State()), submitted, aborted)
    {
      if aborted || submitted.None? { return Refusal(400); }
      if stage != Waiting { return Refusal(409); }
      stage := if submitted.value.Approved? then Finalizing else Closed;
      Settle(Submitted(submitted.value));
      if submitted.value.Denied? { return DeniedPage; }
      reply := Promised;
    }
  }

  function Total(chunks: seq<seq<bv8>>): seq<bv8> {
    if chunks == [] then [] else Total(chunks[..|chunks| - 1]) + chunks[|chunks| - 1]
  }

  lemma {:induction false} TotalGrows(chunks: seq<seq<bv8>>, i: nat)
    requires i <= |chunks|
    ensures |Total(chunks[..i])| <= |Total(chunks)|
    decreases |chunks| - i
  {
    if i < |chunks| {
      assert chunks[..i + 1][..i] == chunks[..i];
      TotalGrows(chunks, i + 1);
    } else {
      assert chunks[..i] == chunks;
    }
  }

  /** How the reading of a body comes to its end after its chunks. */
  datatype ReadEnd = Ended | Broke | TimedOut

  datatype Body = NoBody | Body(chunks: seq<seq<bv8>>, end: ReadEnd)

  /**
    Reads a body and decodes it with the platform's strict decoder. There is a text exactly when
    a body is there, its reading ends in time and without an error, its bytes fit the limit, and
    they decode.
   */
  method ReadBody(body: Body, decode: seq<bv8> -> Option<string>) returns (text: Option<string>)
    ensures text == if body.Body? && body.end.Ended? && |Total(body.chunks)| <= MAX_BODY_BYTES then decode(Total(body.chunks)) else None
  {
    if body.NoBody? { return None; }
    var chunks := body.chunks;
    var read: seq<bv8>, size := [], 0;
    for i := 0 to |chunks|
      invariant read == Total(chunks[..i]) && size == |read| <= MAX_BODY_BYTES
    {
      assert chunks[..i + 1][..i] == chunks[..i];
      size := size + |chunks[i]|;
      if size > MAX_BODY_BYTES {
        TotalGrows(chunks, i + 1);
        return None;
      }
      read := read + chunks[i];
    }
    assert chunks[..|chunks|] == chunks;
    text := if body.end.Ended? then decode(read) else None;
  }

  // ---------------------------------------------------------------- concurrent runs

  datatype Phase = Reading | Read | Answered(reply: Reply)

  /** How a handler's request came: its headers, its declared length, the stage, and how many bodies were being read. */
  datatype Arrival = Arrival(headersValid: bool, length: Length, stage: Stage, readers: nat)

  /** What a handler resumed with, and the stage then. */
  datatype Resumption = Resumption(submitted: Option<Submission>, aborted: bool, stage: Stage)

  /**
    The server with its handlers; `accepted` lists the handlers whose submission was taken.
    `arrivals` and `resumptions` are history.
   */
  datatype World = World(server: Server, handlers: map<nat, Phase>, accepted: seq<nat>,
    arrivals: map<nat, Arrival>, resumptions: map<nat, Resumption>)

  datatype Step =
    | ArriveStep(h: nat, headersValid: bool, length: Length)
    | ReadStep(h: nat)
    | ResumeStep(h: nat, submitted: Option<Submission>, aborted: bool)
    | CancelStep
    | ExpireStep
    | FinishStep(success: bool)
    | CloseStep

  const NEW_WORLD := World(NEW_SERVER, map[], [], map[], map[])

  function Readers(w: World): set<nat> {
    set h | h in w.handlers && w.handlers[h].Reading?
  }

  predicate Enabled(w: World, step: Step) {
    match step
    case ArriveStep(h, _, _) => h !in w.handlers
    case ReadStep(h) => h in w.handlers && w.handlers[h].Reading?
    case ResumeStep(h, _, _) => h in w.handlers && w.handlers[h].Read?
    case _ => true
  }

  function Next(w: World, step: Step): World
    requires Enabled(w, step)
  {
    match step
    case ArriveStep(h, headersValid, length) =>
      var (server, reply) := Admitted(w.server, headersValid, length);
      w.(server := server, handlers := w.handlers[h := if reply.Some? then Answered(reply.value) else Reading],
         arrivals := w.arrivals[h := Arrival(headersValid, length, w.server.stage, |Readers(w)|)])
    case ReadStep(h) => w.(server := ReadFinished(w.server), handlers := w.handlers[h := Read])
    case ResumeStep(h, submitted, aborted) =>
      var (server, reply) := Resumed(w.server, submitted, aborted);
      w.(server := server, handlers := w.handlers[h := Answered(reply)],
         accepted := if reply.Refusal? then w.accepted else w.accepted + [h],
         resumptions := w.resumptions[h := Resumption(submitted, aborted, w.server.stage)])
    case CancelStep => w.(server := WaitingEnded(w.server, Canceled))
    case ExpireStep => w.(server := WaitingEnded(w.server, Expired))
    case FinishStep(success) => w.(server := Finished(w.server, success))
    case CloseStep => w.(server := ClosedDown(w.server))
  }

  ghost predicate Legal(w: World, steps: seq<Step>)
    decreases |steps|
  {
    steps != [] ==> Enabled(w, steps[0]) && Legal(Next(w, steps[0]), steps[1..])
  }

  ghost function After(w: World, steps: seq<Step>): World
    requires Legal(w, steps)
    decreases |steps|
  {
    if steps == [] then w else After(Next(w, steps[0]), steps[1..])
  }

  ghost predicate Inv(w: World) {
    var s := w.server;
    && s.pendingReads == |Readers(w)| && s.pendingReads <= MAX_PENDING_READS
    && s.settles == (if s.stage == Waiting then 0 else 1)
    && (s.decision.Some? <==> s.stage != Waiting)
    && (s.stage == Finalizing ==> s.decision.value.Submitted? && s.decision.value.submission.Approved?)
    && (s.response.Some? <==> s.stage == Closed && s.decision.value.Submitted? && s.decision.value.submission.Approved?)
    && |w.accepted| == (if s.decision.Some? && s.decision.value.Submitted? then 1 else 0)
    && (forall h :: h in w.handlers && w.handlers[h].Answered? && !w.handlers[h].reply.Refusal? <==> h in w.accepted)
    && (w.accepted != [] ==> w.handlers[w.accepted[0]] == Answered(if s.decision.value.submission.Denied? then DeniedPage else Promised))
  }

  function Rank(stage: Stage): nat {
    match stage case Waiting => 0 case Finalizing => 1 case Closed => 2
  }

  lemma ReaderJoins(w: World, h: nat)
    requires h !in w.handlers
    ensures Readers(w.(handlers := w.handlers[h := Reading])) == Readers(w) + {h}
    ensures forall r :: Readers(w.(handlers := w.handlers[h := Answered(r)])) == Readers(w)
  {
    forall r ensures Readers(w.(handlers := w.handlers[h := Answered(r)])) == Readers(w) {
      var w' := w.(handlers := w.handlers[h := Answered(r)]);
      assert forall x :: x in Readers(w') <==> x in Readers(w);
    }
  }

  lemma ReaderLeaves(w: World, h: nat)
    requires h in w.handlers
    ensures w.handlers[h].Reading? ==> Readers(w.(handlers := w.handlers[h := Read])) == Readers(w) - {h} && h in Readers(w)
    ensures w.handlers[h].Read? ==> forall r :: Readers(w.(handlers := w.handlers[h := Answered(r)])) == Readers(w)
  {
    if w.handlers[h].Read? {
      forall r ensures Readers(w.(handlers := w.handlers[h := Answered(r)])) == Readers(w) {
        var w' := w.(handlers := w.handlers[h := Answered(r)]);
        assert forall x :: x in Readers(w') <==> x in Readers(w);
      }
    }
  }

  /** What no step undoes. */
  ghost predicate Forward(s: Server, s': Server) {
    && Rank(s.stage) <= Rank(s'.stage)
    && (s.decision.Some? ==> s'.decision == s.decision)
    && (s.response.Some? ==> s'.response == s.response)
  }

  lemma ArriveKeepsInv(w: World, step: Step)
    requires Inv(w) && Enabled(w, step) && step.ArriveStep?
    ensures Inv(Next(w, step)) && Forward(w.server, Next(w, step).server)
  {
    var w' := Next(w, step);
    ReaderJoins(w, step.h);
    if w'.handlers[step.h].Reading? {
      assert Readers(w') == Readers(w) + {step.h} && step.h !in Readers(w);
    } else {
      assert Readers(w') == Readers(w);
    }
    hide Readers;
  }

  lemma ReadKeepsInv(w: World, step: Step)
    requires Inv(w) && Enabled(w, step) && step.ReadStep?
    ensures Inv(Next(w, step)) && Forward(w.server, Next(w, step).server)
  {
    ReaderLeaves(w, step.h);
    assert Readers(Next(w, step)) == Readers(w) - {step.h};
  }

  lemma ResumeKeepsInv(w: World, step: Step)
    requires Inv(w) && Enabled(w, step) && step.ResumeStep?
    ensures Inv(Next(w, step)) && Forward(w.server, Next(w, step).server)
  {
    ReaderLeaves(w, step.h);
    assert Readers(Next(w, step)) == Readers(w);
  }

  lemma EndingKeepsInv(w: World, step: Step)
    requires Inv(w) && Enabled(w, step) && !(step.ArriveStep? || step.ReadStep? || step.ResumeStep?)
    ensures Inv(Next(w, step)) && Forward(w.server, Next(w, step).server)
  {
    assert Readers(Next(w, step)) == Readers(w);
  }

  lemma StepKeepsInv(w: World, step: Step)
    requires Inv(w) && Enabled(w, step)
    ensures Inv(Next(w, step)) && Forward(w.server, Next(w, step).server)
  {
    hide Inv, Next, Forward;
    match step
    case ArriveStep(_, _, _) => ArriveKeepsInv(w, step);
    case ReadStep(_) => ReadKeepsInv(w, step);
    case ResumeStep(_, _, _) => ResumeKeepsInv(w, step);
    case _ => EndingKeepsInv(w, step);
  }

  lemma {:induction false} RunKeepsInv(w: World, steps: seq<Step>)
    requires Inv(w) && Legal(w, steps)
    ensures Inv(After(w, steps)) && Forward(w.server, After(w, steps).server)
    decreases |steps|
  {
    if steps != [] {
      StepKeepsInv(w, steps[0]);
      hide Inv, Next, Enabled;
      RunKeepsInv(Next(w, steps[0]), steps[1..]);
    }
  }

  /**
    Under every interleaving: the decision is settled exactly when the server has left waiting,
    and only once; at most one submission is accepted, and it is the decision; no more than
    eight bodies are being read, and the counter is their number.
   */
  lemma OneDecision(steps: seq<Step>)
    requires Legal(NEW_WORLD, steps)
    ensures var w := After(NEW_WORLD, steps);
      && w.server.settles == (if w.server.stage == Waiting then 0 else 1)
      && (w.server.decision.Some? <==> w.server.stage != Waiting)
      && |w.accepted| <= 1
      && (w.accepted != [] <==> w.server.decision.Some? && w.server.decision.value.Submitted?)
      && w.server.pendingReads == |Readers(w)| <= MAX_PENDING_READS
  {
    assert Readers(NEW_WORLD) == {};
    RunKeepsInv(NEW_WORLD, steps);
  }

  /** A request whose body is read: it came while waiting, with valid headers, beside fewer than 8 readers, and not too long. */
  predicate MayRead(a: Arrival) {
    && a.stage == Waiting && a.headersValid && a.readers < 8
    && (a.length == NoLength || (a.length.Length? && a.length.bytes <= 1024))
  }

  /** The status of one that is not, the first reason counting. */
  function StatusFor(a: Arrival): int {
    if a.stage != Waiting then 409 else if !a.headersValid then 400 else if a.readers >= 8 then 429 else 413
  }

  /** The submission is taken: it was there in time, from a caller that had not gone. */
  predicate Taken(r: Resumption) { !r.aborted && r.submitted.Some? && r.stage == Waiting }

  function ReplyTo(r: Resumption): Reply {
    if Taken(r) then if r.submitted.value.Approved? then Promised else DeniedPage
    else Refusal(if r.submitted.Some? && !r.aborted then 409 else 400)
  }

  /** What has become of a handler, told from how it arrived and resumed. */
  ghost predicate HandledAs(w: World, h: nat)
    requires h in w.handlers
  {
    && h in w.arrivals
    && (!MayRead(w.arrivals[h]) ==> w.handlers[h] == Answered(Refusal(StatusFor(w.arrivals[h]))) && h !in w.resumptions)
    && (MayRead(w.arrivals[h]) ==>
         if h in w.resumptions then w.handlers[h] == Answered(ReplyTo(w.resumptions[h])) else !w.handlers[h].Answered?)
    && (h in w.accepted <==> h in w.resumptions && Taken(w.resumptions[h]))
  }

  ghost predicate HistoryInv(w: World) {
    && w.arrivals.Keys == w.handlers.Keys && w.resumptions.Keys <= w.handlers.Keys
    && (forall h :: h in w.accepted ==> h in w.resumptions)
    && (forall h :: h in w.handlers ==> HandledAs(w, h))
    && (w.accepted != [] ==>
         && w.resumptions[w.accepted[0]].submitted.Some?
         && w.server.decision == Some(Submitted(w.resumptions[w.accepted[0]].submitted.value)))
  }

  lemma ArriveKeepsHistory(w: World, step: Step)
    requires Inv(w) && HistoryInv(w) && Enabled(w, step) && step.ArriveStep?
    ensures HistoryInv(Next(w, step))
  {
    var w' := Next(w, step);
    forall h | h in w'.handlers ensures HandledAs(w', h) {
      if h != step.h { assert HandledAs(w, h); }
    }
  }

  lemma ResumeKeepsHistory(w: World, step: Step)
    requires Inv(w) && HistoryInv(w) && Enabled(w, step) && step.ResumeStep?
    ensures HistoryInv(Next(w, step))
  {
    var w' := Next(w, step);
    assert HandledAs(w, step.h);
    forall h | h in w'.handlers ensures HandledAs(w', h) {
      if h != step.h { assert HandledAs(w, h); }
    }
  }

  lemma OthersKeepHistory(w: World, step: Step)
    requires Inv(w) && HistoryInv(w) && Enabled(w, step) && !step.ArriveStep? && !step.ResumeStep?
    ensures HistoryInv(Next(w, step))
  {
    var w' := Next(w, step);
    forall h | h in w'.handlers ensures HandledAs(w', h) { assert HandledAs(w, h); }
  }

  lemma {:induction false} RunKeepsHistory(w: World, steps: seq<Step>)
    requires Inv(w) && HistoryInv(w) && Legal(w, steps)
    ensures HistoryInv(After(w, steps))
    decreases |steps|
  {
    if steps != [] {
      hide Inv, HistoryInv, Next, Enabled;
      StepKeepsInv(w, steps[0]);
      match steps[0] {
        case ArriveStep(_, _, _) => ArriveKeepsHistory(w, steps[0]);
        case ResumeStep(_, _, _) => ResumeKeepsHistory(w, steps[0]);
        case _ => OthersKeepHistory(w, steps[0]);
      }
      RunKeepsHistory(Next(w, steps[0]), steps[1..]);
    }
  }

  /**
    Under every interleaving, exactly the requests that came while waiting, with valid headers,
    beside fewer than 8 bodies being read, and with no length or one of at most 1024, have their
    body read; the others got 409, 400, 429 or 413, in that order. A read body is answered with 400
    if the caller was gone or it says nothing, with 409 if the wait was over, and otherwise it is
    taken; the one taken is the decision.
   */
  lemma WhoIsAdmitted(steps: seq<Step>, h: nat)
    requires Legal(NEW_WORLD, steps) && h in After(NEW_WORLD, steps).handlers
    ensures var w := After(NEW_WORLD, steps);
      && HandledAs(w, h)
      && (h in w.accepted ==> w.accepted == [h] && w.server.decision == Some(Submitted(w.resumptions[h].submitted.value)))
  {
    assert Readers(NEW_WORLD) == {};
    RunKeepsInv(NEW_WORLD, steps);
    RunKeepsHistory(NEW_WORLD, steps);
  }

  /**
    In every world a run reaches: a cancellation, an expiry or a close while waiting is the decision
    it is named after; finishing a sign-in gives the accepted handler the page that says how it
    went, and a close the page of failure; at any other stage they change nothing.
   */
  lemma EndingsAreExact(steps: seq<Step>, step: Step)
    requires Legal(NEW_WORLD, steps) && (step.CancelStep? || step.ExpireStep? || step.FinishStep? || step.CloseStep?)
    ensures var before := After(NEW_WORLD, steps).server;
      var after := Next(After(NEW_WORLD, steps), step).server;
      match before.stage
      case Waiting =>
        if step.FinishStep? then after == before
        else after == Server(Closed, before.pendingReads, Some(if step.ExpireStep? then Expired else Canceled), 1, None)
      case Finalizing =>
        if step.CancelStep? || step.ExpireStep? then after == before
        else after == before.(stage := Closed, response := Some(if step.FinishStep? && step.success then SuccessPage else FailedPage))
      case Closed => after == before
  {
    assert Readers(NEW_WORLD) == {};
    RunKeepsInv(NEW_WORLD, steps);
    hide After, Legal;
  }

  /** Along any run the stage only moves forward, and a settled decision or reply never changes. */
  lemma StageMovesForward(before: seq<Step>, after: seq<Step>)
    requires Legal(NEW_WORLD, before) && Legal(After(NEW_WORLD, before), after)
    ensures Forward(After(NEW_WORLD, before).server, After(After(NEW_WORLD, before), after).server)
  {
    assert Readers(NEW_WORLD) == {};
    RunKeepsInv(NEW_WORLD, before);
    RunKeepsInv(After(NEW_WORLD, before), after);
  }

  /**
    Once closed, whatever happens next: the decision is settled, the handler of an accepted
    approval has its reply, and no further submission is ever accepted.
   */
  lemma ClosingSettlesEverything(before: seq<Step>, after: seq<Step>)
    requires Legal(NEW_WORLD, before + [CloseStep] + after)
    ensures Legal(NEW_WORLD, before)
    ensures var w := After(NEW_WORLD, before + [CloseStep] + after);
      && w.server.stage == Closed && w.server.decision.Some?
      && (forall h :: h in w.handlers && w.handlers[h] == Answered(Promised) ==> w.server.response.Some?)
      && w.accepted == After(NEW_WORLD, before).accepted
  {
    assert before + [CloseStep] + after == before + ([CloseStep] + after);
    SplitRun(NEW_WORLD, before, [CloseStep] + after);
    var w := After(NEW_WORLD, before);
    assert Readers(NEW_WORLD) == {};
    RunKeepsInv(NEW_WORLD, before);
    assert ([CloseStep] + after)[1..] == after;
    StepKeepsInv(w, CloseStep);
    RunKeepsInv(Next(w, CloseStep), after);
    ClosedAcceptsNothing(Next(w, CloseStep), after);
  }

  lemma {:induction false} ClosedAcceptsNothing(w: World, steps: seq<Step>)
    requires w.server.stage == Closed && Legal(w, steps)
    ensures After(w, steps).accepted == w.accepted
    decreases |steps|
  {
    if steps != [] { ClosedAcceptsNothing(Next(w, steps[0]), steps[1..]); }
  }

  lemma {:induction false} SplitRun(w: World, first: seq<Step>, second: seq<Step>)
    requires Legal(w, first + second)
    ensures Legal(w, first) && Legal(After(w, first), second) && After(w, first + second) == After(After(w, first), second)
    decreases |first|
  {
    if first == [] {
      assert first + second == second;
    } else {
      assert (first + second)[1..] == first[1..] + second;
      SplitRun(Next(w, first[0]), first[1..], second);
    }
  }
}
