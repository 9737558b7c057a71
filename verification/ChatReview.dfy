/** A shown review is the only setup a Save, Publish or Apply can carry, over every run. */
module ChatReview {
  import opened Options
  import opened RetainedRequests
  import opened Chat
  import opened ChatProofs

  /** The last review displayed, unless something has invalidated it since. */
  ghost function LastShown(events: seq<Event>): Option<Event> {
    if events == [] then None
    else match events[|events| - 1]
      case Displayed(_, _) => Some(events[|events| - 1])
      case Invalidated => None
      case Wrote(_, _) => LastShown(events[..|events| - 1])
  }

  /** A displayed tag belongs to a fleet whose setup revision is the reviewed target. */
  ghost predicate TagIsCurrent(e: Event)
    requires e.Displayed?
  {
    && e.seen.draft.review == Some(e.seen.review)
    && (e.seen.setupTag.Some? ==>
         && e.fleet.Some? && e.fleet.value.setupTag == e.seen.setupTag.value
         && Some(e.fleet.value.setupRevision) == e.seen.review.targetRevision)
  }

  /** The write carries what the review showed. */
  ghost predicate CarriesReview(request: Request, e: Event)
    requires e.Displayed?
  {
    match request.body
    case SaveBody(candidate, name, digest, _) =>
      e.seen.draft.candidate == Some(candidate) && e.seen.review.digest == digest && e.seen.review.instanceName == name
    case PublishBody(candidate, _) => e.seen.draft.candidate == Some(candidate)
    case ApplyBody(candidate, digest) =>
      && e.seen.draft.candidate == Some(candidate) && e.seen.review.digest == digest
      && e.seen.setupTag.Some? && request.ifMatch == e.seen.setupTag
      && e.seen.draft.linkedFleet.Some? && request.path == FleetRevisions(e.seen.draft.linkedFleet.value)
    case _ => true
  }

  predicate IsSetupWrite(request: Request) {
    request.body.SaveBody? || request.body.PublishBody? || request.body.ApplyBody?
  }

  /** Event `i` of a run, if it starts a Save, Publish or Apply, carries the last review shown before it. */
  ghost predicate Reviewed(events: seq<Event>, i: nat)
    requires i < |events|
  {
    events[i].Wrote? && !events[i].again && IsSetupWrite(events[i].request) ==>
      var shown := LastShown(events[..i]);
      shown.Some? && shown.value.Displayed? && CarriesReview(events[i].request, shown.value) && TagIsCurrent(shown.value)
  }

  /** Event `i` of a run, if it is a write sent again, repeats one that was sent before. */
  ghost predicate Repeated(events: seq<Event>, i: nat)
    requires i < |events|
  {
    events[i].Wrote? && events[i].again ==> Wrote(events[i].request, false) in events[..i]
  }

  ghost predicate SlotLogged(slot: OpSlot, events: seq<Event>) {
    slot.pending.Some? ==> Wrote(slot.pending.value.request, false) in events
  }

  /** What the state owes to the log. */
  ghost predicate Logged(c: State, events: seq<Event>) {
    && SlotLogged(c.session.send, events) && SlotLogged(c.setup.save, events)
    && SlotLogged(c.setup.publish, events) && SlotLogged(c.setup.apply, events)
    && (c.setup.continueSave.Some? ==> Wrote(c.setup.continueSave.value, false) in events)
  }

  /** The state shows exactly the last review of the log. */
  ghost predicate ShowsLast(c: State, events: seq<Event>) {
    match LastShown(events)
    case None => c.seen.None?
    case Some(e) => e.Displayed? && TagIsCurrent(e) && c.seen == Some(e.seen)
  }

  // ---------------------------------------------------------------- one action

  /** The log of one action extends the log of the run as it should. */
  ghost predicate ActOk(events: seq<Event>, acted: Acted) {
    && var all := events + acted.events;
    && (forall i :: |events| <= i < |all| ==> Reviewed(all, i) && Repeated(all, i))
    && Logged(acted.state, events + acted.events)
    && ShowsLast(acted.state, events + acted.events)
  }

  ghost predicate Before(c: State, events: seq<Event>) {
    ChatInv(c) && Logged(c, events) && ShowsLast(c, events)
  }

  lemma AppendOne(events: seq<Event>, e: Event)
    ensures (events + [e])[..|events|] == events && (events + [e])[|events|] == e
    ensures LastShown(events + [e]) ==
      match e case Displayed(_, _) => Some(e) case Invalidated => None case Wrote(_, _) => LastShown(events)
  {
  }

  lemma AppendTwo(events: seq<Event>, e: Event, f: Event)
    ensures events + [e, f] == (events + [e]) + [f]
    ensures (events + [e, f])[..|events|] == events && (events + [e, f])[..|events| + 1] == events + [e]
  {
  }

  /** An action that logs nothing and starts nothing. */
  lemma QuietAct(c: State, events: seq<Event>, acted: Acted)
    requires Before(c, events) && acted.events == []
    requires acted.state.seen == c.seen && Kept(c, acted.state)
    ensures ActOk(events, acted)
  {
    assert events + [] == events;
  }

  ghost predicate SlotKept(before: OpSlot, after: OpSlot) {
    after.pending == before.pending || after.pending.None?
  }

  /** Nothing new is held. */
  ghost predicate Kept(c: State, c': State) {
    && SlotKept(c.session.send, c'.session.send) && SlotKept(c.setup.save, c'.setup.save)
    && SlotKept(c.setup.publish, c'.setup.publish) && SlotKept(c.setup.apply, c'.setup.apply)
    && (c'.setup.continueSave == c.setup.continueSave || c'.setup.continueSave.None?)
  }

  lemma ForgettingAct(c: State, events: seq<Event>, acted: Acted)
    requires Before(c, events) && acted.events == [Invalidated]
    requires acted.state.seen.None? && Kept(c, acted.state)
    ensures ActOk(events, acted)
  {
    AppendOne(events, Invalidated);
  }

  lemma ShowingAct(c: State, events: seq<Event>, acted: Acted, e: Event)
    requires Before(c, events) && acted.events == [e] && e.Displayed? && TagIsCurrent(e)
    requires acted.state.seen == Some(e.seen) && Kept(c, acted.state)
    ensures ActOk(events, acted)
  {
    AppendOne(events, e);
  }

  /** Only `request` may be newly held. */
  ghost predicate KeptOr(c: State, c': State, request: Request) {
    && SlotKeptOr(c.session.send, c'.session.send, request) && SlotKeptOr(c.setup.save, c'.setup.save, request)
    && SlotKeptOr(c.setup.publish, c'.setup.publish, request) && SlotKeptOr(c.setup.apply, c'.setup.apply, request)
    && (c'.setup.continueSave == c.setup.continueSave || c'.setup.continueSave.None? || c'.setup.continueSave == Some(request))
  }

  ghost predicate SlotKeptOr(before: OpSlot, after: OpSlot, request: Request) {
    SlotKept(before, after) || (after.pending.Some? && after.pending.value.request == request)
  }

  /** A first write, of a draft or of exactly the reviewed setup; applying it may forget the review. */
  lemma WritingAct(c: State, events: seq<Event>, acted: Acted, request: Request, forgets: bool)
    requires Before(c, events)
    requires acted.events == if forgets then [Wrote(request, false), Invalidated] else [Wrote(request, false)]
    requires acted.state.seen == if forgets then None else c.seen
    requires KeptOr(c, acted.state, request)
    requires IsSetupWrite(request) ==> c.seen.Some? && CarriesReview(request, Displayed(c.seen.value, None))
    ensures ActOk(events, acted)
  {
    AppendOne(events, Wrote(request, false));
    if forgets {
      AppendTwo(events, Wrote(request, false), Invalidated);
      AppendOne(events + [Wrote(request, false)], Invalidated);
    }
    assert Wrote(request, false) in events + acted.events;
  }

  /** A draft write: the review is forgotten first. */
  lemma DraftAct(c: State, events: seq<Event>, acted: Acted, request: Request)
    requires Before(c, events)
    requires acted.events == [Invalidated, Wrote(request, false)] && acted.state.seen.None?
    requires KeptOr(c, acted.state, request) && !IsSetupWrite(request)
    ensures ActOk(events, acted)
  {
    AppendOne(events, Invalidated);
    AppendTwo(events, Invalidated, Wrote(request, false));
    AppendOne(events + [Invalidated], Wrote(request, false));
    assert Wrote(request, false) in events + acted.events;
  }

  /** A write sent again. */
  lemma RepeatingAct(c: State, events: seq<Event>, acted: Acted, request: Request, forgets: bool)
    requires Before(c, events) && Wrote(request, false) in events
    requires acted.events == if forgets then [Wrote(request, true), Invalidated] else [Wrote(request, true)]
    requires acted.state.seen == if forgets then None else c.seen
    requires Kept(c, acted.state)
    ensures ActOk(events, acted)
  {
    AppendOne(events, Wrote(request, true));
    if forgets {
      AppendTwo(events, Wrote(request, true), Invalidated);
      AppendOne(events + [Wrote(request, true)], Invalidated);
    }
  }

  // ---------------------------------------------------------------- each action

  lemma MessageOk(c: State, events: seq<Event>, text: string, uuid: string, written: Answer<Draft>, followed: Followed)
    requires Before(c, events) && !Chat.Busy(c)
    ensures ActOk(events, DoMessage(c, text, uuid, written, followed))
  {
    var acted := DoMessage(c, text, uuid, written, followed);
    var request := SendRequest(c.session, text, NextKey(c.session.send, uuid));
    assert acted.events == [Invalidated, Wrote(request, false)];
    hide ActOk;
    DraftAct(c, events, acted, request);
  }

  lemma CreateOk(c: State, events: seq<Event>, uuid: string, written: Answer<Draft>)
    requires Before(c, events) && !Chat.Busy(c)
    ensures ActOk(events, DoCreate(c, uuid, written))
  {
    var acted := DoCreate(c, uuid, written);
    var request := CreateRequest(c.session, NextKey(c.session.send, uuid));
    assert acted.events == [Invalidated, Wrote(request, false)];
    hide ActOk;
    DraftAct(c, events, acted, request);
  }

  lemma ShowOk(c: State, events: seq<Event>, c1: State, draft: Draft, review: Review, fleet: Answer<Fleet>)
    requires Before(c, events) && c1.seen == c.seen && Kept(c, c1) && draft.review == Some(review)
    ensures ActOk(events, ShowReview(c1, draft, review, fleet))
  {
    hide ActOk, Before;
    var acted := ShowReview(c1, draft, review, fleet);
    if acted.events == [] {
      QuietAct(c, events, acted);
    } else {
      ShowingAct(c, events, acted, acted.events[0]);
    }
  }

  /** A read or patch of the draft holds nothing new, and a draft read back is the one it answers. */
  lemma ReadKeeps(c: State, s: Session, read: Answer<Draft>, patched: Answer<Draft>)
    requires SlotKept(c.session.send, s.send)
    ensures SlotKept(c.session.send, Refresh(s, read).session.send) && SlotKept(c.session.send, Patch(s, read, patched).session.send)
  {
  }

  lemma ReviewOk(c: State, events: seq<Event>, name: Option<string>, read: Answer<Draft>, patched: Answer<Draft>, reread: Answer<Draft>, fleet: Answer<Fleet>)
    requires Before(c, events)
    ensures ActOk(events, DoReview(c, name, read, patched, reread, fleet))
  {
    hide ActOk, Before, Refresh, Patch, ShowReview, SlotKept;
    var acted := DoReview(c, name, read, patched, reread, fleet);
    NothingMoves(c);
    var renamed := if name.Some? then Patch(c.session, read, patched) else SessionStep(c.session, Done(Draft("", None, None, None)), []);
    ReadKeeps(c, c.session, read, patched);
    var step := Refresh(renamed.session, reread);
    ReadKeeps(c, renamed.session, reread, patched);
    if renamed.result.Done? && step.result.Done? && step.result.value.review.Some? {
      ShowOk(c, events, c.(session := step.session), step.result.value, step.result.value.review.value, fleet);
    } else {
      QuietAct(c, events, acted);
    }
  }

  lemma NothingMoves(c: State)
    ensures SlotKept(c.session.send, c.session.send) && SlotKept(c.setup.save, c.setup.save)
    ensures SlotKept(c.setup.publish, c.setup.publish) && SlotKept(c.setup.apply, c.setup.apply)
  {
  }

  lemma SaveOk(c: State, events: seq<Event>, start: StartMode, uuid: string, saved: Answer<Fleet>)
    requires Before(c, events) && !Chat.Busy(c)
    ensures ActOk(events, DoSave(c, start, uuid, saved))
  {
    hide ActOk;
    var acted := DoSave(c, start, uuid, saved);
    if c.seen.Some? && c.seen.value.draft.candidate.Some? {
      var seen := c.seen.value;
      var request := SaveRequest(seen.draft.candidate.value, seen.review.instanceName, seen.review.digest, start, NextKey(c.setup.save, uuid));
      assert acted.events == [Wrote(request, false)];
      WritingAct(c, events, acted, request, false);
    } else {
      QuietAct(c, events, acted);
    }
  }

  lemma PublishOk(c: State, events: seq<Event>, title: string, target: Option<Target>, uuid: string, published: Answer<string>)
    requires Before(c, events) && !Chat.Busy(c)
    ensures ActOk(events, DoPublish(c, title, target, uuid, published))
  {
    hide ActOk;
    var acted := DoPublish(c, title, target, uuid, published);
    if c.seen.Some? && c.seen.value.draft.candidate.Some? {
      var request := PublishRequest(c.seen.value.draft.candidate.value, title, target, NextKey(c.setup.publish, uuid));
      assert acted.events == [Wrote(request, false)];
      WritingAct(c, events, acted, request, false);
    } else {
      QuietAct(c, events, acted);
    }
  }

  lemma ApplyOk(c: State, events: seq<Event>, uuid: string, applied: Answer<seq<string>>)
    requires Before(c, events) && !Chat.Busy(c)
    ensures ActOk(events, DoApply(c, uuid, applied))
  {
    hide ActOk;
    var acted := DoApply(c, uuid, applied);
    if c.seen.Some? && c.seen.value.draft.candidate.Some? && NonEmpty(c.seen.value.draft.linkedFleet) && NonEmpty(c.seen.value.setupTag) {
      var seen := c.seen.value;
      var request := ApplyRequest(seen.draft.candidate.value, seen.draft.linkedFleet.value, seen.review.digest, seen.setupTag.value, NextKey(c.setup.apply, uuid));
      assert acted.events == if applied.Ok? then [Wrote(request, false), Invalidated] else [Wrote(request, false)];
      WritingAct(c, events, acted, request, applied.Ok?);
    } else {
      QuietAct(c, events, acted);
    }
  }

  lemma RetryOk(c: State, events: seq<Event>, written: Answer<Draft>, followed: Followed, saved: Answer<Fleet>, published: Answer<string>,
                applied: Answer<seq<string>>)
    requires Before(c, events)
    ensures ActOk(events, DoRetry(c, written, followed, saved, published, applied))
  {
    hide ActOk;
    var acted := DoRetry(c, written, followed, saved, published, applied);
    match c.operation {
      case OpSend => RetrySendOk(c, events, acted);
      case OpCreate => RetrySendOk(c, events, acted);
      case OpSave => RetrySaveOk(c, events, saved);
      case OpPublish => RetryPublishOk(c, events, published);
      case OpApply => RetryApplyOk(c, events, applied);
    }
  }

  lemma RetrySaveOk(c: State, events: seq<Event>, saved: Answer<Fleet>)
    requires Before(c, events) && c.operation.OpSave?
    ensures ActOk(events, DoRetry(c, Error(NoAnswer), FollowFailed(NoAnswer), saved, Error(NoAnswer), Error(NoAnswer)))
  {
    hide ActOk;
    var acted := DoRetry(c, Error(NoAnswer), FollowFailed(NoAnswer), saved, Error(NoAnswer), Error(NoAnswer));
    if acted.events == [] {
      QuietAct(c, events, acted);
    } else {
      RepeatingAct(c, events, acted, acted.events[0].request, false);
    }
  }

  lemma RetryPublishOk(c: State, events: seq<Event>, published: Answer<string>)
    requires Before(c, events) && c.operation.OpPublish?
    ensures ActOk(events, DoRetry(c, Error(NoAnswer), FollowFailed(NoAnswer), Error(NoAnswer), published, Error(NoAnswer)))
  {
    hide ActOk;
    var acted := DoRetry(c, Error(NoAnswer), FollowFailed(NoAnswer), Error(NoAnswer), published, Error(NoAnswer));
    if acted.events == [] {
      QuietAct(c, events, acted);
    } else {
      RepeatingAct(c, events, acted, acted.events[0].request, false);
    }
  }

  lemma RetryApplyOk(c: State, events: seq<Event>, applied: Answer<seq<string>>)
    requires Before(c, events) && c.operation.OpApply?
    ensures ActOk(events, DoRetry(c, Error(NoAnswer), FollowFailed(NoAnswer), Error(NoAnswer), Error(NoAnswer), applied))
  {
    hide ActOk;
    var acted := DoRetry(c, Error(NoAnswer), FollowFailed(NoAnswer), Error(NoAnswer), Error(NoAnswer), applied);
    if acted.events == [] {
      QuietAct(c, events, acted);
    } else {
      RepeatingAct(c, events, acted, acted.events[0].request, applied.Ok?);
    }
  }

  lemma RetrySendOk(c: State, events: seq<Event>, acted: Acted)
    requires Before(c, events) && (c.operation.OpSend? || c.operation.OpCreate?)
    requires exists written, followed, saved, published, applied :: acted == DoRetry(c, written, followed, saved, published, applied)
    ensures ActOk(events, acted)
  {
    hide ActOk;
    if acted.events == [] {
      QuietAct(c, events, acted);
    } else {
      RepeatingAct(c, events, acted, acted.events[0].request, false);
    }
  }

  lemma OtherOk(c: State, events: seq<Event>, command: Command)
    requires Before(c, events) && !(StartsWork(command) && Chat.Busy(c))
    requires command.Model? || command.Stop? || command.History? || command.Remove? || command.Clear?
    ensures ActOk(events, Act(c, command))
  {
    hide ActOk;
    var acted := Act(c, command);
    if acted.events == [] {
      QuietAct(c, events, acted);
    } else {
      ForgettingAct(c, events, acted);
    }
  }

  lemma EveryActOk(c: State, events: seq<Event>, command: Command)
    requires Before(c, events)
    ensures ActOk(events, Act(c, command)) && Before(Act(c, command).state, events + Act(c, command).events)
  {
    ActKeepsInv(c, command);
    hide DoMessage, DoCreate, DoReview, DoSave, DoPublish, DoApply, DoRetry, DoModel;
    if StartsWork(command) && Chat.Busy(c) {
      QuietAct(c, events, Act(c, command));
    } else {
      match command
      case Message(text, uuid, written, followed) => MessageOk(c, events, text, uuid, written, followed);
      case Create(uuid, written) => CreateOk(c, events, uuid, written);
      case ReviewSetup(name, read, patched, reread, fleet) => ReviewOk(c, events, name, read, patched, reread, fleet);
      case Save(start, uuid, saved) => SaveOk(c, events, start, uuid, saved);
      case Publish(title, target, uuid, published) => PublishOk(c, events, title, target, uuid, published);
      case Apply(uuid, applied) => ApplyOk(c, events, uuid, applied);
      case Retry(written, followed, saved, published, applied) => RetryOk(c, events, written, followed, saved, published, applied);
      case _ => OtherOk(c, events, command);
    }
  }

  // ---------------------------------------------------------------- every run

  lemma PrefixKeeps(events: seq<Event>, more: seq<Event>, i: nat)
    requires i < |events| && Reviewed(events, i) && Repeated(events, i)
    ensures Reviewed(events + more, i) && Repeated(events + more, i)
  {
    assert (events + more)[..i] == events[..i];
  }

  lemma {:induction false} RunIsLogged(c: State, commands: seq<Command>)
    requires Started(c)
    ensures var (end, events) := RunAll(c, commands);
      Before(end, events) && forall i :: 0 <= i < |events| ==> Reviewed(events, i) && Repeated(events, i)
    decreases |commands|
  {
    if commands != [] {
      var (before, earlier) := RunAll(c, commands[..|commands| - 1]);
      var acted := Act(before, commands[|commands| - 1]);
      RunIsLogged(c, commands[..|commands| - 1]);
      EveryActOk(before, earlier, commands[|commands| - 1]);
      hide Act, Before;
      var events := earlier + acted.events;
      forall i | 0 <= i < |events| ensures Reviewed(events, i) && Repeated(events, i) {
        if i < |earlier| { PrefixKeeps(earlier, acted.events, i); }
      }
    }
  }

  /**
    In every run, each new Save, Publish or Apply carries the candidate of the last review
    displayed, with no message, draft creation or successful model change since; a Save and an
    Apply also carry its digest, and an Apply the tag of a fleet whose setup revision was the
    reviewed target. Every write sent again is one that was sent before.
   */
  lemma SetupWritesCarryTheReview(c: State, commands: seq<Command>, i: nat)
    requires Started(c) && i < |RunAll(c, commands).1|
    ensures Reviewed(RunAll(c, commands).1, i) && Repeated(RunAll(c, commands).1, i)
  {
    RunIsLogged(c, commands);
  }
}
