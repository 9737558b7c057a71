/** The chat client's classes, each method proved against its specification in `Chat`. */
module ChatClient {
  import opened Options
  import opened RetainedRequests
  import opened Chat

  type Slot = RetainedRequest<Identity, Request>

  /** Performs a launched operation: its answer arrives, then its hooks run. */
  method Perform(slot: Slot, op: Op, outcome: Outcome)
    modifies slot
    ensures slot.State() == Finish(old(slot.State()), op, outcome)
  {
    slot.Settle(op, outcome);
    slot.Release(op);
  }

  class SetupSession {
    const save: Slot
    const publish: Slot
    const apply: Slot
    var recovery: Option<Recovery>
    var continueSave: Option<Request>
    var fleet: Option<Fleet>

    ghost predicate Valid() {
      save != publish && save != apply && publish != apply
    }

    ghost function State(): Setup
      reads this, save, publish, apply
    {
      Setup(save.State(), publish.State(), apply.State(), recovery, continueSave, fleet)
    }

    constructor (key: Option<RecoveryKey>)
      ensures Valid() && fresh(save) && fresh(publish) && fresh(apply)
      ensures State() == NewSetup(key)
    {
      save := new RetainedRequest(KeyFor(key, SaveAction));
      publish := new RetainedRequest(KeyFor(key, PublishAction));
      apply := new RetainedRequest(KeyFor(key, ApplyAction));
      recovery, continueSave, fleet := None, None, None;
    }

    predicate Pending()
      reads this, save, publish, apply
      ensures Pending() == SetupPending(State())
    {
      save.pending.Some? || publish.pending.Some? || apply.pending.Some?
    }

    function Recovery(): (r: Option<Recovery>)
      reads this, save, publish, apply
      ensures r == RecoveryOf(State())
    {
      if Pending() || (fleet.Some? && IsPartial(fleet.value)) then recovery else None
    }

    method Clear()
      requires Valid()
      modifies this, save, publish, apply
      ensures State() == ClearSetup(old(State()))
    {
      save.Clear();
      publish.Clear();
      apply.Clear();
      continueSave, fleet, recovery := None, None, None;
    }

    method SaveCandidate(candidate: string, name: string, digest: string, start: StartMode, uuid: string, answer: Answer<Fleet>)
      returns (result: Result<Fleet>, ghost sent: seq<Request>)
      requires Valid()
      modifies this, save
      ensures SetupStep(State(), result, sent) == Chat.SaveCandidate(old(State()), candidate, name, digest, start, uuid, answer)
    {
      if publish.pending.Some? || apply.pending.Some? { return Invalid, []; }
      if save.pending.None? {
        var key := if save.initialKey.Some? then save.initialKey.value else uuid;
        recovery := Some(SaveRecovery(key, candidate, name, digest, start.RunNow?));
        continueSave := Some(SaveRequest(candidate, name, digest, start, key));
      }
      var body := SaveBody(candidate, name, digest, start);
      var launch := save.Run(SaveId(body), uuid, (key: string) => SaveRequest(candidate, name, digest, start, key));
      if !launch.Launched? { return Invalid, []; }
      Perform(save, launch.op, OutcomeOf(answer));
      sent := [launch.op.request];
      if answer.Ok? {
        fleet := Some(answer.value);
        result := Done(answer.value);
      } else {
        if save.pending.None? { recovery := None; }
        result := Failed(OutcomeOf(answer));
      }
    }

    method Save(draft: Draft, review: Review, start: StartMode, uuid: string, answer: Answer<Fleet>)
      returns (result: Result<Fleet>, ghost sent: seq<Request>)
      requires Valid()
      modifies this, save
      ensures SetupStep(State(), result, sent) == SaveDraft(old(State()), draft, review, start, uuid, answer)
    {
      if publish.pending.Some? || apply.pending.Some? || draft.candidate.None? { return Invalid, []; }
      result, sent := SaveCandidate(draft.candidate.value, review.instanceName, review.digest, start, uuid, answer);
    }

    method Progress(answer: Answer<Fleet>) returns (result: Result<Fleet>, ghost sent: seq<Request>)
      requires Valid()
      modifies this, save
      ensures SetupStep(State(), result, sent) == Chat.Progress(old(State()), answer)
    {
      if save.pending.Some? {
        var launch := save.Retry();
        if !launch.Launched? { return Invalid, []; }
        Perform(save, launch.op, OutcomeOf(answer));
        sent := [launch.op.request];
      } else if continueSave.Some? {
        sent := [continueSave.value];
      } else if fleet.Some? {
        sent := [];
      } else {
        return Invalid, [];
      }
      if answer.Ok? {
        fleet := Some(answer.value);
        result := Done(answer.value);
      } else {
        result := Failed(OutcomeOf(answer));
      }
    }

    method PublishCandidate(candidate: string, title: string, target: Option<Target>, uuid: string, answer: Answer<string>)
      returns (result: Result<string>, ghost sent: seq<Request>)
      requires Valid()
      modifies this, publish
      ensures SetupStep(State(), result, sent) == Chat.PublishCandidate(old(State()), candidate, title, target, uuid, answer)
    {
      if save.pending.Some? || apply.pending.Some? { return Invalid, []; }
      if publish.pending.None? {
        var key := if publish.initialKey.Some? then publish.initialKey.value else uuid;
        recovery := Some(PublishRecovery(key, candidate, title, target));
      }
      var launch := publish.Run(PublishId(PublishPath(target), PublishBodyOf(candidate, title, target), target), uuid,
                                (key: string) => PublishRequest(candidate, title, target, key));
      if !launch.Launched? { return Invalid, []; }
      Perform(publish, launch.op, OutcomeOf(answer));
      if publish.pending.None? { recovery := None; }
      result := if answer.Ok? then Done(answer.value) else Failed(OutcomeOf(answer));
      sent := [launch.op.request];
    }

    method Publish(draft: Draft, title: string, target: Option<Target>, uuid: string, answer: Answer<string>)
      returns (result: Result<string>, ghost sent: seq<Request>)
      requires Valid()
      modifies this, publish
      ensures SetupStep(State(), result, sent) == PublishDraft(old(State()), draft, title, target, uuid, answer)
    {
      if save.pending.Some? || apply.pending.Some? || draft.candidate.None? { return Invalid, []; }
      result, sent := PublishCandidate(draft.candidate.value, title, target, uuid, answer);
    }

    method ApplyCandidate(candidate: string, fleetId: string, digest: string, tag: string, uuid: string, answer: Answer<seq<string>>)
      returns (result: Result<seq<string>>, ghost sent: seq<Request>)
      requires Valid()
      modifies this, apply
      ensures SetupStep(State(), result, sent) == Chat.ApplyCandidate(old(State()), candidate, fleetId, digest, tag, uuid, answer)
    {
      if save.pending.Some? || publish.pending.Some? { return Invalid, []; }
      if apply.pending.None? {
        var key := if apply.initialKey.Some? then apply.initialKey.value else uuid;
        recovery := Some(ApplyRecovery(key, candidate, fleetId, digest, tag));
      }
      var launch := apply.Run(ApplyId(FleetRevisions(fleetId), ApplyBody(candidate, digest), tag), uuid,
                              (key: string) => ApplyRequest(candidate, fleetId, digest, tag, key));
      if !launch.Launched? { return Invalid, []; }
      Perform(apply, launch.op, OutcomeOf(answer));
      if apply.pending.None? { recovery := None; }
      result := if answer.Ok? then Done(answer.value) else Failed(OutcomeOf(answer));
      sent := [launch.op.request];
    }

    method Apply(draft: Draft, review: Review, tag: string, uuid: string, answer: Answer<seq<string>>)
      returns (result: Result<seq<string>>, ghost sent: seq<Request>)
      requires Valid()
      modifies this, apply
      ensures SetupStep(State(), result, sent) == ApplyDraft(old(State()), draft, review, tag, uuid, answer)
    {
      if save.pending.Some? || publish.pending.Some? || draft.candidate.None? || !NonEmpty(draft.linkedFleet) { return Invalid, []; }
      result, sent := ApplyCandidate(draft.candidate.value, draft.linkedFleet.value, review.digest, tag, uuid, answer);
    }

    method RetryPublication(answer: Answer<string>) returns (result: Result<string>, ghost sent: seq<Request>)
      requires Valid()
      modifies publish
      ensures SetupStep(State(), result, sent) == RetryPublish(old(State()), answer)
    {
      var launch := publish.Retry();
      if !launch.Launched? { return Invalid, []; }
      Perform(publish, launch.op, OutcomeOf(answer));
      result := if answer.Ok? then Done(answer.value) else Failed(OutcomeOf(answer));
      sent := [launch.op.request];
    }

    method RetryApplication(answer: Answer<seq<string>>) returns (result: Result<seq<string>>, ghost sent: seq<Request>)
      requires Valid()
      modifies apply
      ensures SetupStep(State(), result, sent) == RetryApply(old(State()), answer)
    {
      var launch := apply.Retry();
      if !launch.Launched? { return Invalid, []; }
      Perform(apply, launch.op, OutcomeOf(answer));
      result := if answer.Ok? then Done(answer.value) else Failed(OutcomeOf(answer));
      sent := [launch.op.request];
    }
  }

  class DraftSession {
    const source: Source
    const model: string
    const send: Slot
    var id: Option<string>
    var draft: Option<Draft>

    ghost function State(): Session
      reads this, send
    {
      Session(source, model, send.State(), id, draft)
    }

    constructor (source: Source, model: string, id: Option<string>, operationId: Option<string>)
      ensures fresh(send) && State() == NewSession(source, model, id, operationId)
    {
      this.source, this.model, this.id, draft := source, model, id, None;
      send := new RetainedRequest(operationId);
    }

    method Clear()
      modifies this, send
      ensures State() == ClearSession(old(State()))
    {
      send.Clear();
      id, draft := None, None;
    }

    method Guarded(outcome: Outcome)
      modifies this, send
      ensures State() == Guard(old(State()), outcome)
    {
      if AccessLost(outcome) { Clear(); }
    }

    method FinishLaunch(launch: Start<Identity, Request>, answer: Answer<Draft>) returns (result: Result<Draft>, ghost sent: seq<Request>)
      modifies this, send
      ensures SessionStep(State(), result, sent) == FinishWrite(old(State()), launch, answer)
    {
      if !launch.Launched? { return Invalid, []; }
      var op := launch.op;
      if answer.Ok? && op.request.path == Drafts {
        id, draft := Some(answer.value.id), Some(answer.value);
      }
      Perform(send, op, OutcomeOf(answer));
      sent := [op.request];
      if answer.Ok? {
        result := Done(answer.value);
      } else {
        Guarded(OutcomeOf(answer));
        result := Failed(OutcomeOf(answer));
      }
    }

    method Send(message: string, uuid: string, answer: Answer<Draft>) returns (result: Result<Draft>, ghost sent: seq<Request>)
      modifies this, send
      ensures SessionStep(State(), result, sent) == SendMessage(old(State()), message, uuid, answer)
    {
      var id0, source0, model0 := id, source, model;
      var execute := (key: string) =>
        if NonEmpty(id0) then Request(DraftMessages(id0.value), MessageBody(message, key), None, None)
        else Request(Drafts, DraftBody(source0, model0, Some(message), key), None, None);
      ghost var before := State();
      var launch := send.Run(MessageId(message), uuid, execute);
      SameRun(before.send, MessageId(message), uuid, execute, (key: string) => SendRequest(before, message, key));
      result, sent := FinishLaunch(launch, answer);
    }

    method Create(uuid: string, answer: Answer<Draft>) returns (result: Result<Draft>, ghost sent: seq<Request>)
      modifies this, send
      ensures SessionStep(State(), result, sent) == CreateDraft(old(State()), uuid, answer)
    {
      var source0, model0 := source, model;
      var launch := send.Run(SourceId(source.kind), uuid, (key: string) => Request(Drafts, DraftBody(source0, model0, None, key), None, None));
      result, sent := FinishLaunch(launch, answer);
    }

    method Retry(answer: Answer<Draft>) returns (result: Result<Draft>, ghost sent: seq<Request>)
      modifies this, send
      ensures SessionStep(State(), result, sent) == RetrySend(old(State()), answer)
    {
      var launch := send.Retry();
      result, sent := FinishLaunch(launch, answer);
    }

    method Refresh(answer: Answer<Draft>) returns (result: Result<Draft>)
      modifies this, send
      ensures SessionStep(State(), result, []) == Chat.Refresh(old(State()), answer)
    {
      if !NonEmpty(id) { return Invalid; }
      if answer.Ok? {
        id, draft := Some(answer.value.id), Some(answer.value);
        result := Done(answer.value);
      } else {
        Guarded(OutcomeOf(answer));
        result := Failed(OutcomeOf(answer));
      }
    }

    method Patch(read: Answer<Draft>, patched: Answer<Draft>) returns (result: Result<Draft>)
      modifies this, send
      ensures SessionStep(State(), result, []) == Chat.Patch(old(State()), read, patched)
    {
      result := Refresh(read);
      if !result.Done? { return; }
      if patched.Ok? {
        id, draft := Some(patched.value.id), Some(patched.value);
        result := Done(patched.value);
      } else {
        Guarded(OutcomeOf(patched));
        result := Failed(OutcomeOf(patched));
      }
    }

    method Touch(answer: Answer<()>) returns (result: Result<()>)
      modifies this, send
      ensures SessionStep(State(), result, []) == Chat.Touch(old(State()), answer)
    {
      if !NonEmpty(id) { return Invalid; }
      if answer.Ok? {
        result := Done(());
      } else {
        Guarded(OutcomeOf(answer));
        result := Failed(OutcomeOf(answer));
      }
    }
  }

  class ChatActions {
    const session: DraftSession
    const setup: SetupSession
    var seen: Option<Seen>
    var operation: Operation
    var partial: bool

    ghost predicate Valid() {
      && setup.Valid()
      && session.send != setup.save && session.send != setup.publish && session.send != setup.apply
    }

    ghost function Footprint(): set<object> {
      {this, session, session.send, setup, setup.save, setup.publish, setup.apply}
    }

    ghost function State(): State
      reads Footprint()
    {
      Chat.State(session.State(), setup.State(), seen, operation, partial)
    }

    constructor (session: DraftSession, setup: SetupSession)
      requires setup.Valid() && session.send != setup.save && session.send != setup.publish && session.send != setup.apply
      ensures Valid() && this.session == session && this.setup == setup
      ensures State() == NewState(session.State(), setup.State())
    {
      this.session, this.setup := session, setup;
      seen, operation, partial := None, OpSend, false;
    }

    predicate Busy()
      reads Footprint()
      ensures Busy() == Chat.Busy(State())
    {
      setup.Pending() || session.send.pending.Some?
    }

    method ReportRecovery() returns (told: Told)
      requires Valid()
      ensures told == Report(State())
    {
      var record := setup.Recovery();
      if record.Some? { return RecordOf(record.value); }
      if session.send.pending.None? || session.send.pending.value.key == "" { return Nothing; }
      told := DraftKey(session.send.pending.value.key, session.id);
    }

    method Clear() returns (ended: Ended, ghost events: seq<Event>)
      requires Valid()
      modifies Footprint()
      ensures Acted(State(), ended, events) == Act(old(State()), Command.Clear)
    {
      seen := None;
      session.Clear();
      setup.Clear();
      ended, events := Completed, [Invalidated];
    }

    method FollowMessage(followed: Followed)
      requires Valid()
      modifies this, session, session.send
      ensures State() == Follow(old(State()), followed)
    {
      match followed
      case Followed(draft, completed) =>
        session.id, session.draft := Some(draft.id), Some(draft);
        partial := !completed;
      case FollowFailed(outcome) => session.Guarded(outcome);
    }

    method Message(text: string, uuid: string, written: Answer<Draft>, followed: Followed) returns (ended: Ended, ghost events: seq<Event>)
      requires Valid()
      modifies Footprint()
      ensures Acted(State(), ended, events) == Act(old(State()), Command.Message(text, uuid, written, followed))
    {
      if Busy() { return Refused, []; }
      seen := None;
      operation := OpSend;
      var result, sent := session.Send(text, uuid, written);
      if result.Done? { FollowMessage(followed); }
      ended, events := EndOfFollowing(result, followed), [Invalidated] + Writes(sent, false);
    }

    method Create(uuid: string, written: Answer<Draft>) returns (ended: Ended, ghost events: seq<Event>)
      requires Valid()
      modifies Footprint()
      ensures Acted(State(), ended, events) == Act(old(State()), Command.Create(uuid, written))
    {
      if Busy() { return Refused, []; }
      seen := None;
      operation := OpCreate;
      var result, sent := session.Create(uuid, written);
      ended, events := EndOf(result), [Invalidated] + Writes(sent, false);
    }

    method ReviewSetup(name: Option<string>, read: Answer<Draft>, patched: Answer<Draft>, reread: Answer<Draft>, fleet: Answer<Fleet>)
      returns (ended: Ended, ghost events: seq<Event>)
      requires Valid()
      modifies Footprint()
      ensures Acted(State(), ended, events) == Act(old(State()), Command.ReviewSetup(name, read, patched, reread, fleet))
    {
      events := [];
      if Busy() { return Refused, []; }
      if name.Some? {
        var renamed := session.Patch(read, patched);
        if !renamed.Done? { return EndOf(renamed), []; }
      }
      var result := session.Refresh(reread);
      if !result.Done? { return EndOf(result), []; }
      if result.value.review.None? { return Refused, []; }
      ended, events := Show(result.value, result.value.review.value, fleet);
    }

    method Show(draft: Draft, review: Review, fleet: Answer<Fleet>) returns (ended: Ended, ghost events: seq<Event>)
      requires Valid()
      modifies this`seen
      ensures Acted(State(), ended, events) == ShowReview(old(State()), draft, review, fleet)
    {
      events, ended := [], Completed;
      if NonEmpty(draft.linkedFleet) && NonEmpty(review.targetRevision) {
        if fleet.Error? { return Broke, []; }
        if fleet.value.setupRevision != review.targetRevision.value { return Refused, []; }
        seen := Some(Seen(draft, review, Some(fleet.value.setupTag)));
        events := [Displayed(seen.value, Some(fleet.value))];
      } else {
        seen := Some(Seen(draft, review, None));
        events := [Displayed(seen.value, None)];
      }
    }

    method Save(start: StartMode, uuid: string, saved: Answer<Fleet>) returns (ended: Ended, ghost events: seq<Event>)
      requires Valid()
      modifies Footprint()
      ensures Acted(State(), ended, events) == Act(old(State()), Command.Save(start, uuid, saved))
    {
      if Busy() || seen.None? { return Refused, []; }
      operation := OpSave;
      var result, sent := setup.Save(seen.value.draft, seen.value.review, start, uuid, saved);
      if result.Done? { partial := IsPartial(result.value); }
      ended, events := EndOf(result), Writes(sent, false);
    }

    method Publish(title: string, target: Option<Target>, uuid: string, published: Answer<string>) returns (ended: Ended, ghost events: seq<Event>)
      requires Valid()
      modifies Footprint()
      ensures Acted(State(), ended, events) == Act(old(State()), Command.Publish(title, target, uuid, published))
    {
      if Busy() || seen.None? { return Refused, []; }
      operation := OpPublish;
      var result, sent := setup.Publish(seen.value.draft, title, target, uuid, published);
      ended, events := EndOf(result), Writes(sent, false);
    }

    method Apply(uuid: string, applied: Answer<seq<string>>) returns (ended: Ended, ghost events: seq<Event>)
      requires Valid()
      modifies Footprint()
      ensures Acted(State(), ended, events) == Act(old(State()), Command.Apply(uuid, applied))
    {
      if Busy() || seen.None? || !NonEmpty(seen.value.setupTag) { return Refused, []; }
      operation := OpApply;
      var result, sent := setup.Apply(seen.value.draft, seen.value.review, seen.value.setupTag.value, uuid, applied);
      ended, events := EndOf(result), Writes(sent, false);
      if result.Done? {
        partial := SchedulesOwed(result.value);
        seen := None;
        events := events + [Invalidated];
      }
    }

    method RetryDraftWrite(written: Answer<Draft>, followed: Followed) returns (ended: Ended, ghost events: seq<Event>)
      requires Valid() && (operation.OpSend? || operation.OpCreate?)
      modifies this, session, session.send
      ensures Acted(State(), ended, events) == DoRetry(old(State()), written, followed, Error(NoAnswer), Error(NoAnswer), Error(NoAnswer))
    {
      var result, sent := session.Retry(written);
      if result.Done? && operation == OpSend { FollowMessage(followed); }
      ended, events := if operation == OpSend then EndOfFollowing(result, followed) else EndOf(result), Writes(sent, true);
    }

    method RetrySave(saved: Answer<Fleet>) returns (ended: Ended, ghost events: seq<Event>)
      requires Valid() && operation.OpSave?
      modifies this, setup, setup.save
      ensures Acted(State(), ended, events) == DoRetry(old(State()), Error(NoAnswer), FollowFailed(NoAnswer), saved, Error(NoAnswer), Error(NoAnswer))
    {
      var result, sent := setup.Progress(saved);
      if result.Done? { partial := IsPartial(result.value); }
      ended, events := EndOf(result), Writes(sent, true);
    }

    method RetryPublish(published: Answer<string>) returns (ended: Ended, ghost events: seq<Event>)
      requires Valid() && operation.OpPublish?
      modifies this, setup.publish
      ensures Acted(State(), ended, events) == DoRetry(old(State()), Error(NoAnswer), FollowFailed(NoAnswer), Error(NoAnswer), published, Error(NoAnswer))
    {
      var result, sent := setup.RetryPublication(published);
      ended, events := EndOf(result), Writes(sent, true);
    }

    method RetryApply(applied: Answer<seq<string>>) returns (ended: Ended, ghost events: seq<Event>)
      requires Valid() && operation.OpApply?
      modifies this, setup.apply
      ensures Acted(State(), ended, events) == DoRetry(old(State()), Error(NoAnswer), FollowFailed(NoAnswer), Error(NoAnswer), Error(NoAnswer), applied)
    {
      var result, sent := setup.RetryApplication(applied);
      ended, events := EndOf(result), Writes(sent, true);
      if result.Done? {
        partial := SchedulesOwed(result.value);
        seen := None;
        events := events + [Invalidated];
      }
    }

    method Retry(written: Answer<Draft>, followed: Followed, saved: Answer<Fleet>, published: Answer<string>, applied: Answer<seq<string>>)
      returns (ended: Ended, ghost events: seq<Event>)
      requires Valid()
      modifies Footprint()
      ensures Acted(State(), ended, events) == Act(old(State()), Command.Retry(written, followed, saved, published, applied))
    {
      RetryReadsItsAnswer(State(), written, followed, saved, published, applied);
      hide DoRetry;
      match operation
      case OpSend => ended, events := RetryDraftWrite(written, followed);
      case OpCreate => ended, events := RetryDraftWrite(written, followed);
      case OpSave => ended, events := RetrySave(saved);
      case OpPublish => ended, events := RetryPublish(published);
      case OpApply => ended, events := RetryApply(applied);
    }

    method Model(read: Answer<Draft>, patched: Answer<Draft>) returns (ended: Ended, ghost events: seq<Event>)
      requires Valid()
      modifies Footprint()
      ensures Acted(State(), ended, events) == Act(old(State()), Command.Model(read, patched))
    {
      if Busy() { return Refused, []; }
      var result := session.Patch(read, patched);
      if result.Done? {
        seen := None;
        return Completed, [Invalidated];
      }
      ended, events := EndOf(result), [];
    }

    method Stop(touched: Answer<()>) returns (ended: Ended, ghost events: seq<Event>)
      requires Valid()
      modifies Footprint()
      ensures Acted(State(), ended, events) == Act(old(State()), Command.Stop(touched))
    {
      var result := session.Touch(touched);
      ended, events := EndOf(result), [];
    }

    method History(touched: Answer<()>) returns (ended: Ended, ghost events: seq<Event>)
      requires Valid()
      modifies Footprint()
      ensures Acted(State(), ended, events) == Act(old(State()), Command.History(touched))
    {
      var result := session.Touch(touched);
      ended, events := EndOf(result), [];
    }

    method Remove(touched: Answer<()>) returns (ended: Ended, ghost events: seq<Event>)
      requires Valid()
      modifies Footprint()
      ensures Acted(State(), ended, events) == Act(old(State()), Command.Remove(touched))
    {
      var result := session.Touch(touched);
      if result.Done? {
        ended, events := Clear();
      } else {
        ended, events := EndOf(result), [];
      }
    }
  }

  /** A retry reads only the answer of the operation it sends again. */
  lemma RetryReadsItsAnswer(c: State, written: Answer<Draft>, followed: Followed, saved: Answer<Fleet>, published: Answer<string>,
                            applied: Answer<seq<string>>)
    ensures var all := DoRetry(c, written, followed, saved, published, applied);
      var none, ended := NoAnswer, FollowFailed(NoAnswer);
      match c.operation
      case OpSend => all == DoRetry(c, written, followed, Error(none), Error(none), Error(none))
      case OpCreate => all == DoRetry(c, written, followed, Error(none), Error(none), Error(none))
      case OpSave => all == DoRetry(c, Error(none), ended, saved, Error(none), Error(none))
      case OpPublish => all == DoRetry(c, Error(none), ended, Error(none), published, Error(none))
      case OpApply => all == DoRetry(c, Error(none), ended, Error(none), Error(none), applied)
  {
  }

  /** Only the request built for the key that is used matters to a run. */
  lemma SameRun(s: OpSlot, identity: Identity, uuid: string, f: string -> Request, g: string -> Request)
    requires f(NextKey(s, uuid)) == g(NextKey(s, uuid))
    ensures RunOp(s, identity, uuid, f) == RunOp(s, identity, uuid, g)
  {
  }
}
