/**
  The chat client as a sequential machine: the draft session, the setup session and the
  actions that drive both. Every action settles before the next one starts, and the answer
  of each call is a parameter. The functions here specify the classes of `ChatClient`.
 */
module Chat {
  import opened Options
  import opened RetainedRequests

  // ---------------------------------------------------------------- wire values

  datatype StartMode = NoStart | RunNow(message: string)
  datatype Target = Target(id: string, etag: string)
  datatype Source = Source(kind: string, detail: string)

  datatype Path = Drafts | DraftMessages(draft: string) | Fleets | FleetRevisions(fleet: string) | Libraries | LibraryRevisions(library: string)

  datatype Body =
    | MessageBody(message: string, operationId: string)
    | DraftBody(source: Source, model: string, first: Option<string>, operationId: string)
    | SaveBody(candidate: string, name: string, digest: string, start: StartMode)
    | PublishBody(candidate: string, title: Option<string>)
    | ApplyBody(candidate: string, digest: string)

  /** One keyed write as it goes on the wire. */
  datatype Request = Request(path: Path, body: Body, idempotencyKey: Option<string>, ifMatch: Option<string>)

  /** What two calls must share to be the same operation. */
  datatype Identity =
    | MessageId(message: string)
    | SourceId(kind: string)
    | SaveId(body: Body)
    | PublishId(path: Path, body: Body, target: Option<Target>)
    | ApplyId(path: Path, body: Body, tag: string)

  type Op = Pending<Identity, Request>
  type OpSlot = Slot<Identity, Request>

  datatype Review = Review(instanceName: string, targetRevision: Option<string>, digest: string)
  datatype Draft = Draft(id: string, candidate: Option<string>, review: Option<Review>, linkedFleet: Option<string>)
  datatype Fleet = Fleet(id: string, status: string, startState: string, setupTag: string, setupRevision: string, schedules: seq<string>)

  /** The answer to one call: a decoded value, or the failure the client saw. */
  datatype Answer<+T> = Ok(value: T) | Error(outcome: Outcome)

  /** The end of one action. `Invalid` is a refusal made before any call. */
  datatype Result<+T> = Done(value: T) | Invalid | Failed(outcome: Outcome)

  function OutcomeOf<T>(answer: Answer<T>): Outcome {
    if answer.Ok? then Success else if answer.outcome == Success then NoAnswer else answer.outcome
  }

  predicate NonEmpty(s: Option<string>) { s.Some? && s.value != "" }

  predicate SchedulesOwed(schedules: seq<string>) {
    exists i :: 0 <= i < |schedules| && schedules[i] != "synced"
  }

  predicate IsPartial(f: Fleet) {
    f.status != "active" || f.startState == "pending" || f.startState == "blocked" || SchedulesOwed(f.schedules)
  }

  /** One execution of a launched operation, from its start to its final hook. */
  function Finish(slot: OpSlot, op: Op, outcome: Outcome): OpSlot {
    Released(Settled(slot, op, outcome), op)
  }

  // ---------------------------------------------------------------- setup session

  datatype Recovery =
    | SaveRecovery(key: string, candidate: string, name: string, digest: string, runs: bool)
    | PublishRecovery(key: string, candidate: string, title: string, target: Option<Target>)
    | ApplyRecovery(key: string, candidate: string, fleet: string, digest: string, tag: string)

  datatype Action = SaveAction | PublishAction | ApplyAction
  datatype RecoveryKey = RecoveryKey(action: Action, key: string)

  datatype Setup = Setup(
    save: OpSlot, publish: OpSlot, apply: OpSlot,
    recovery: Option<Recovery>, continueSave: Option<Request>, fleet: Option<Fleet>)

  function KeyFor(recovery: Option<RecoveryKey>, action: Action): Option<string> {
    if recovery.Some? && recovery.value.action == action then Some(recovery.value.key) else None
  }

  function NewSetup(recovery: Option<RecoveryKey>): Setup {
    Setup(NewSlot(KeyFor(recovery, SaveAction)), NewSlot(KeyFor(recovery, PublishAction)), NewSlot(KeyFor(recovery, ApplyAction)),
          None, None, None)
  }

  predicate SetupPending(s: Setup) { s.save.pending.Some? || s.publish.pending.Some? || s.apply.pending.Some? }

  /** The recovery metadata the client would print. */
  function RecoveryOf(s: Setup): Option<Recovery> {
    if SetupPending(s) || (s.fleet.Some? && IsPartial(s.fleet.value)) then s.recovery else None
  }

  function ClearSetup(s: Setup): Setup {
    Setup(Cleared(s.save), Cleared(s.publish), Cleared(s.apply), None, None, None)
  }

  function SaveRequest(candidate: string, name: string, digest: string, start: StartMode, key: string): Request {
    Request(Fleets, SaveBody(candidate, name, digest, start), Some(key), None)
  }

  /** A setup action: the new state, how it ended, and the writes it sent. */
  datatype SetupStep<+T> = SetupStep(setup: Setup, result: Result<T>, sent: seq<Request>)

  function SaveCandidate(s: Setup, candidate: string, name: string, digest: string, start: StartMode, uuid: string,
                         answer: Answer<Fleet>): SetupStep<Fleet> {
    if s.publish.pending.Some? || s.apply.pending.Some? then SetupStep(s, Invalid, [])
    else
      var (slot, launch) := RunOp(s.save, SaveId(SaveBody(candidate, name, digest, start)), uuid,
                                  (key: string) => SaveRequest(candidate, name, digest, start, key));
      var s1 := if s.save.pending.Some? then s else
        var key := NextKey(s.save, uuid);
        s.(recovery := Some(SaveRecovery(key, candidate, name, digest, start.RunNow?)),
           continueSave := Some(SaveRequest(candidate, name, digest, start, key)));
      match launch
      case Launched(op) =>
        var done := s1.(save := Finish(slot, op, OutcomeOf(answer)));
        if answer.Ok? then SetupStep(done.(fleet := Some(answer.value)), Done(answer.value), [op.request])
        else SetupStep(if done.save.pending.None? then done.(recovery := None) else done, Failed(OutcomeOf(answer)), [op.request])
      case _ => SetupStep(s1.(save := slot), Invalid, [])
  }

  function SaveDraft(s: Setup, draft: Draft, review: Review, start: StartMode, uuid: string, answer: Answer<Fleet>): SetupStep<Fleet> {
    if s.publish.pending.Some? || s.apply.pending.Some? || draft.candidate.None? then SetupStep(s, Invalid, [])
    else SaveCandidate(s, draft.candidate.value, review.instanceName, review.digest, start, uuid, answer)
  }

  /** What retrying a Save does: re-send it, replay the last one, or read the fleet. */
  function Progress(s: Setup, answer: Answer<Fleet>): SetupStep<Fleet> {
    var (slot, launch) := RetryOp(s.save);
    if s.save.pending.Some? && !launch.Launched? then SetupStep(s, Invalid, [])
    else if s.save.pending.None? && s.continueSave.None? && s.fleet.None? then SetupStep(s, Invalid, [])
    else
      var sent := if launch.Launched? then [launch.op.request] else if s.continueSave.Some? then [s.continueSave.value] else [];
      var s1 := if launch.Launched? then s.(save := Finish(slot, launch.op, OutcomeOf(answer))) else s;
      if answer.Ok? then SetupStep(s1.(fleet := Some(answer.value)), Done(answer.value), sent)
      else SetupStep(s1, Failed(OutcomeOf(answer)), sent)
  }

  function PublishPath(target: Option<Target>): Path {
    if target.Some? then LibraryRevisions(target.value.id) else Libraries
  }

  function PublishBodyOf(candidate: string, title: string, target: Option<Target>): Body {
    PublishBody(candidate, if target.Some? then None else Some(title))
  }

  function PublishRequest(candidate: string, title: string, target: Option<Target>, key: string): Request {
    Request(PublishPath(target), PublishBodyOf(candidate, title, target), Some(key),
            if target.Some? then Some(target.value.etag) else None)
  }

  function PublishCandidate(s: Setup, candidate: string, title: string, target: Option<Target>, uuid: string,
                            answer: Answer<string>): SetupStep<string> {
    if s.save.pending.Some? || s.apply.pending.Some? then SetupStep(s, Invalid, [])
    else
      var (slot, launch) := RunOp(s.publish, PublishId(PublishPath(target), PublishBodyOf(candidate, title, target), target), uuid,
                                  (key: string) => PublishRequest(candidate, title, target, key));
      var s1 := if s.publish.pending.Some? then s else
        s.(recovery := Some(PublishRecovery(NextKey(s.publish, uuid), candidate, title, target)));
      match launch
      case Launched(op) =>
        var done := s1.(publish := Finish(slot, op, OutcomeOf(answer)));
        SetupStep(if done.publish.pending.None? then done.(recovery := None) else done,
                  if answer.Ok? then Done(answer.value) else Failed(OutcomeOf(answer)), [op.request])
      case _ => SetupStep(s1.(publish := slot), Invalid, [])
  }

  function PublishDraft(s: Setup, draft: Draft, title: string, target: Option<Target>, uuid: string, answer: Answer<string>): SetupStep<string> {
    if s.save.pending.Some? || s.apply.pending.Some? || draft.candidate.None? then SetupStep(s, Invalid, [])
    else PublishCandidate(s, draft.candidate.value, title, target, uuid, answer)
  }

  function ApplyRequest(candidate: string, fleet: string, digest: string, tag: string, key: string): Request {
    Request(FleetRevisions(fleet), ApplyBody(candidate, digest), Some(key), Some(tag))
  }

  function ApplyCandidate(s: Setup, candidate: string, fleet: string, digest: string, tag: string, uuid: string,
                          answer: Answer<seq<string>>): SetupStep<seq<string>> {
    if s.save.pending.Some? || s.publish.pending.Some? then SetupStep(s, Invalid, [])
    else
      var (slot, launch) := RunOp(s.apply, ApplyId(FleetRevisions(fleet), ApplyBody(candidate, digest), tag), uuid,
                                  (key: string) => ApplyRequest(candidate, fleet, digest, tag, key));
      var s1 := if s.apply.pending.Some? then s else
        s.(recovery := Some(ApplyRecovery(NextKey(s.apply, uuid), candidate, fleet, digest, tag)));
      match launch
      case Launched(op) =>
        var done := s1.(apply := Finish(slot, op, OutcomeOf(answer)));
        SetupStep(if done.apply.pending.None? then done.(recovery := None) else done,
                  if answer.Ok? then Done(answer.value) else Failed(OutcomeOf(answer)), [op.request])
      case _ => SetupStep(s1.(apply := slot), Invalid, [])
  }

  function ApplyDraft(s: Setup, draft: Draft, review: Review, tag: string, uuid: string, answer: Answer<seq<string>>): SetupStep<seq<string>> {
    if s.save.pending.Some? || s.publish.pending.Some? || draft.candidate.None? || !NonEmpty(draft.linkedFleet) then SetupStep(s, Invalid, [])
    else ApplyCandidate(s, draft.candidate.value, draft.linkedFleet.value, review.digest, tag, uuid, answer)
  }

  function RetryPublish(s: Setup, answer: Answer<string>): SetupStep<string> {
    var (slot, launch) := RetryOp(s.publish);
    if !launch.Launched? then SetupStep(s, Invalid, [])
    else SetupStep(s.(publish := Finish(slot, launch.op, OutcomeOf(answer))),
                   if answer.Ok? then Done(answer.value) else Failed(OutcomeOf(answer)), [launch.op.request])
  }

  function RetryApply(s: Setup, answer: Answer<seq<string>>): SetupStep<seq<string>> {
    var (slot, launch) := RetryOp(s.apply);
    if !launch.Launched? then SetupStep(s, Invalid, [])
    else SetupStep(s.(apply := Finish(slot, launch.op, OutcomeOf(answer))),
                   if answer.Ok? then Done(answer.value) else Failed(OutcomeOf(answer)), [launch.op.request])
  }

  // ---------------------------------------------------------------- draft session

  datatype Session = Session(source: Source, model: string, send: OpSlot, id: Option<string>, draft: Option<Draft>)
  datatype SessionStep<+T> = SessionStep(session: Session, result: Result<T>, sent: seq<Request>)

  function NewSession(source: Source, model: string, id: Option<string>, operationId: Option<string>): Session {
    Session(source, model, NewSlot(operationId), id, None)
  }

  function ClearSession(s: Session): Session {
    s.(send := Cleared(s.send), id := None, draft := None)
  }

  predicate AccessLost(o: Outcome) { o.ServerStatus? && o.status in {401, 403, 404, 410} }

  function Guard(s: Session, o: Outcome): Session {
    if AccessLost(o) then ClearSession(s) else s
  }

  function Remember(s: Session, draft: Draft): Session {
    s.(id := Some(draft.id), draft := Some(draft))
  }

  function SendRequest(s: Session, message: string, key: string): Request {
    if NonEmpty(s.id) then Request(DraftMessages(s.id.value), MessageBody(message, key), None, None)
    else Request(Drafts, DraftBody(s.source, s.model, Some(message), key), None, None)
  }

  function CreateRequest(s: Session, key: string): Request {
    Request(Drafts, DraftBody(s.source, s.model, None, key), None, None)
  }

  /** A launched draft write: a created draft is remembered, a lost access forgets everything. */
  function FinishWrite(s: Session, launch: Start<Identity, Request>, answer: Answer<Draft>): SessionStep<Draft> {
    match launch
    case Launched(op) =>
      var s1 := if answer.Ok? && op.request.path == Drafts then Remember(s, answer.value) else s;
      var s2 := s1.(send := Finish(s1.send, op, OutcomeOf(answer)));
      if answer.Ok? then SessionStep(s2, Done(answer.value), [op.request])
      else SessionStep(Guard(s2, OutcomeOf(answer)), Failed(OutcomeOf(answer)), [op.request])
    case _ => SessionStep(s, Invalid, [])
  }

  function SendMessage(s: Session, message: string, uuid: string, answer: Answer<Draft>): SessionStep<Draft> {
    var (slot, launch) := RunOp(s.send, MessageId(message), uuid, (key: string) => SendRequest(s, message, key));
    FinishWrite(s.(send := slot), launch, answer)
  }

  function CreateDraft(s: Session, uuid: string, answer: Answer<Draft>): SessionStep<Draft> {
    var (slot, launch) := RunOp(s.send, SourceId(s.source.kind), uuid, (key: string) => CreateRequest(s, key));
    FinishWrite(s.(send := slot), launch, answer)
  }

  function RetrySend(s: Session, answer: Answer<Draft>): SessionStep<Draft> {
    var (slot, launch) := RetryOp(s.send);
    FinishWrite(s.(send := slot), launch, answer)
  }

  /** Any read or unkeyed write: refused without a draft, and a lost access forgets everything. */
  function Refresh(s: Session, answer: Answer<Draft>): SessionStep<Draft> {
    if !NonEmpty(s.id) then SessionStep(s, Invalid, [])
    else if answer.Ok? then SessionStep(Remember(s, answer.value), Done(answer.value), [])
    else SessionStep(Guard(s, OutcomeOf(answer)), Failed(OutcomeOf(answer)), [])
  }

  function Patch(s: Session, read: Answer<Draft>, patched: Answer<Draft>): SessionStep<Draft> {
    var before := Refresh(s, read);
    if !before.result.Done? then before
    else if patched.Ok? then SessionStep(Remember(before.session, patched.value), Done(patched.value), [])
    else SessionStep(Guard(before.session, OutcomeOf(patched)), Failed(OutcomeOf(patched)), [])
  }

  /** A read of messages, a cancellation, or anything else that only learns whether access remains. */
  function Touch(s: Session, answer: Answer<()>): SessionStep<()> {
    if !NonEmpty(s.id) then SessionStep(s, Invalid, [])
    else if answer.Ok? then SessionStep(s, Done(()), [])
    else SessionStep(Guard(s, OutcomeOf(answer)), Failed(OutcomeOf(answer)), [])
  }

  // ---------------------------------------------------------------- the actions

  datatype Seen = Seen(draft: Draft, review: Review, setupTag: Option<string>)
  datatype Operation = OpSend | OpCreate | OpSave | OpPublish | OpApply
  datatype State = State(session: Session, setup: Setup, seen: Option<Seen>, operation: Operation, partial: bool)

  /** How following a message ended: its final state and the draft read back, or a failure. */
  datatype Followed = Followed(draft: Draft, completed: bool) | FollowFailed(outcome: Outcome)

  /** One user action together with the answers its calls received. */
  datatype Command =
    | Message(text: string, uuid: string, written: Answer<Draft>, followed: Followed)
    | Create(uuid: string, written: Answer<Draft>)
    | ReviewSetup(name: Option<string>, read: Answer<Draft>, patched: Answer<Draft>, reread: Answer<Draft>, fleet: Answer<Fleet>)
    | Save(start: StartMode, uuid: string, saved: Answer<Fleet>)
    | Publish(title: string, target: Option<Target>, uuid: string, published: Answer<string>)
    | Apply(uuid: string, applied: Answer<seq<string>>)
    | Model(read: Answer<Draft>, patched: Answer<Draft>)
    | Retry(written: Answer<Draft>, followed: Followed, saved: Answer<Fleet>, published: Answer<string>, applied: Answer<seq<string>>)
    | Stop(touched: Answer<()>)
    | History(touched: Answer<()>)
    | Remove(touched: Answer<()>)
    | Clear

  /**
    What an action did, in order. `Displayed` is a review shown to the user with the fleet read
    for its tag, `Invalidated` forgets it, `Wrote` is a keyed write and says whether the
    operation is new or sent again.
   */
  datatype Event = Displayed(seen: Seen, fleet: Option<Fleet>) | Invalidated | Wrote(request: Request, again: bool)

  datatype Ended = Completed | Refused | Broke
  datatype Acted = Acted(state: State, ended: Ended, events: seq<Event>)

  function NewState(session: Session, setup: Setup): State {
    State(session, setup, None, OpSend, false)
  }

  predicate Busy(c: State) { SetupPending(c.setup) || c.session.send.pending.Some? }

  /** What the client tells the user about an uncertain outcome: a setup record before a draft write's key. */
  datatype Told = Nothing | RecordOf(record: Recovery) | DraftKey(key: string, draft: Option<string>)

  function Report(c: State): Told {
    if RecoveryOf(c.setup).Some? then RecordOf(RecoveryOf(c.setup).value)
    else if c.session.send.pending.Some? && c.session.send.pending.value.key != "" then DraftKey(c.session.send.pending.value.key, c.session.id)
    else Nothing
  }

  function Writes(sent: seq<Request>, again: bool): seq<Event> {
    seq(|sent|, i requires 0 <= i < |sent| => Wrote(sent[i], again))
  }

  function EndOf<T>(result: Result<T>): Ended {
    match result case Done(_) => Completed case Invalid => Refused case Failed(_) => Broke
  }

  /** A message that was accepted ends as the following of it does. */
  function EndOfFollowing<T>(result: Result<T>, followed: Followed): Ended {
    if result.Done? && followed.FollowFailed? then Broke else EndOf(result)
  }

  function Forget(c: State): State {
    c.(seen := None, session := ClearSession(c.session), setup := ClearSetup(c.setup))
  }

  function Follow(c: State, followed: Followed): State {
    match followed
    case Followed(draft, completed) => c.(session := Remember(c.session, draft), partial := !completed)
    case FollowFailed(o) => c.(session := Guard(c.session, o))
  }

  function DoMessage(c: State, text: string, uuid: string, written: Answer<Draft>, followed: Followed): Acted {
    var step := SendMessage(c.session, text, uuid, written);
    var c1 := c.(seen := None, operation := OpSend, session := step.session);
    Acted(if step.result.Done? then Follow(c1, followed) else c1, EndOfFollowing(step.result, followed), [Invalidated] + Writes(step.sent, false))
  }

  function DoCreate(c: State, uuid: string, written: Answer<Draft>): Acted {
    var step := CreateDraft(c.session, uuid, written);
    Acted(c.(seen := None, operation := OpCreate, session := step.session), EndOf(step.result), [Invalidated] + Writes(step.sent, false))
  }

  /** Shows a review; for a linked fleet with a reviewed target, only beside a fleet that is at that target. */
  function ShowReview(c: State, draft: Draft, review: Review, fleet: Answer<Fleet>): Acted {
    if NonEmpty(draft.linkedFleet) && NonEmpty(review.targetRevision) then
      match fleet
      case Error(_) => Acted(c, Broke, [])
      case Ok(f) =>
        if f.setupRevision != review.targetRevision.value then Acted(c, Refused, [])
        else
          var seen := Seen(draft, review, Some(f.setupTag));
          Acted(c.(seen := Some(seen)), Completed, [Displayed(seen, Some(f))])
    else
      var seen := Seen(draft, review, None);
      Acted(c.(seen := Some(seen)), Completed, [Displayed(seen, None)])
  }

  function DoReview(c: State, name: Option<string>, read: Answer<Draft>, patched: Answer<Draft>, reread: Answer<Draft>, fleet: Answer<Fleet>): Acted {
    var renamed := if name.Some? then Patch(c.session, read, patched) else SessionStep(c.session, Done(Draft("", None, None, None)), []);
    if !renamed.result.Done? then Acted(c.(session := renamed.session), EndOf(renamed.result), [])
    else
      var step := Refresh(renamed.session, reread);
      var c1 := c.(session := step.session);
      if !step.result.Done? then Acted(c1, EndOf(step.result), [])
      else if step.result.value.review.None? then Acted(c1, Refused, [])
      else ShowReview(c1, step.result.value, step.result.value.review.value, fleet)
  }

  function DoSave(c: State, start: StartMode, uuid: string, saved: Answer<Fleet>): Acted {
    if c.seen.None? then Acted(c, Refused, [])
    else
      var step := SaveDraft(c.setup, c.seen.value.draft, c.seen.value.review, start, uuid, saved);
      var c1 := c.(operation := OpSave, setup := step.setup);
      Acted(if step.result.Done? then c1.(partial := IsPartial(step.result.value)) else c1, EndOf(step.result), Writes(step.sent, false))
  }

  function DoPublish(c: State, title: string, target: Option<Target>, uuid: string, published: Answer<string>): Acted {
    if c.seen.None? then Acted(c, Refused, [])
    else
      var step := PublishDraft(c.setup, c.seen.value.draft, title, target, uuid, published);
      Acted(c.(operation := OpPublish, setup := step.setup), EndOf(step.result), Writes(step.sent, false))
  }

  function DoApply(c: State, uuid: string, applied: Answer<seq<string>>): Acted {
    if c.seen.None? || !NonEmpty(c.seen.value.setupTag) then Acted(c, Refused, [])
    else
      var step := ApplyDraft(c.setup, c.seen.value.draft, c.seen.value.review, c.seen.value.setupTag.value, uuid, applied);
      var c1 := c.(operation := OpApply, setup := step.setup);
      if step.result.Done? then
        Acted(c1.(partial := SchedulesOwed(step.result.value), seen := None), Completed, Writes(step.sent, false) + [Invalidated])
      else Acted(c1, EndOf(step.result), Writes(step.sent, false))
  }

  function DoRetry(c: State, written: Answer<Draft>, followed: Followed, saved: Answer<Fleet>, published: Answer<string>,
                   applied: Answer<seq<string>>): Acted {
    match c.operation
    case OpSend =>
      var step := RetrySend(c.session, written);
      var c1 := c.(session := step.session);
      Acted(if step.result.Done? then Follow(c1, followed) else c1, EndOfFollowing(step.result, followed), Writes(step.sent, true))
    case OpCreate =>
      var step := RetrySend(c.session, written);
      Acted(c.(session := step.session), EndOf(step.result), Writes(step.sent, true))
    case OpSave =>
      var step := Progress(c.setup, saved);
      var c1 := c.(setup := step.setup);
      Acted(if step.result.Done? then c1.(partial := IsPartial(step.result.value)) else c1, EndOf(step.result), Writes(step.sent, true))
    case OpPublish =>
      var step := RetryPublish(c.setup, published);
      Acted(c.(setup := step.setup), EndOf(step.result), Writes(step.sent, true))
    case OpApply =>
      var step := RetryApply(c.setup, applied);
      var c1 := c.(setup := step.setup);
      if step.result.Done? then
        Acted(c1.(partial := SchedulesOwed(step.result.value), seen := None), Completed, Writes(step.sent, true) + [Invalidated])
      else Acted(c1, EndOf(step.result), Writes(step.sent, true))
  }

  function DoModel(c: State, read: Answer<Draft>, patched: Answer<Draft>): Acted {
    var step := Patch(c.session, read, patched);
    var c1 := c.(session := step.session);
    if step.result.Done? then Acted(c1.(seen := None), Completed, [Invalidated]) else Acted(c1, EndOf(step.result), [])
  }

  /** The actions that would start something new, which an unresolved operation forbids. */
  predicate StartsWork(command: Command) {
    command.Message? || command.Create? || command.ReviewSetup? || command.Save? || command.Publish? || command.Apply? || command.Model?
  }

  function Act(c: State, command: Command): Acted {
    if StartsWork(command) && Busy(c) then Acted(c, Refused, [])
    else match command
      case Message(text, uuid, written, followed) => DoMessage(c, text, uuid, written, followed)
      case Create(uuid, written) => DoCreate(c, uuid, written)
      case ReviewSetup(name, read, patched, reread, fleet) => DoReview(c, name, read, patched, reread, fleet)
      case Save(start, uuid, saved) => DoSave(c, start, uuid, saved)
      case Publish(title, target, uuid, published) => DoPublish(c, title, target, uuid, published)
      case Apply(uuid, applied) => DoApply(c, uuid, applied)
      case Model(read, patched) => DoModel(c, read, patched)
      case Retry(written, followed, saved, published, applied) => DoRetry(c, written, followed, saved, published, applied)
      case Stop(touched) =>
        var step := Touch(c.session, touched);
        Acted(c.(session := step.session), EndOf(step.result), [])
      case History(touched) =>
        var step := Touch(c.session, touched);
        Acted(c.(session := step.session), EndOf(step.result), [])
      case Remove(touched) =>
        var step := Touch(c.session, touched);
        if step.result.Done? then Acted(Forget(c), Completed, [Invalidated])
        else Acted(c.(session := step.session), EndOf(step.result), [])
      case Clear => Acted(Forget(c), Completed, [Invalidated])
  }

  /** The state and the events after a whole run of actions. */
  function RunAll(c: State, commands: seq<Command>): (State, seq<Event>)
    decreases |commands|
  {
    if commands == [] then (c, [])
    else
      var (before, events) := RunAll(c, commands[..|commands| - 1]);
      var acted := Act(before, commands[|commands| - 1]);
      (acted.state, events + acted.events)
  }
}
