/** Exactly what every chat action writes, and how long a draft is remembered. */
module ChatWrites {
  import opened Options
  import opened RetainedRequests
  import opened Chat
  import opened ChatProofs

  // ---------------------------------------------------------------- what an action writes

  function KeyFrom(slot: OpSlot, uuid: string): string {
    if slot.initialKey.Some? then slot.initialKey.value else uuid
  }

  /** The action gets to a write: nothing is unresolved, and a setup action has what it needs of the review shown. */
  ghost predicate MayWrite(c: State, command: Command) {
    && Unresolved(c).None?
    && (command.Message? || command.Create? || command.Save? || command.Publish? || command.Apply?)
    && (command.Save? || command.Publish? || command.Apply? ==> c.seen.Some? && c.seen.value.draft.candidate.Some?)
    && (command.Apply? ==>
         && c.seen.value.draft.linkedFleet.Some? && c.seen.value.draft.linkedFleet.value != ""
         && c.seen.value.setupTag.Some? && c.seen.value.setupTag.value != "")
  }

  /** That write, part by part. */
  ghost function WriteOf(c: State, command: Command): Request
    requires MayWrite(c, command)
  {
    match command
    case Message(text, uuid, _, _) =>
      if c.session.id.Some? && c.session.id.value != "" then
        Request(DraftMessages(c.session.id.value), MessageBody(text, KeyFrom(c.session.send, uuid)), None, None)
      else Request(Drafts, DraftBody(c.session.source, c.session.model, Some(text), KeyFrom(c.session.send, uuid)), None, None)
    case Create(uuid, _) =>
      Request(Drafts, DraftBody(c.session.source, c.session.model, None, KeyFrom(c.session.send, uuid)), None, None)
    case Save(start, uuid, _) =>
      var seen := c.seen.value;
      Request(Fleets, SaveBody(seen.draft.candidate.value, seen.review.instanceName, seen.review.digest, start),
              Some(KeyFrom(c.setup.save, uuid)), None)
    case Publish(title, target, uuid, _) =>
      var candidate, key := c.seen.value.draft.candidate.value, Some(KeyFrom(c.setup.publish, uuid));
      (match target
       case None => Request(Libraries, PublishBody(candidate, Some(title)), key, None)
       case Some(library) => Request(LibraryRevisions(library.id), PublishBody(candidate, None), key, Some(library.etag)))
    case Apply(uuid, _) =>
      var seen := c.seen.value;
      Request(FleetRevisions(seen.draft.linkedFleet.value), ApplyBody(seen.draft.candidate.value, seen.review.digest),
              Some(KeyFrom(c.setup.apply, uuid)), seen.setupTag)
  }

  /** The new writes of a log, in order. */
  function NewWrites(events: seq<Event>): seq<Request> {
    if events == [] then []
    else (if events[0].Wrote? && !events[0].again then [events[0].request] else []) + NewWrites(events[1..])
  }

  lemma {:induction false} NothingNew(events: seq<Event>)
    requires forall i :: 0 <= i < |events| ==> events[i].Wrote? ==> events[i].again
    ensures NewWrites(events) == []
  {
    if events != [] { NothingNew(events[1..]); }
  }

  lemma OneNew(request: Request)
    ensures NewWrites([Wrote(request, false)]) == [request]
    ensures NewWrites([Invalidated, Wrote(request, false)]) == [request]
    ensures NewWrites([Wrote(request, false), Invalidated]) == [request]
  {
    assert [Wrote(request, false)][1..] == [] && [Invalidated, Wrote(request, false)][1..] == [Wrote(request, false)];
    assert [Wrote(request, false), Invalidated][1..] == [Invalidated] && [Invalidated][1..] == [];
  }

  ghost predicate WritesExactly(c: State, command: Command) {
    NewWrites(Act(c, command).events) == if MayWrite(c, command) then [WriteOf(c, command)] else []
  }

  lemma DraftWrite(c: State, command: Command)
    requires ChatInv(c) && Unresolved(c).None? && (command.Message? || command.Create?)
    ensures MayWrite(c, command) && Act(c, command).events == [Invalidated, Wrote(WriteOf(c, command), false)]
  {
  }

  lemma SaveWrite(c: State, command: Command)
    requires ChatInv(c) && MayWrite(c, command) && command.Save?
    ensures Act(c, command).events == [Wrote(WriteOf(c, command), false)]
  {
    hide IsPartial;
  }

  lemma PublishWrite(c: State, command: Command)
    requires ChatInv(c) && MayWrite(c, command) && command.Publish?
    ensures Act(c, command).events == [Wrote(WriteOf(c, command), false)]
  {
  }

  lemma ApplyWrite(c: State, command: Command)
    requires ChatInv(c) && MayWrite(c, command) && command.Apply?
    ensures Act(c, command).events ==
      if command.applied.Ok? then [Wrote(WriteOf(c, command), false), Invalidated] else [Wrote(WriteOf(c, command), false)]
  {
    hide SchedulesOwed;
  }

  lemma NoWrite(c: State, command: Command)
    requires ChatInv(c) && !MayWrite(c, command)
    ensures forall e :: e in Act(c, command).events && e.Wrote? ==> e.again
  {
    hide IsPartial, SchedulesOwed, SendMessage, CreateDraft, RetrySend, Progress, RetryPublish, RetryApply, Follow;
  }

  lemma EveryActWrites(c: State, command: Command)
    requires ChatInv(c)
    ensures WritesExactly(c, command)
  {
    hide Act, ChatInv, MayWrite, WriteOf, NewWrites;
    if !MayWrite(c, command) {
      NoWrite(c, command);
      NothingNew(Act(c, command).events);
    } else {
      OneNew(WriteOf(c, command));
      Writer(c, command);
      match command
      case Message(_, _, _, _) => DraftWrite(c, command);
      case Create(_, _) => DraftWrite(c, command);
      case Save(_, _, _) => SaveWrite(c, command);
      case Publish(_, _, _, _) => PublishWrite(c, command);
      case Apply(_, _) => ApplyWrite(c, command);
    }
  }

  lemma Writer(c: State, command: Command)
    requires MayWrite(c, command)
    ensures Unresolved(c).None? && (command.Message? || command.Create? || command.Save? || command.Publish? || command.Apply?)
  {
  }

  /**
    In every run, each action makes exactly one new write when it may and none otherwise, and that
    write is, part by part: a message goes to the remembered draft with just its text, or opens a
    draft with the session's source and model and that text; a Create opens one without a message;
    Save, Publish and Apply go to their own paths with the shown review, under their key, with an
    `If-Match` exactly for an Apply and for a Publish with a target.
   */
  lemma NewWritesAreExact(c: State, commands: seq<Command>, command: Command)
    requires Started(c)
    ensures WritesExactly(RunAll(c, commands).0, command)
  {
    ChatProofs.RunKeepsInv(c, commands);
    hide ChatInv, WritesExactly, RunAll;
    EveryActWrites(RunAll(c, commands).0, command);
  }

  // ---------------------------------------------------------------- how long a draft is remembered

  predicate Remembers(c: State) { c.session.id.Some? && c.session.id.value != "" }

  predicate OpensWithMessage(request: Request) { request.body.DraftBody? && request.body.first.Some? }

  /** A message that opens a draft is held only while none is remembered, and only the draft session writes drafts. */
  ghost predicate OpeningInv(c: State) {
    && (c.session.send.pending.Some? && OpensWithMessage(c.session.send.pending.value.request) ==> !Remembers(c))
    && (c.setup.continueSave.Some? ==> c.setup.continueSave.value.body.SaveBody?)
  }

  ghost predicate OpensNothing(events: seq<Event>) {
    forall e :: e in events && e.Wrote? ==> !OpensWithMessage(e.request)
  }

  ghost predicate OpeningStep(c: State, command: Command) {
    OpeningInv(Act(c, command).state) && (Remembers(c) ==> OpensNothing(Act(c, command).events))
  }

  lemma DraftWritesOpen(c: State, command: Command)
    requires ChatInv(c) && OpeningInv(c) && Unresolved(c).None? && (command.Message? || command.Create?)
    ensures OpeningStep(c, command)
  {
    DraftWrite(c, command);
  }

  lemma SetupWritesOpen(c: State, command: Command)
    requires OpeningInv(c) && Unresolved(c).None? && (command.Save? || command.Publish? || command.Apply?)
    ensures OpeningStep(c, command)
  {
    hide IsPartial, SchedulesOwed, Finish, OutcomeOf;
  }

  lemma RetryDraftOpens(c: State, command: Command)
    requires ChatInv(c) && OpeningInv(c) && command.Retry? && (c.operation.OpSend? || c.operation.OpCreate?)
    ensures OpeningStep(c, command)
  {
  }

  lemma RetrySetupOpens(c: State, command: Command)
    requires ChatInv(c) && OpeningInv(c) && command.Retry? && !(c.operation.OpSend? || c.operation.OpCreate?)
    ensures OpeningStep(c, command)
  {
    hide IsPartial, SchedulesOwed;
    match c.operation
    case OpSave => RetrySaveOpens(c, command);
    case OpPublish =>
    case OpApply =>
  }

  lemma RetrySaveOpens(c: State, command: Command)
    requires ChatInv(c) && OpeningInv(c) && command.Retry? && c.operation.OpSave?
    ensures OpeningStep(c, command)
  {
    hide IsPartial, Finish, OutcomeOf;
  }

  lemma ReadsOpen(c: State, command: Command)
    requires OpeningInv(c) && Unresolved(c).None? && (command.ReviewSetup? || command.Model?)
    ensures OpeningStep(c, command)
  {
    hide AccessLost;
  }

  lemma TouchesOpen(c: State, command: Command)
    requires OpeningInv(c) && (command.Stop? || command.History? || command.Remove? || command.Clear?)
    ensures OpeningStep(c, command)
  {
    hide AccessLost;
  }

  lemma RefusedOpens(c: State, command: Command)
    requires OpeningInv(c) && Unresolved(c).Some? && StartsWork(command)
    ensures OpeningStep(c, command)
  {
    NewWorkIsRefused(c, command);
    hide Act;
  }

  lemma ActOpens(c: State, command: Command)
    requires ChatInv(c) && OpeningInv(c)
    ensures OpeningStep(c, command)
  {
    hide Act, ChatInv, OpeningInv, OpeningStep, Unresolved;
    if command.Retry? { if c.operation.OpSend? || c.operation.OpCreate? { RetryDraftOpens(c, command); } else { RetrySetupOpens(c, command); } }
    else if StartsWork(command) && Unresolved(c).Some? { RefusedOpens(c, command); }
    else if command.Message? || command.Create? { DraftWritesOpen(c, command); }
    else if command.Save? || command.Publish? || command.Apply? { SetupWritesOpen(c, command); }
    else if command.ReviewSetup? || command.Model? { ReadsOpen(c, command); }
    else { TouchesOpen(c, command); }
  }

  lemma {:induction false} RunOpens(c: State, commands: seq<Command>)
    requires Started(c)
    ensures OpeningInv(RunAll(c, commands).0)
    decreases |commands|
  {
    if commands != [] {
      var init := commands[..|commands| - 1];
      RunOpens(c, init);
      ChatProofs.RunKeepsInv(c, init);
      hide Act, ChatInv, OpeningInv;
      ActOpens(RunAll(c, init).0, commands[|commands| - 1]);
    }
  }

  /** In every run: while a draft is remembered, no message opens another one, neither by a new write nor by one sent again. */
  lemma NoMessageOpensAnother(c: State, commands: seq<Command>, command: Command)
    requires Started(c) && Remembers(RunAll(c, commands).0)
    ensures OpensNothing(Act(RunAll(c, commands).0, command).events)
  {
    RunOpens(c, commands);
    ChatProofs.RunKeepsInv(c, commands);
    hide Act, ChatInv, OpeningInv, OpensNothing, RunAll;
    ActOpens(RunAll(c, commands).0, command);
  }

  const OUT_OF_REACH := {ServerStatus(401), ServerStatus(403), ServerStatus(404), ServerStatus(410)}

  predicate OutOfReach<T>(answer: Answer<T>) { answer.Error? && answer.outcome in OUT_OF_REACH }

  predicate FollowLost(followed: Followed) { followed.FollowFailed? && followed.outcome in OUT_OF_REACH }

  /** One of the answers the draft session gets during an action says that the draft is out of reach. */
  predicate LearnsLost(command: Command) {
    match command
    case Message(_, _, written, followed) => OutOfReach(written) || FollowLost(followed)
    case Create(_, written) => OutOfReach(written)
    case ReviewSetup(_, read, patched, reread, _) => OutOfReach(read) || OutOfReach(patched) || OutOfReach(reread)
    case Model(read, patched) => OutOfReach(read) || OutOfReach(patched)
    case Retry(written, followed, _, _, _) => OutOfReach(written) || FollowLost(followed)
    case Stop(touched) => OutOfReach(touched)
    case History(touched) => OutOfReach(touched)
    case Remove(touched) => OutOfReach(touched)
    case _ => false
  }

  predicate Touches(command: Command) { command.Stop? || command.History? || command.Remove? }

  /** The action writes a draft: a new message or creation, or the held one again. */
  ghost predicate WritesDraft(c: State, command: Command) {
    if command.Retry? then c.session.send.pending.Some? else (command.Message? || command.Create?) && Unresolved(c).None?
  }

  ghost function WrittenAnswer(command: Command): Answer<Draft>
    requires command.Message? || command.Create? || command.Retry?
  {
    command.written
  }

  /** The action ends with no draft known, and with no draft write held. */
  ghost predicate ForgetsDraft(c: State, command: Command) {
    Act(c, command).state.session.id.None? && Act(c, command).state.session.send.pending.None?
  }

  /** What the user does or the server says to lose the draft. */
  ghost predicate LosesDraft(c: State, command: Command) {
    || command.Clear?
    || (Touches(command) && Remembers(c) && OutOfReach(command.touched))
    || (command.Remove? && Remembers(c) && command.touched.Ok?)
    || (WritesDraft(c, command) && OutOfReach(WrittenAnswer(command)))
  }

  /** A draft once known is lost only for a reason, and for these reasons it is. */
  ghost predicate LosesOnly(c: State, command: Command) {
    && (c.session.id.Some? && Act(c, command).state.session.id.None? ==>
         command.Clear? || (command.Remove? && command.touched.Ok?) || LearnsLost(command))
    && (LosesDraft(c, command) ==> ForgetsDraft(c, command))
  }

  lemma TouchLoses(c: State, command: Command)
    requires Touches(command) || command.Clear?
    ensures LosesOnly(c, command)
  {
  }

  lemma ReadLoses(c: State, command: Command)
    requires ChatInv(c) && (command.ReviewSetup? || command.Model?)
    ensures LosesOnly(c, command)
  {
    hide IsPartial, SchedulesOwed;
  }

  lemma MessageLoses(c: State, command: Command)
    requires ChatInv(c) && command.Message?
    ensures LosesOnly(c, command)
  {
  }

  lemma CreateLoses(c: State, command: Command)
    requires ChatInv(c) && command.Create?
    ensures LosesOnly(c, command)
  {
  }

  lemma RetryLoses(c: State, command: Command)
    requires ChatInv(c) && command.Retry?
    ensures LosesOnly(c, command)
  {
    hide Progress, RetryPublish, RetryApply;
  }

  lemma SetupLoses(c: State, command: Command)
    requires command.Save? || command.Publish? || command.Apply?
    ensures LosesOnly(c, command)
  {
    hide SaveDraft, PublishDraft, ApplyDraft;
  }

  /**
    In every run a known draft is lost only by a clear, a removal, or an answer of 401, 403, 404 or
    410; and by these it is lost, together with any draft write that was held.
   */
  lemma DraftIsLostExactly(c: State, commands: seq<Command>, command: Command)
    requires Started(c)
    ensures LosesOnly(RunAll(c, commands).0, command)
  {
    ChatProofs.RunKeepsInv(c, commands);
    hide ChatInv, LosesOnly, RunAll;
    var before := RunAll(c, commands).0;
    if command.Retry? { RetryLoses(before, command); }
    else if command.Message? { MessageLoses(before, command); }
    else if command.Create? { CreateLoses(before, command); }
    else if command.ReviewSetup? || command.Model? { ReadLoses(before, command); }
    else if command.Save? || command.Publish? || command.Apply? { SetupLoses(before, command); }
    else { TouchLoses(before, command); }
  }

  /** A draft that a write opens is remembered, unless following its message says otherwise; a write to a known draft keeps it. */
  lemma OpenedIsRemembered(c: State, commands: seq<Command>, command: Command)
    requires Started(c) && MayWrite(RunAll(c, commands).0, command) && (command.Message? || command.Create?) && command.written.Ok?
    ensures var before, after := RunAll(c, commands).0, Act(RunAll(c, commands).0, command).state;
      var known := if command.Message? && Remembers(before) then before.session.id else Some(command.written.value.id);
      after.session.id ==
        if command.Create? then known
        else match command.followed
          case Followed(draft, _) => Some(draft.id)
          case FollowFailed(o) => if o in OUT_OF_REACH then None else known
  {
    ChatProofs.RunKeepsInv(c, commands);
    hide RunAll;
  }
}
