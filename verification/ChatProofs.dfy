/** What every sequential chat run keeps: one unresolved operation, its recovery record, and reviewed writes. */
module ChatProofs {
  import opened Options
  import opened RetainedRequests
  import opened Chat

  // ---------------------------------------------------------------- at most one unresolved operation

  ghost function First(a: Option<Op>, b: Option<Op>): Option<Op> {
    if a.Some? then a else b
  }

  ghost function SetupHeld(s: Setup): Option<Op> {
    First(s.save.pending, First(s.publish.pending, s.apply.pending))
  }

  /** The operation whose outcome is unknown. */
  ghost function Unresolved(c: State): Option<Op> {
    First(c.session.send.pending, SetupHeld(c.setup))
  }

  ghost function One(o: Option<Op>): nat { if o.Some? then 1 else 0 }

  ghost function UnresolvedCount(c: State): nat {
    One(c.session.send.pending) + One(c.setup.save.pending) + One(c.setup.publish.pending) + One(c.setup.apply.pending)
  }

  /** The operation kind that names a retained operation. */
  ghost function KindOf(op: Op): Operation {
    match op.identity
    case MessageId(_) => OpSend
    case SourceId(_) => OpCreate
    case SaveId(_) => OpSave
    case PublishId(_, _, _) => OpPublish
    case ApplyId(_, _, _) => OpApply
  }

  /** A success, or a status by which the server says that it did not run the request. */
  predicate Decisive(o: Outcome) {
    o.Success? || (o.ServerStatus? && 400 <= o.status <= 499 && o.status != 408)
  }

  ghost predicate Idle(slot: OpSlot) { slot.running.None? }

  /** The recovery record names the operation, its key and the arguments of its exact request. */
  ghost predicate Describes(r: Recovery, op: Op) {
    && r.key == op.key
    && match r
       case SaveRecovery(key, candidate, name, digest, runs) =>
         && op.identity == SaveId(op.request.body) && op.request.body.SaveBody? && op.request.body.start.RunNow? == runs
         && op.request == SaveRequest(candidate, name, digest, op.request.body.start, key)
       case PublishRecovery(key, candidate, title, target) =>
         && op.identity == PublishId(op.request.path, op.request.body, target)
         && op.request == PublishRequest(candidate, title, target, key)
       case ApplyRecovery(key, candidate, fleet, digest, tag) =>
         && op.identity == ApplyId(op.request.path, op.request.body, tag)
         && op.request == ApplyRequest(candidate, fleet, digest, tag, key)
  }

  ghost predicate SetupInv(s: Setup) {
    && Idle(s.save) && Idle(s.publish) && Idle(s.apply)
    && One(s.save.pending) + One(s.publish.pending) + One(s.apply.pending) <= 1
    && (s.save.pending.Some? ==> s.save.pending.value.identity.SaveId?)
    && (s.publish.pending.Some? ==> s.publish.pending.value.identity.PublishId?)
    && (s.apply.pending.Some? ==> s.apply.pending.value.identity.ApplyId?)
    && (SetupPending(s) ==> s.recovery.Some? && Describes(s.recovery.value, SetupHeld(s).value))
  }

  /** The invariant, over the parts of the state it speaks of. */
  ghost predicate Core(send: OpSlot, setup: Setup, operation: Operation) {
    && Idle(send) && SetupInv(setup)
    && (send.pending.Some? ==> send.pending.value.identity.MessageId? || send.pending.value.identity.SourceId?)
    && (send.pending.None? || !SetupPending(setup))
    && (First(send.pending, SetupHeld(setup)).Some? ==> KindOf(First(send.pending, SetupHeld(setup)).value) == operation)
  }

  ghost predicate ChatInv(c: State) {
    Core(c.session.send, c.setup, c.operation)
  }

  /** Running an operation on an idle slot sends it once and keeps it exactly while its outcome is unknown. */
  lemma IdleRun(slot: OpSlot, identity: Identity, uuid: string, execute: string -> Request, o: Outcome)
    requires Idle(slot)
    ensures var (s1, launch) := RunOp(slot, identity, uuid, execute);
      if slot.pending.Some? && slot.pending.value.identity != identity then s1 == slot && launch == Start.Busy
      else
        && launch.Launched? && s1.pending == Some(launch.op)
        && launch.op.identity == identity
        && (slot.pending.Some? ==> launch.op == slot.pending.value)
        && (slot.pending.None? ==> launch.op.key == NextKey(slot, uuid) && launch.op.request == execute(launch.op.key))
        && Idle(Finish(s1, launch.op, o))
        && Finish(s1, launch.op, o).pending == if Decisive(o) then None else Some(launch.op)
  {
  }

  lemma SaveKeepsInv(s: Setup, candidate: string, name: string, digest: string, start: StartMode, uuid: string, answer: Answer<Fleet>)
    requires SetupInv(s)
    ensures SetupInv(SaveCandidate(s, candidate, name, digest, start, uuid, answer).setup)
  {
    IdleRun(s.save, SaveId(SaveBody(candidate, name, digest, start)), uuid,
            (key: string) => SaveRequest(candidate, name, digest, start, key), OutcomeOf(answer));
  }

  lemma PublishKeepsInv(s: Setup, candidate: string, title: string, target: Option<Target>, uuid: string, answer: Answer<string>)
    requires SetupInv(s)
    ensures SetupInv(PublishCandidate(s, candidate, title, target, uuid, answer).setup)
  {
    IdleRun(s.publish, PublishId(PublishPath(target), PublishBodyOf(candidate, title, target), target), uuid,
            (key: string) => PublishRequest(candidate, title, target, key), OutcomeOf(answer));
  }

  lemma ApplyKeepsInv(s: Setup, candidate: string, fleet: string, digest: string, tag: string, uuid: string, answer: Answer<seq<string>>)
    requires SetupInv(s)
    ensures SetupInv(ApplyCandidate(s, candidate, fleet, digest, tag, uuid, answer).setup)
  {
    IdleRun(s.apply, ApplyId(FleetRevisions(fleet), ApplyBody(candidate, digest), tag), uuid,
            (key: string) => ApplyRequest(candidate, fleet, digest, tag, key), OutcomeOf(answer));
  }

  /** A setup action that starts from rest moves the setup and names itself. */
  lemma SetupMoves(c: State, setup: Setup, operation: Operation)
    requires ChatInv(c) && SetupInv(setup)
    requires c.session.send.pending.None? || (setup == c.setup && operation == c.operation)
    requires SetupPending(setup) ==> operation == KindOf(SetupHeld(setup).value)
    ensures Core(c.session.send, setup, operation)
  {
  }

  /** A session action that resolves the draft write or leaves it alone. */
  lemma SendMoves(c: State, send: OpSlot)
    requires ChatInv(c) && Idle(send)
    requires send.pending == c.session.send.pending || send.pending.None?
    ensures Core(send, c.setup, c.operation)
  {
  }

  lemma MessageKeepsInv(c: State, text: string, uuid: string, written: Answer<Draft>, followed: Followed)
    requires ChatInv(c) && !Chat.Busy(c)
    ensures ChatInv(DoMessage(c, text, uuid, written, followed).state)
  {
    IdleRun(c.session.send, MessageId(text), uuid, (key: string) => SendRequest(c.session, text, key), OutcomeOf(written));
  }

  lemma CreateKeepsInv(c: State, uuid: string, written: Answer<Draft>)
    requires ChatInv(c) && !Chat.Busy(c)
    ensures ChatInv(DoCreate(c, uuid, written).state)
  {
    IdleRun(c.session.send, SourceId(c.session.source.kind), uuid, (key: string) => CreateRequest(c.session, key), OutcomeOf(written));
  }

  /** A draft read or patch keeps the draft write or, on lost access, drops it. */
  lemma ReadMoves(s: Session, read: Answer<Draft>, patched: Answer<Draft>, touched: Answer<()>)
    requires Idle(s.send)
    ensures SendKept(s, Refresh(s, read).session) && SendKept(s, Patch(s, read, patched).session) && SendKept(s, Touch(s, touched).session)
  {
  }

  ghost predicate SendKept(s: Session, s': Session) {
    Idle(s'.send) && (s'.send.pending == s.send.pending || s'.send.pending.None?)
  }

  lemma ReviewMoves(c: State, name: Option<string>, read: Answer<Draft>, patched: Answer<Draft>, reread: Answer<Draft>, fleet: Answer<Fleet>)
    requires ChatInv(c)
    ensures ChatInv(DoReview(c, name, read, patched, reread, fleet).state)
  {
    var renamed := if name.Some? then Patch(c.session, read, patched).session else c.session;
    ReadMoves(c.session, read, patched, Ok(()));
    SendMoves(c, renamed.send);
    ReadMoves(renamed, reread, patched, Ok(()));
    SendMoves(c.(session := renamed), Refresh(renamed, reread).session.send);
    hide Patch, Refresh, Core;
  }

  lemma ReadsKeepInv(c: State, command: Command)
    requires ChatInv(c) && !(StartsWork(command) && Chat.Busy(c))
    requires command.Model? || command.Stop? || command.History? || command.Remove? || command.Clear?
    ensures ChatInv(Act(c, command).state)
  {
    if command.Model? {
      ReadMoves(c.session, command.read, command.patched, Ok(()));
      SendMoves(c, Patch(c.session, command.read, command.patched).session.send);
    } else if !command.Clear? {
      ReadMoves(c.session, Error(NoAnswer), Error(NoAnswer), command.touched);
      SendMoves(c, Touch(c.session, command.touched).session.send);
    }
  }

  ghost predicate StepOf(s: Setup, kind: Operation) {
    SetupInv(s) && (SetupPending(s) ==> KindOf(SetupHeld(s).value) == kind)
  }

  lemma SaveDraftKeepsInv(s: Setup, draft: Draft, review: Review, start: StartMode, uuid: string, saved: Answer<Fleet>)
    requires SetupInv(s) && !SetupPending(s)
    ensures StepOf(SaveDraft(s, draft, review, start, uuid, saved).setup, OpSave)
  {
    if draft.candidate.Some? { SaveKeepsInv(s, draft.candidate.value, review.instanceName, review.digest, start, uuid, saved); }
  }

  lemma PublishDraftKeepsInv(s: Setup, draft: Draft, title: string, target: Option<Target>, uuid: string, published: Answer<string>)
    requires SetupInv(s) && !SetupPending(s)
    ensures StepOf(PublishDraft(s, draft, title, target, uuid, published).setup, OpPublish)
  {
    if draft.candidate.Some? { PublishKeepsInv(s, draft.candidate.value, title, target, uuid, published); }
  }

  lemma ApplyDraftKeepsInv(s: Setup, draft: Draft, review: Review, tag: string, uuid: string, applied: Answer<seq<string>>)
    requires SetupInv(s) && !SetupPending(s)
    ensures StepOf(ApplyDraft(s, draft, review, tag, uuid, applied).setup, OpApply)
  {
    if draft.candidate.Some? && NonEmpty(draft.linkedFleet) {
      ApplyKeepsInv(s, draft.candidate.value, draft.linkedFleet.value, review.digest, tag, uuid, applied);
    }
  }

  lemma SetupActsKeepInv(c: State, command: Command)
    requires ChatInv(c) && !Chat.Busy(c) && (command.Save? || command.Publish? || command.Apply?)
    ensures ChatInv(Act(c, command).state)
  {
    if c.seen.Some? {
      var seen := c.seen.value;
      match command
      case Save(start, uuid, saved) =>
        SaveDraftKeepsInv(c.setup, seen.draft, seen.review, start, uuid, saved);
        hide SaveDraft;
        SetupMoves(c, SaveDraft(c.setup, seen.draft, seen.review, start, uuid, saved).setup, OpSave);
      case Publish(title, target, uuid, published) =>
        PublishDraftKeepsInv(c.setup, seen.draft, title, target, uuid, published);
        hide PublishDraft;
        SetupMoves(c, PublishDraft(c.setup, seen.draft, title, target, uuid, published).setup, OpPublish);
      case Apply(uuid, applied) =>
        if NonEmpty(seen.setupTag) {
          ApplyDraftKeepsInv(c.setup, seen.draft, seen.review, seen.setupTag.value, uuid, applied);
          hide ApplyDraft;
          SetupMoves(c, ApplyDraft(c.setup, seen.draft, seen.review, seen.setupTag.value, uuid, applied).setup, OpApply);
        }
    }
  }

  lemma RetrySendMoves(s: Session, answer: Answer<Draft>)
    requires Idle(s.send)
    ensures var send := RetrySend(s, answer).session.send;
      Idle(send) && (send.pending == s.send.pending || send.pending.None?)
  {
  }

  /** A retry resolves the held operation or leaves it held. */
  ghost predicate StepBack(s: Setup, s': Setup) {
    SetupInv(s') && (SetupHeld(s') == SetupHeld(s) || SetupHeld(s').None?)
  }

  lemma SetupResolves(c: State, setup: Setup)
    requires ChatInv(c) && StepBack(c.setup, setup)
    ensures Core(c.session.send, setup, c.operation)
  {
  }

  lemma ProgressMoves(s: Setup, saved: Answer<Fleet>)
    requires SetupInv(s)
    ensures StepBack(s, Progress(s, saved).setup)
  {
  }

  lemma RetryPublishMoves(s: Setup, published: Answer<string>)
    requires SetupInv(s)
    ensures StepBack(s, RetryPublish(s, published).setup)
  {
  }

  lemma RetryApplyMoves(s: Setup, applied: Answer<seq<string>>)
    requires SetupInv(s)
    ensures StepBack(s, RetryApply(s, applied).setup)
  {
  }

  lemma RetryActKeepsInv(c: State, command: Command)
    requires ChatInv(c) && command.Retry?
    ensures ChatInv(Act(c, command).state)
  {
    hide RetrySend, Progress, RetryPublish, RetryApply, Core;
    match c.operation
    case OpSend =>
      RetrySendMovesState(c, command.written);
      FollowMoves(c.(session := RetrySend(c.session, command.written).session), command.followed);
    case OpCreate => RetrySendMovesState(c, command.written);
    case OpSave =>
      ProgressMovesState(c, command.saved);
    case OpPublish =>
      RetryPublishMovesState(c, command.published);
    case OpApply =>
      RetryApplyMovesState(c, command.applied);
  }

  lemma RetrySendMovesState(c: State, written: Answer<Draft>)
    requires ChatInv(c)
    ensures Core(RetrySend(c.session, written).session.send, c.setup, c.operation)
  {
    RetrySendMoves(c.session, written);
    hide RetrySend;
    SendMoves(c, RetrySend(c.session, written).session.send);
  }

  lemma ProgressMovesState(c: State, saved: Answer<Fleet>)
    requires ChatInv(c)
    ensures Core(c.session.send, Progress(c.setup, saved).setup, c.operation)
  {
    ProgressMoves(c.setup, saved);
    hide Progress;
    SetupResolves(c, Progress(c.setup, saved).setup);
  }

  lemma RetryPublishMovesState(c: State, published: Answer<string>)
    requires ChatInv(c)
    ensures Core(c.session.send, RetryPublish(c.setup, published).setup, c.operation)
  {
    RetryPublishMoves(c.setup, published);
    hide RetryPublish;
    SetupResolves(c, RetryPublish(c.setup, published).setup);
  }

  lemma RetryApplyMovesState(c: State, applied: Answer<seq<string>>)
    requires ChatInv(c)
    ensures Core(c.session.send, RetryApply(c.setup, applied).setup, c.operation)
  {
    RetryApplyMoves(c.setup, applied);
    hide RetryApply;
    SetupResolves(c, RetryApply(c.setup, applied).setup);
  }

  lemma FollowMoves(c: State, followed: Followed)
    requires ChatInv(c)
    ensures ChatInv(Follow(c, followed))
  {
  }

  lemma ActKeepsInv(c: State, command: Command)
    requires ChatInv(c)
    ensures ChatInv(Act(c, command).state)
  {
    hide DoMessage, DoCreate, DoReview, DoSave, DoPublish, DoApply, DoRetry, DoModel, ChatInv;
    if !(StartsWork(command) && Chat.Busy(c)) {
      match command
      case Message(text, uuid, written, followed) => MessageKeepsInv(c, text, uuid, written, followed);
      case Create(uuid, written) => CreateKeepsInv(c, uuid, written);
      case Save(_, _, _) => SetupActsKeepInv(c, command);
      case Publish(_, _, _, _) => SetupActsKeepInv(c, command);
      case Apply(_, _) => SetupActsKeepInv(c, command);
      case Retry(_, _, _, _, _) => RetryActKeepsInv(c, command);
      case ReviewSetup(name, read, patched, reread, fleet) => ReviewMoves(c, name, read, patched, reread, fleet);
      case _ => ReadsKeepInv(c, command);
    }
  }

  // ---------------------------------------------------------------- over every run

  /** The state a new invocation starts in. */
  ghost predicate Started(c: State) {
    exists source, model, id, operationId, recovery ::
      c == NewState(NewSession(source, model, id, operationId), NewSetup(recovery))
  }

  lemma {:induction false} RunKeepsInv(c: State, commands: seq<Command>)
    requires Started(c)
    ensures ChatInv(RunAll(c, commands).0)
    decreases |commands|
  {
    if commands != [] {
      RunKeepsInv(c, commands[..|commands| - 1]);
      ActKeepsInv(RunAll(c, commands[..|commands| - 1]).0, commands[|commands| - 1]);
      hide Act, ChatInv;
    }
  }

  /**
    After every run at most one of the draft write, Save, Publish and Apply is unresolved,
    and the machine names it.
   */
  lemma OneUnresolvedOperation(c: State, commands: seq<Command>)
    requires Started(c)
    ensures var end := RunAll(c, commands).0;
      && UnresolvedCount(end) <= 1
      && (UnresolvedCount(end) == 1 <==> Chat.Busy(end)) && (Unresolved(end).Some? <==> Chat.Busy(end))
      && (Unresolved(end).Some? ==> KindOf(Unresolved(end).value) == end.operation)
  {
    RunKeepsInv(c, commands);
  }

  /** While something is unresolved, an action that would start work changes nothing and sends nothing. */
  lemma NewWorkIsRefused(c: State, command: Command)
    requires Unresolved(c).Some? && StartsWork(command)
    ensures Act(c, command) == Acted(c, Refused, [])
  {
  }

  /** The answer a retry gets for the operation the machine names. */
  function RetryOutcome(c: State, command: Command): Outcome
    requires command.Retry?
  {
    match c.operation
    case OpSend => OutcomeOf(command.written)
    case OpCreate => OutcomeOf(command.written)
    case OpSave => OutcomeOf(command.saved)
    case OpPublish => OutcomeOf(command.published)
    case OpApply => OutcomeOf(command.applied)
  }

  /**
    While something is unresolved, a retry sends exactly its original request, under its
    original key, once; the operation stays held exactly when the answer settles nothing.
   */
  lemma RetryResendsIt(c: State, command: Command)
    requires ChatInv(c) && Unresolved(c).Some? && command.Retry?
    ensures var op, acted := Unresolved(c).value, Act(c, command);
      && |acted.events| >= 1 && acted.events[0] == Wrote(op.request, true)
      && (forall i :: 1 <= i < |acted.events| ==> acted.events[i] == Invalidated)
      && Unresolved(acted.state) == if Decisive(RetryOutcome(c, command)) then None else Some(op)
  {
    match c.operation
    case OpSend => RetrySendResends(c.session, command.written);
    case OpCreate => RetrySendResends(c.session, command.written);
    case OpSave =>
    case OpPublish =>
    case OpApply =>
  }

  lemma RetrySendResends(s: Session, answer: Answer<Draft>)
    requires Idle(s.send) && s.send.pending.Some?
    ensures var op, step := s.send.pending.value, RetrySend(s, answer);
      && step.sent == [op.request] && (step.result.Done? <==> answer.Ok?) && !step.result.Invalid?
      && step.session.send.pending == if Decisive(OutcomeOf(answer)) then None else Some(op)
  {
  }

  /** Nothing but a decisive retry, a clear, a removal or lost access lets go of an unresolved operation. */
  lemma OnlyTheseResolve(c: State, command: Command)
    requires ChatInv(c) && Unresolved(c).Some?
    ensures Unresolved(Act(c, command).state) == Unresolved(c) ||
      match command
      case Retry(_, _, _, _, _) => Decisive(RetryOutcome(c, command))
      case Clear => true
      case Remove(touched) => touched.Ok? || AccessLost(OutcomeOf(touched))
      case Stop(touched) => AccessLost(OutcomeOf(touched))
      case History(touched) => AccessLost(OutcomeOf(touched))
      case _ => false
  {
    hide DoMessage, DoCreate, DoReview, DoSave, DoPublish, DoApply, DoModel, DoRetry;
    if command.Retry? {
      RetryResendsIt(c, command);
    } else if StartsWork(command) {
      NewWorkIsRefused(c, command);
    }
  }

  /** The operation is unresolved after every prefix of the run. */
  ghost predicate StaysUnresolved(c: State, commands: seq<Command>)
    decreases |commands|
  {
    Unresolved(RunAll(c, commands).0).Some? && (commands != [] ==> StaysUnresolved(c, commands[..|commands| - 1]))
  }

  /**
    For as long as an operation stays unresolved, over a run of any actions whatever, it stays
    the same operation, and every write sent is its one original request, sent again.
   */
  lemma {:induction false} UntilResolved(c: State, commands: seq<Command>)
    requires ChatInv(c) && StaysUnresolved(c, commands)
    ensures Unresolved(c).Some? && ChatInv(RunAll(c, commands).0) && Unresolved(RunAll(c, commands).0) == Unresolved(c)
    ensures forall e :: e in RunAll(c, commands).1 && e.Wrote? ==> e == Wrote(Unresolved(c).value.request, true)
    decreases |commands|
  {
    if commands != [] {
      var init, last := commands[..|commands| - 1], commands[|commands| - 1];
      var (before, earlier) := RunAll(c, init);
      UntilResolved(c, init);
      ActKeepsInv(before, last);
      OneActUnresolved(before, last);
      hide Act, ChatInv, Unresolved, StaysUnresolved;
    }
  }

  lemma OneActUnresolved(c: State, command: Command)
    requires ChatInv(c) && Unresolved(c).Some? && Unresolved(Act(c, command).state).Some?
    ensures Unresolved(Act(c, command).state) == Unresolved(c)
    ensures forall e :: e in Act(c, command).events && e.Wrote? ==> e == Wrote(Unresolved(c).value.request, true)
  {
    hide DoMessage, DoCreate, DoReview, DoSave, DoPublish, DoApply, DoModel, DoRetry, ChatInv;
    if command.Retry? {
      RetryWrites(c, command);
    } else if StartsWork(command) {
      NewWorkIsRefused(c, command);
    }
    StillThere(c, command);
  }

  lemma RetryWrites(c: State, command: Command)
    requires ChatInv(c) && Unresolved(c).Some? && command.Retry?
    ensures forall e :: e in Act(c, command).events && e.Wrote? ==> e == Wrote(Unresolved(c).value.request, true)
  {
    hide DoMessage, DoCreate, DoReview, DoSave, DoPublish, DoApply, DoModel, DoRetry, ChatInv, Unresolved;
    RetryResendsIt(c, command);
    var events := Act(c, command).events;
    forall e | e in events && e.Wrote? ensures e == Wrote(Unresolved(c).value.request, true) {
      var i :| 0 <= i < |events| && events[i] == e;
    }
  }

  /** What is unresolved after an action that sends nothing new is what was unresolved before. */
  lemma StillThere(c: State, command: Command)
    requires ChatInv(c) && Unresolved(c).Some? && Unresolved(Act(c, command).state).Some?
    ensures Unresolved(Act(c, command).state) == Unresolved(c)
  {
    hide DoMessage, DoCreate, DoReview, DoSave, DoPublish, DoApply, DoModel, DoRetry;
    if command.Retry? {
      RetryResendsIt(c, command);
    } else if StartsWork(command) {
      NewWorkIsRefused(c, command);
    }
  }

  // ---------------------------------------------------------------- recovery
  /** While a setup action is unresolved, the record the client prints names it, its key and its arguments. */
  lemma RecoveryNamesIt(c: State, commands: seq<Command>)
    requires Started(c) && SetupPending(RunAll(c, commands).0.setup)
    ensures var setup := RunAll(c, commands).0.setup;
      RecoveryOf(setup).Some? && SetupHeld(setup).Some? && Describes(RecoveryOf(setup).value, SetupHeld(setup).value)
  {
    RunKeepsInv(c, commands);
  }
}
