/** What recovery does in the runs of real commands, and which record those runs offer. */
module RecoveryRuns {
  import opened Options
  import opened RetainedRequests
  import opened Chat
  import opened ChatProofs
  import opened ChatRecovery

  // ---------------------------------------------------------------- recovery of real runs

  predicate KeyOk(key: Option<string>) { key.Some? ==> ValidId(key.value) }

  predicate TargetOk(target: Option<Target>) { target.Some? ==> target.value.id != "" && target.value.etag != "" }

  /** What every command passes: minted identifiers are canonical, and a label and a target are not empty. */
  predicate CommandOk(command: Command) {
    match command
    case Save(_, uuid, _) => ValidId(uuid)
    case Publish(title, target, uuid, _) => ValidId(uuid) && title != "" && TargetOk(target)
    case Apply(uuid, _) => ValidId(uuid)
    case _ => true
  }

  predicate RecordOk(r: Recovery) {
    && ValidId(r.key)
    && (r.PublishRecovery? ==> r.title != "" && TargetOk(r.target))
    && (r.ApplyRecovery? ==> r.tag != "")
  }

  predicate SetupOk(s: Setup) {
    && KeyOk(s.save.initialKey) && KeyOk(s.publish.initialKey) && KeyOk(s.apply.initialKey)
    && (s.recovery.Some? ==> RecordOk(s.recovery.value))
  }

  lemma SaveKeepsOk(s: Setup, draft: Draft, review: Review, start: StartMode, uuid: string, saved: Answer<Fleet>)
    requires SetupOk(s) && ValidId(uuid)
    ensures SetupOk(SaveDraft(s, draft, review, start, uuid, saved).setup)
  {
    hide ValidId, IsPartial;
  }

  lemma PublishKeepsOk(s: Setup, draft: Draft, title: string, target: Option<Target>, uuid: string, published: Answer<string>)
    requires SetupOk(s) && ValidId(uuid) && title != "" && TargetOk(target)
    ensures SetupOk(PublishDraft(s, draft, title, target, uuid, published).setup)
  {
    hide ValidId;
  }

  lemma ApplyKeepsOk(s: Setup, draft: Draft, review: Review, tag: string, uuid: string, applied: Answer<seq<string>>)
    requires SetupOk(s) && ValidId(uuid) && tag != ""
    ensures SetupOk(ApplyDraft(s, draft, review, tag, uuid, applied).setup)
  {
    hide ValidId;
  }

  lemma SetupActsKeepOk(c: State, command: Command)
    requires SetupOk(c.setup) && CommandOk(command) && (command.Save? || command.Publish? || command.Apply?)
    ensures SetupOk(Act(c, command).state.setup)
  {
    hide ValidId, SetupOk, SaveDraft, PublishDraft, ApplyDraft;
    if c.seen.Some? {
      var seen := c.seen.value;
      match command
      case Save(start, uuid, saved) => SaveKeepsOk(c.setup, seen.draft, seen.review, start, uuid, saved);
      case Publish(title, target, uuid, published) => PublishKeepsOk(c.setup, seen.draft, title, target, uuid, published);
      case Apply(uuid, applied) =>
        if NonEmpty(seen.setupTag) { ApplyKeepsOk(c.setup, seen.draft, seen.review, seen.setupTag.value, uuid, applied); }
    }
  }

  lemma RetriesKeepOk(s: Setup, saved: Answer<Fleet>, published: Answer<string>, applied: Answer<seq<string>>)
    requires SetupOk(s)
    ensures SetupOk(Progress(s, saved).setup) && SetupOk(RetryPublish(s, published).setup) && SetupOk(RetryApply(s, applied).setup)
  {
    hide ValidId;
  }

  lemma RetryKeepsOk(c: State, command: Command)
    requires SetupOk(c.setup) && command.Retry?
    ensures SetupOk(Act(c, command).state.setup)
  {
    hide ValidId, SetupOk, RetrySend, Remember, Guard, Progress, RetryPublish, RetryApply;
    RetriesKeepOk(c.setup, command.saved, command.published, command.applied);
  }

  lemma OthersKeepOk(c: State, command: Command)
    requires SetupOk(c.setup) && !(command.Save? || command.Publish? || command.Apply? || command.Retry?)
    ensures SetupOk(Act(c, command).state.setup)
  {
    hide ValidId, SendMessage, CreateDraft, Patch, Refresh, Touch;
  }

  lemma {:induction false} RunKeepsOk(c: State, commands: seq<Command>)
    requires SetupOk(c.setup) && forall i :: 0 <= i < |commands| ==> CommandOk(commands[i])
    ensures SetupOk(RunAll(c, commands).0.setup)
    decreases |commands|
  {
    if commands != [] {
      var init, last := commands[..|commands| - 1], commands[|commands| - 1];
      RunKeepsOk(c, init);
      var before := RunAll(c, init).0;
      hide Act, SetupOk, CommandOk;
      if last.Retry? { RetryKeepsOk(before, last); }
      else if last.Save? || last.Publish? || last.Apply? { SetupActsKeepOk(before, last); }
      else { OthersKeepOk(before, last); }
    }
  }

  /** What remains to go wrong in a real run: values the wire supplied. */
  predicate WireOk(r: Recovery) {
    && ValidId(r.candidate)
    && (r.SaveRecovery? ==> r.name != "" && r.digest != "")
    && (r.ApplyRecovery? ==> ValidId(r.fleet) && r.digest != "")
  }

  /**
    In every run whose keys are canonical and whose labels and targets are not empty, recovery
    sends the original request if and only if the candidate is canonical, a Save's name and digest
    are not empty, and an Apply's fleet is canonical and its digest not empty; otherwise it sends
    nothing.
   */
  lemma RealRunsRecover(c: State, commands: seq<Command>, message: string, uuid: string, answers: Answers)
    requires Started(c) && SetupOk(c.setup) && (forall i :: 0 <= i < |commands| ==> CommandOk(commands[i]))
    requires SetupPending(RunAll(c, commands).0.setup)
    ensures var setup := RunAll(c, commands).0.setup;
      && RecoveryOf(setup).Some? && SetupHeld(setup).Some?
      && var r, op := RecoveryOf(setup).value, SetupHeld(setup).value;
         CallerMessage(op, message) ==>
           SentBy(InvocationOf(ArgumentsFor(r, message), uuid, answers)) == if WireOk(r) then [op.request] else []
  {
    EveryUncertainWriteIsRecovered(c, commands, message, uuid, answers);
    RunKeepsOk(c, commands);
    hide RunAll, InvocationOf, ValidId;
  }

  // ---------------------------------------------------------------- which record is offered

  /** The request is the Save the record was written for. */
  predicate IsSaveOf(r: Recovery, request: Request) {
    && r.SaveRecovery? && request.body.SaveBody? && request.body.start.RunNow? == r.runs
    && request == SaveRequest(r.candidate, r.name, r.digest, request.body.start, r.key)
  }

  /**
    What a run has to remember: the Save whose answer is the current fleet, and whether a retry has
    settled the write the record was written for, other than by a Save that gave the fleet.
   */
  datatype Trail = Trail(source: Option<Request>, left: bool)

  const START := Trail(None, false)

  predicate GaveFleet(c: State, command: Command) {
    var acted := Act(c, command);
    && (command.Save? || (command.Retry? && c.operation.OpSave?))
    && acted.ended == Completed && acted.events != [] && acted.events[0].Wrote?
  }

  predicate WroteFirst(c: State, command: Command) {
    var events := Act(c, command).events;
    events != [] && events[0].Wrote?
  }

  function NextTrail(c: State, command: Command, t: Trail): Trail {
    var acted := Act(c, command);
    var before, after := c.setup, acted.state.setup;
    var gave := GaveFleet(c, command);
    Trail(
      if after.fleet.None? then None else if gave then Some(acted.events[0].request) else t.source,
      if after.recovery.None? then false
      else if command.Save? || command.Publish? || command.Apply? then t.left && !WroteFirst(c, command)
      else if command.Retry? && SetupPending(before) then !SetupPending(after) && !gave
      else t.left && !(gave && after.recovery.value.SaveRecovery?))
  }

  function TrailOf(c: State, commands: seq<Command>): Trail
    decreases |commands|
  {
    if commands == [] then START
    else
      var init := commands[..|commands| - 1];
      NextTrail(RunAll(c, init).0, commands[|commands| - 1], TrailOf(c, init))
  }

  /** A Save is not made under the key of the Save that gave the fleet. */
  predicate KeyIsNew(c: State, command: Command, t: Trail) {
    command.Save? && t.source.Some? ==> t.source.value.idempotencyKey != Some(NextKey(c.setup.save, command.uuid))
  }

  ghost predicate KeysAreNew(c: State, commands: seq<Command>)
    decreases |commands|
  {
    commands != [] ==>
      var init := commands[..|commands| - 1];
      KeysAreNew(c, init) && KeyIsNew(RunAll(c, init).0, commands[|commands| - 1], TrailOf(c, init))
  }

  ghost predicate NamesFleet(s: Setup, t: Trail) {
    s.recovery.Some? && t.source.Some? && IsSaveOf(s.recovery.value, t.source.value)
  }

  ghost predicate TrailInv(s: Setup, t: Trail) {
    && (s.recovery.Some? && s.recovery.value.SaveRecovery? ==>
         s.continueSave.Some? && IsSaveOf(s.recovery.value, s.continueSave.value))
    && (s.fleet.None? ==> t.source.None?)
    && (SetupPending(s) ==> !t.left)
    && (s.save.pending.Some? && t.source.Some? ==> t.source.value.idempotencyKey != Some(s.save.pending.value.key))
    && (!SetupPending(s) && s.recovery.Some? ==> (t.left <==> !NamesFleet(s, t)))
  }

  lemma SaveShape(s: Setup, draft: Draft, review: Review, start: StartMode, uuid: string, saved: Answer<Fleet>)
    requires SetupInv(s) && !SetupPending(s) && draft.candidate.Some?
    ensures var step := SaveDraft(s, draft, review, start, uuid, saved);
      var request := SaveRequest(draft.candidate.value, review.instanceName, review.digest, start, NextKey(s.save, uuid));
      var after := step.setup;
      && step.sent == [request] && (step.result.Done? <==> saved.Ok?) && !step.result.Invalid?
      && after.continueSave == Some(request) && after.fleet == (if saved.Ok? then Some(saved.value) else s.fleet)
      && (after.recovery.Some? ==> IsSaveOf(after.recovery.value, request)) && (saved.Ok? ==> after.recovery.Some?)
      && (if Decisive(OutcomeOf(saved)) then !SetupPending(after) && (saved.Ok? || after.recovery.None?)
          else after.save.pending.Some? && after.save.pending.value.key == NextKey(s.save, uuid))
  {
    hide IsPartial;
  }

  lemma SaveKeepsTrail(c: State, command: Command, t: Trail)
    requires ChatInv(c) && TrailInv(c.setup, t) && KeyIsNew(c, command, t) && command.Save? && !Chat.Busy(c)
    ensures TrailInv(Act(c, command).state.setup, NextTrail(c, command, t))
  {
    hide IsPartial, SchedulesOwed;
    if c.seen.Some? && c.seen.value.draft.candidate.Some? {
      var seen := c.seen.value;
      SaveShape(c.setup, seen.draft, seen.review, command.start, command.uuid, command.saved);
      hide SaveDraft, IsSaveOf, ChatInv;
    }
  }

  lemma PublishKeepsTrail(c: State, command: Command, t: Trail)
    requires ChatInv(c) && TrailInv(c.setup, t) && command.Publish? && !Chat.Busy(c)
    ensures TrailInv(Act(c, command).state.setup, NextTrail(c, command, t))
  {
  }

  lemma ApplyKeepsTrail(c: State, command: Command, t: Trail)
    requires ChatInv(c) && TrailInv(c.setup, t) && command.Apply? && !Chat.Busy(c)
    ensures TrailInv(Act(c, command).state.setup, NextTrail(c, command, t))
  {
    hide SchedulesOwed;
  }

  lemma RetrySaveKeepsTrail(c: State, command: Command, t: Trail)
    requires ChatInv(c) && TrailInv(c.setup, t) && command.Retry? && c.operation.OpSave?
    ensures TrailInv(Act(c, command).state.setup, NextTrail(c, command, t))
  {
    hide IsPartial;
  }

  lemma RetryKeepsTrail(c: State, command: Command, t: Trail)
    requires ChatInv(c) && TrailInv(c.setup, t) && command.Retry? && !c.operation.OpSave?
    ensures TrailInv(Act(c, command).state.setup, NextTrail(c, command, t))
  {
    hide SchedulesOwed, RetrySend, Remember, Guard;
  }

  lemma OthersKeepTrail(c: State, command: Command, t: Trail)
    requires TrailInv(c.setup, t)
    requires !(command.Save? || command.Publish? || command.Apply? || command.Retry?) || (StartsWork(command) && Chat.Busy(c))
    ensures TrailInv(Act(c, command).state.setup, NextTrail(c, command, t))
  {
    hide SendMessage, CreateDraft, Patch, Refresh, Touch;
  }

  lemma {:induction false} RunKeepsTrail(c: State, commands: seq<Command>)
    requires Started(c) && KeysAreNew(c, commands)
    ensures TrailInv(RunAll(c, commands).0.setup, TrailOf(c, commands))
    decreases |commands|
  {
    if commands != [] {
      var init, last := commands[..|commands| - 1], commands[|commands| - 1];
      RunKeepsTrail(c, init);
      ChatProofs.RunKeepsInv(c, init);
      var before, t := RunAll(c, init).0, TrailOf(c, init);
      hide Act, TrailInv, ChatInv, NextTrail, KeyIsNew;
      if (!(last.Save? || last.Publish? || last.Apply? || last.Retry?)) || (StartsWork(last) && Chat.Busy(before)) {
        OthersKeepTrail(before, last, t);
      } else {
        match last
        case Save(_, _, _) => SaveKeepsTrail(before, last, t);
        case Publish(_, _, _, _) => PublishKeepsTrail(before, last, t);
        case Apply(_, _) => ApplyKeepsTrail(before, last, t);
        case Retry(_, _, _, _, _) =>
          if before.operation.OpSave? { RetrySaveKeepsTrail(before, last, t); } else { RetryKeepsTrail(before, last, t); }
      }
    }
  }

  /** The record names the unresolved write, or the Save that gave the partial fleet. */
  ghost predicate NamesSomething(s: Setup, t: Trail)
    requires s.recovery.Some?
  {
    if SetupPending(s) then SetupHeld(s).Some? && Describes(s.recovery.value, SetupHeld(s).value) else NamesFleet(s, t)
  }

  /**
    In every run that never reuses a key, a record that is offered names the unresolved write, or
    the Save that gave the partial fleet, exactly when no retry has left it behind by settling its
    write otherwise.
   */
  lemma OfferedRecordNames(c: State, commands: seq<Command>)
    requires Started(c) && KeysAreNew(c, commands) && RecoveryOf(RunAll(c, commands).0.setup).Some?
    ensures NamesSomething(RunAll(c, commands).0.setup, TrailOf(c, commands)) <==> !TrailOf(c, commands).left
  {
    RunKeepsTrail(c, commands);
    ChatProofs.RunKeepsInv(c, commands);
    hide RunAll, TrailOf, KeysAreNew, Describes, IsSaveOf, IsPartial;
  }

  lemma OneMoreCommand(c: State, commands: seq<Command>, command: Command)
    ensures RunAll(c, commands + [command]).0 == Act(RunAll(c, commands).0, command).state
  {
    assert (commands + [command])[..|commands|] == commands;
  }

  /** A review and a Save that leaves a partial fleet, then a Publish whose answer is lost and a retry that succeeds. */
  function LeavingRun(draft: Draft, fleet: Fleet): seq<Command> {
    var none := NoAnswer;
    [Command.ReviewSetup(None, Error(none), Error(none), Ok(draft), Error(none)),
     Command.Save(NoStart, "key of the Save", Ok(fleet)),
     Command.Publish("Team", None, "key of the Publish", Error(none)),
     Command.Retry(Error(none), FollowFailed(none), Error(none), Ok("revision"), Error(none))]
  }

  lemma FourCommands(c: State, run: seq<Command>)
    requires |run| == 4
    ensures RunAll(c, run).0 == Act(Act(Act(Act(c, run[0]).state, run[1]).state, run[2]).state, run[3]).state
  {
    hide Act;
    OneMoreCommand(c, [], run[0]);
    OneMoreCommand(c, [run[0]], run[1]);
    OneMoreCommand(c, [run[0], run[1]], run[2]);
    OneMoreCommand(c, [run[0], run[1], run[2]], run[3]);
    assert [] + [run[0]] == [run[0]] && [run[0]] + [run[1]] == [run[0], run[1]];
    assert [run[0], run[1]] + [run[2]] == [run[0], run[1], run[2]] && [run[0], run[1], run[2]] + [run[3]] == run;
    assert RunAll(c, []).0 == c;
  }

  /** The setup session after the Save of that run. */
  function SavedSetup(fleet: Fleet): Setup {
    Setup(Slot(None, None, None, 1), NewSlot(None), NewSlot(None),
          Some(SaveRecovery("key of the Save", "candidate", "name", "digest", false)),
          Some(SaveRequest("candidate", "name", "digest", NoStart, "key of the Save")), Some(fleet))
  }

  lemma SaveOfTheRun(c: State, draft: Draft, fleet: Fleet)
    requires c == NewState(NewSession(Source("blank", ""), "model", Some("draft"), None), NewSetup(None))
    requires draft == Draft("draft", Some("candidate"), Some(Review("name", None, "digest")), None)
    ensures var c1 := Act(c, LeavingRun(draft, fleet)[0]).state;
      var c2 := Act(c1, LeavingRun(draft, fleet)[1]).state;
      && c2.setup == SavedSetup(fleet) && c2.session.send == NewSlot(None)
      && c2.seen == Some(Seen(draft, draft.review.value, None))
  {
    var c1 := Act(c, LeavingRun(draft, fleet)[0]).state;
    assert c1 == c.(session := Remember(c.session, draft), seen := Some(Seen(draft, draft.review.value, None)));
  }

  lemma PublishOfTheRun(c: State, draft: Draft, fleet: Fleet)
    requires c.setup == SavedSetup(fleet) && c.session.send.pending.None?
    requires c.seen == Some(Seen(draft, Review("name", None, "digest"), None)) && draft.candidate == Some("candidate")
    ensures var c1 := Act(c, LeavingRun(draft, fleet)[2]).state;
      var end := Act(c1, LeavingRun(draft, fleet)[3]).state;
      && !Chat.Busy(end)
      && end.setup.recovery == Some(PublishRecovery("key of the Publish", "candidate", "Team", None)) && end.setup.fleet == Some(fleet)
  {
    var c1 := Act(c, LeavingRun(draft, fleet)[2]).state;
    var op := Pending(0, PublishId(Libraries, PublishBody("candidate", Some("Team")), None), "key of the Publish",
                      PublishRequest("candidate", "Team", None, "key of the Publish"));
    assert c1.setup == c.setup.(publish := Slot(Some(op), None, None, 1),
                                recovery := Some(PublishRecovery("key of the Publish", "candidate", "Team", None)));
    assert c1.operation == OpPublish && c1.session == c.session;
  }

  /** Nothing is unresolved at the end of that run, and the record offered is of the Publish that succeeded. */
  lemma RecordLeftBehind(c: State, draft: Draft, fleet: Fleet)
    requires c == NewState(NewSession(Source("blank", ""), "model", Some("draft"), None), NewSetup(None))
    requires draft == Draft("draft", Some("candidate"), Some(Review("name", None, "digest")), None)
    requires fleet == Fleet("fleet", "pending", "none", "tag", "1", [])
    ensures var end := RunAll(c, LeavingRun(draft, fleet)).0;
      Started(c) && !Chat.Busy(end) && RecoveryOf(end.setup) == Some(PublishRecovery("key of the Publish", "candidate", "Team", None))
  {
    hide Act, RunAll, IsPartial;
    FourCommands(c, LeavingRun(draft, fleet));
    SaveOfTheRun(c, draft, fleet);
    var c2 := Act(Act(c, LeavingRun(draft, fleet)[0]).state, LeavingRun(draft, fleet)[1]).state;
    PublishOfTheRun(c2, draft, fleet);
    PendingIsPartial(fleet);
  }

  lemma PendingIsPartial(fleet: Fleet)
    requires fleet.status == "pending"
    ensures IsPartial(fleet)
  {
  }

  // ---------------------------------------------------------------- what is reported

  /** What the user is told names the unresolved operation. */
  ghost predicate ReportNames(c: State)
    requires Unresolved(c).Some?
  {
    match Report(c)
    case RecordOf(r) => Describes(r, Unresolved(c).value)
    case DraftKey(key, _) => key == Unresolved(c).value.key
    case Nothing => false
  }

  /**
    In every run, the report names the unresolved operation exactly when that is a setup write, or
    a draft write with a key, beside which no setup record is offered.
   */
  lemma ReportNamesExactly(c: State, commands: seq<Command>)
    requires Started(c) && Unresolved(RunAll(c, commands).0).Some?
    ensures var end := RunAll(c, commands).0;
      ReportNames(end) <==> SetupPending(end.setup) || (RecoveryOf(end.setup).None? && Unresolved(end).value.key != "")
  {
    ChatProofs.RunKeepsInv(c, commands);
    hide RunAll, IsPartial;
  }

  /** The review and the Save of the run above, then a message whose answer is lost. */
  function UnreportedRun(draft: Draft, fleet: Fleet): seq<Command> {
    [LeavingRun(draft, fleet)[0], LeavingRun(draft, fleet)[1],
     Command.Message("hello", "key of the message", Error(NoAnswer), FollowFailed(NoAnswer))]
  }

  lemma MessageOfTheRun(c: State, fleet: Fleet, message: Command)
    requires c.setup == SavedSetup(fleet) && c.session.send == NewSlot(None)
    requires message == Command.Message("hello", "key of the message", Error(NoAnswer), FollowFailed(NoAnswer))
    ensures var end := Act(c, message).state;
      && end.setup == SavedSetup(fleet) && end.session.send.pending.Some?
      && end.session.send.pending.value.key == "key of the message" && end.session.send.pending.value.identity.MessageId?
  {
  }

  /** A partial fleet's record hides the lost message: its key is never shown. */
  lemma MessageUnreported(c: State, draft: Draft, fleet: Fleet)
    requires c == NewState(NewSession(Source("blank", ""), "model", Some("draft"), None), NewSetup(None))
    requires draft == Draft("draft", Some("candidate"), Some(Review("name", None, "digest")), None)
    requires fleet == Fleet("fleet", "pending", "none", "tag", "1", [])
    ensures var end := RunAll(c, UnreportedRun(draft, fleet)).0;
      && Started(c) && Unresolved(end).Some? && Unresolved(end).value.key == "key of the message" && !ReportNames(end)
      && Report(end) == RecordOf(SaveRecovery("key of the Save", "candidate", "name", "digest", false))
  {
    hide Act, RunAll, IsPartial;
    var run := UnreportedRun(draft, fleet);
    OneMoreCommand(c, [], run[0]);
    OneMoreCommand(c, [run[0]], run[1]);
    OneMoreCommand(c, [run[0], run[1]], run[2]);
    assert [] + [run[0]] == [run[0]] && [run[0]] + [run[1]] == [run[0], run[1]] && [run[0], run[1]] + [run[2]] == run;
    NothingRun(c);
    SaveOfTheRun(c, draft, fleet);
    var c2 := RunAll(c, [run[0], run[1]]).0;
    MessageOfTheRun(c2, fleet, run[2]);
    PendingIsPartial(fleet);
  }

  lemma NothingRun(c: State)
    ensures RunAll(c, []).0 == c
  {
  }
}
