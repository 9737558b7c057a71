/** A later invocation rebuilds an uncertain setup write from the recovery record of the first one. */
module ChatRecovery {
  import opened Options
  import opened RetainedRequests
  import opened Chat
  import opened ChatProofs
  import opened ChatClient
  import opened Decimals

  // ---------------------------------------------------------------- identifiers

  predicate LowerHex(c: char) { IsDigit(c) || 'a' <= c <= 'f' }

  /** A version 7 identifier in its one canonical, lower-case spelling. */
  predicate ValidId(s: string) {
    && |s| == 36
    && (forall i :: 0 <= i < 36 ==> if i in {8, 13, 18, 23} then s[i] == '-' else LowerHex(s[i]))
    && s[14] == '7' && s[19] in "89ab"
  }

  const EXAMPLE_ID := "0192a3b4-c5d6-7e8f-9012-345678901234"

  lemma ExampleIsValid()
    ensures ValidId(EXAMPLE_ID)
  {
  }

  predicate PositiveDecimal(s: string) { s != "" && AllDigits(s) && s[0] != '0' }

  // ---------------------------------------------------------------- an invocation

  /** The arguments of one invocation. An absent argument is `None`. */
  datatype Arguments = Arguments(
    operationId: Option<string>, candidateId: Option<string>, setupTag: Option<string>,
    publishTo: Option<string>, libraryTag: Option<string>,
    draftId: Option<string>, model: Option<string>, message: Option<string>,
    fleet: Option<string>, setupRevision: Option<string>, library: Option<string>, revision: Option<string>, definition: Option<string>,
    noInput: bool, review: bool, save: bool, apply: bool, stop: bool,
    name: Option<string>, digest: Option<string>, runNow: Option<string>, publish: Option<string>)

  /** An empty argument counts as absent. */
  predicate RecoversSetup(a: Arguments) { NonEmpty(a.operationId) && NonEmpty(a.candidateId) }

  predicate CarriesSetup(a: Arguments) { a.definition.Some? || NonEmpty(a.library) || NonEmpty(a.fleet) }

  function Count(b: bool): nat { if b then 1 else 0 }

  predicate IdOk(id: Option<string>) { NonEmpty(id) ==> ValidId(id.value) }

  /** The guards an invocation passes before anything is read or sent. */
  predicate Accepted(a: Arguments) {
    && IdOk(a.operationId) && IdOk(a.candidateId) && IdOk(a.draftId) && IdOk(a.fleet) && IdOk(a.revision)
    && (NonEmpty(a.operationId) ==>
         && a.noInput && !a.stop && !a.review
         && (if RecoversSetup(a) then a.message.None? && (a.save || a.apply || NonEmpty(a.publish))
             else (a.message.Some? || CarriesSetup(a)) && !a.save && !a.apply && !NonEmpty(a.publish)))
    && (NonEmpty(a.candidateId) ==> NonEmpty(a.operationId))
    && (NonEmpty(a.setupTag) ==> RecoversSetup(a) && a.apply)
    && NonEmpty(a.publishTo) == NonEmpty(a.libraryTag) && (NonEmpty(a.publishTo) ==> NonEmpty(a.publish))
    && (RecoversSetup(a) || NonEmpty(a.draftId) || NonEmpty(a.model))
    && (NonEmpty(a.draftId) ==> (NonEmpty(a.fleet) ==> RecoversSetup(a)) && !NonEmpty(a.library) && a.definition.None? && !NonEmpty(a.model))
    && Count(NonEmpty(a.fleet)) + Count(NonEmpty(a.library)) + Count(a.definition.Some?) <= 1
    && (NonEmpty(a.fleet) && !RecoversSetup(a) ==> a.setupRevision.Some? && PositiveDecimal(a.setupRevision.value))
    && (NonEmpty(a.library) ==> NonEmpty(a.revision))
    && (NonEmpty(a.setupRevision) ==> NonEmpty(a.fleet)) && (NonEmpty(a.revision) ==> NonEmpty(a.library))
    && (a.runNow.Some? ==> a.save)
    && Count(a.save) + Count(a.apply) + Count(NonEmpty(a.publish)) <= 1
  }

  predicate Given(s: Option<string>) { s.Some? && s.value != "" }

  /** Every identifier that is given is canonical, at most one action and one source are, and what belongs together comes together. */
  predicate GoesTogether(a: Arguments) {
    && (forall id :: id in {a.operationId, a.candidateId, a.draftId, a.fleet, a.revision} && Given(id) ==> ValidId(id.value))
    && !(a.save && a.apply) && !(a.save && Given(a.publish)) && !(a.apply && Given(a.publish))
    && !(Given(a.fleet) && Given(a.library)) && !(Given(a.fleet) && a.definition.Some?) && !(Given(a.library) && a.definition.Some?)
    && (Given(a.publishTo) <==> Given(a.libraryTag)) && (Given(a.publishTo) ==> Given(a.publish))
    && (Given(a.library) <==> Given(a.revision)) && (Given(a.setupRevision) ==> Given(a.fleet)) && (a.runNow.Some? ==> a.save)
  }

  predicate OneShot(a: Arguments) { a.noInput && !a.stop && !a.review }

  /** A known draft brings its source and model along; without one a model is needed, and a fleet needs its revision. */
  predicate NamesDraft(a: Arguments) {
    if Given(a.draftId) then !Given(a.fleet) && !Given(a.library) && a.definition.None? && !Given(a.model)
    else Given(a.model) && (Given(a.fleet) ==> a.setupRevision.Some? && PositiveDecimal(a.setupRevision.value))
  }

  /** The recovery of one setup write, with no message beside it. */
  predicate IsSetupRecovery(a: Arguments) {
    && Given(a.operationId) && Given(a.candidateId) && OneShot(a) && a.message.None?
    && (a.save || a.apply || Given(a.publish)) && (Given(a.setupTag) ==> a.apply)
    && (Given(a.draftId) ==> !Given(a.library) && a.definition.None? && !Given(a.model))
  }

  /** The repetition of one draft write: a message, or a draft opened from a source. */
  predicate IsDraftRecovery(a: Arguments) {
    && Given(a.operationId) && !Given(a.candidateId) && OneShot(a) && !a.save && !a.apply && !Given(a.publish) && !Given(a.setupTag)
    && (a.message.Some? || Given(a.fleet) || Given(a.library) || a.definition.Some?)
    && NamesDraft(a)
  }

  predicate IsOrdinary(a: Arguments) { !Given(a.operationId) && !Given(a.candidateId) && !Given(a.setupTag) && NamesDraft(a) }

  /** An accepted invocation recovers one setup write, repeats one draft write, or is an ordinary one, and nothing else is accepted. */
  lemma AcceptedExactly(a: Arguments)
    ensures Accepted(a) <==> GoesTogether(a) && (IsSetupRecovery(a) || IsDraftRecovery(a) || IsOrdinary(a))
  {
    hide ValidId, PositiveDecimal;
  }

  function KeyFromArguments(a: Arguments): Option<RecoveryKey> {
    if !RecoversSetup(a) then None
    else Some(RecoveryKey(if a.save then SaveAction else if a.apply then ApplyAction else PublishAction, a.operationId.value))
  }

  /** What the world answers: the three calls, and whether a named Definition file can be read. */
  datatype Answers = Answers(saved: Answer<Fleet>, published: Answer<string>, applied: Answer<seq<string>>, definitionReads: bool)

  /** Recovery on a given setup session: the session after it and what it sent. */
  function RecoverSetup(setup: Setup, a: Arguments, uuid: string, answers: Answers): (Setup, seq<Request>) {
    if !NonEmpty(a.candidateId) then (setup, [])
    else if a.save then
      if !NonEmpty(a.name) || !NonEmpty(a.digest) then (setup, [])
      else
        var start := if a.runNow.None? then NoStart else RunNow(a.runNow.value);
        var step := SaveCandidate(setup, a.candidateId.value, a.name.value, a.digest.value, start, uuid, answers.saved);
        (step.setup, step.sent)
    else if a.apply then
      if !NonEmpty(a.fleet) || !NonEmpty(a.digest) || !NonEmpty(a.setupTag) then (setup, [])
      else
        var step := ApplyCandidate(setup, a.candidateId.value, a.fleet.value, a.digest.value, a.setupTag.value, uuid, answers.applied);
        (step.setup, step.sent)
    else if !NonEmpty(a.publish) then (setup, [])
    else
      var target := if NonEmpty(a.publishTo) && NonEmpty(a.libraryTag) then Some(Target(a.publishTo.value, a.libraryTag.value)) else None;
      var step := PublishCandidate(setup, a.candidateId.value, a.publish.value, target, uuid, answers.published);
      (step.setup, step.sent)
  }

  method Recover(setup: SetupSession, a: Arguments, uuid: string, answers: Answers) returns (ghost sent: seq<Request>)
    requires setup.Valid()
    modifies setup, setup.save, setup.publish, setup.apply
    ensures (setup.State(), sent) == RecoverSetup(old(setup.State()), a, uuid, answers)
  {
    sent := [];
    if !NonEmpty(a.candidateId) { return; }
    var candidate := a.candidateId.value;
    if a.save {
      if !NonEmpty(a.name) || !NonEmpty(a.digest) { return; }
      var start := if a.runNow.None? then NoStart else RunNow(a.runNow.value);
      var saved, written := setup.SaveCandidate(candidate, a.name.value, a.digest.value, start, uuid, answers.saved);
      return written;
    }
    if a.apply {
      if !NonEmpty(a.fleet) || !NonEmpty(a.digest) || !NonEmpty(a.setupTag) { return; }
      var applied, written := setup.ApplyCandidate(candidate, a.fleet.value, a.digest.value, a.setupTag.value, uuid, answers.applied);
      return written;
    }
    if !NonEmpty(a.publish) { return; }
    var target := if NonEmpty(a.publishTo) && NonEmpty(a.libraryTag) then Some(Target(a.publishTo.value, a.libraryTag.value)) else None;
    var published, written := setup.PublishCandidate(candidate, a.publish.value, target, uuid, answers.published);
    return written;
  }

  /**
    What an invocation comes to: it is refused and sends nothing, it goes on to the ordinary
    actions, or a fresh session that holds only the recovered key performs the one action.
   */
  datatype Invocation = Refused | Ordinary | Recovered(setup: Setup, sent: seq<Request>)

  function InvocationOf(a: Arguments, uuid: string, answers: Answers): Invocation {
    if !Accepted(a) || (a.definition.Some? && !answers.definitionReads) then Invocation.Refused
    else if !RecoversSetup(a) then Ordinary
    else
      var (setup, sent) := RecoverSetup(NewSetup(KeyFromArguments(a)), a, uuid, answers);
      Recovered(setup, sent)
  }

  function SentBy(i: Invocation): seq<Request> { if i.Recovered? then i.sent else [] }

  datatype Branch = Stopped | GoesOn | Recovers

  /** The invocation up to its ordinary actions; `printed` is the record a recovery leaves for a further one, if any. */
  method Invoke(a: Arguments, uuid: string, answers: Answers) returns (branch: Branch, printed: Option<Recovery>, ghost sent: seq<Request>)
    ensures sent == SentBy(InvocationOf(a, uuid, answers))
    ensures match InvocationOf(a, uuid, answers)
      case Refused => branch == Stopped && printed == None
      case Ordinary => branch == GoesOn && printed == None
      case Recovered(setup, _) => branch == Recovers && printed == RecoveryOf(setup)
  {
    if !Accepted(a) || (a.definition.Some? && !answers.definitionReads) { return Stopped, None, []; }
    var key := KeyFromArguments(a);
    if key.None? { return GoesOn, None, []; }
    var setup := new SetupSession(key);
    sent := Recover(setup, a, uuid, answers);
    branch, printed := Recovers, setup.Recovery();
  }

  const NOTHING := Arguments(None, None, None, None, None, None, None, None, None, None, None, None, None,
                             false, false, false, false, false, None, None, None, None)

  /** The arguments the printed record asks for; the run message stays with the caller. */
  function ArgumentsFor(r: Recovery, message: string): Arguments {
    match r
    case SaveRecovery(key, candidate, name, digest, runs) =>
      NOTHING.(operationId := Some(key), candidateId := Some(candidate), noInput := true, save := true, name := Some(name),
               digest := Some(digest), runNow := if runs then Some(message) else None)
    case PublishRecovery(key, candidate, title, target) =>
      NOTHING.(operationId := Some(key), candidateId := Some(candidate), noInput := true, publish := Some(title),
               publishTo := if target.Some? then Some(target.value.id) else None,
               libraryTag := if target.Some? then Some(target.value.etag) else None)
    case ApplyRecovery(key, candidate, fleet, digest, tag) =>
      NOTHING.(operationId := Some(key), candidateId := Some(candidate), noInput := true, apply := true, fleet := Some(fleet),
               digest := Some(digest), setupTag := Some(tag))
  }

  /** Identifiers are canonical where the invocation asks for that, and no argument the record needs is empty. */
  predicate Recoverable(r: Recovery) {
    && ValidId(r.key) && ValidId(r.candidate)
    && match r
       case SaveRecovery(_, _, name, digest, _) => name != "" && digest != ""
       case PublishRecovery(_, _, title, target) => title != "" && (target.Some? ==> target.value.id != "" && target.value.etag != "")
       case ApplyRecovery(_, _, fleet, digest, tag) => ValidId(fleet) && digest != "" && tag != ""
  }

  /** A target with an empty id and an empty tag looks like no target at all. */
  predicate LosesTarget(r: Recovery) {
    && r.PublishRecovery? && ValidId(r.key) && ValidId(r.candidate) && r.title != ""
    && r.target == Some(Target("", ""))
  }

  /** The message a pending Save carries, if it runs the fleet at once. */
  predicate CallerMessage(op: Op, message: string) {
    op.request.body.SaveBody? && op.request.body.start.RunNow? ==> op.request.body.start.message == message
  }

  function OutcomeFor(r: Recovery, answers: Answers): Outcome {
    match r
    case SaveRecovery(_, _, _, _, _) => OutcomeOf(answers.saved)
    case PublishRecovery(_, _, _, _) => OutcomeOf(answers.published)
    case ApplyRecovery(_, _, _, _, _) => OutcomeOf(answers.applied)
  }

  /**
    What an invocation sends, for every record. The last case needs a target of two empty fields,
    which no command builds.
   */
  ghost predicate SendsExactly(r: Recovery, op: Op, sent: seq<Request>) {
    if Recoverable(r) then sent == [op.request]
    else if LosesTarget(r) then sent == [PublishRequest(r.candidate, r.title, None, r.key)] && sent != [op.request]
    else sent == []
  }

  /** The recovered Save has succeeded with a fleet that still owes work. */
  predicate LeavesPartialFleet(r: Recovery, answers: Answers) {
    r.SaveRecovery? && answers.saved.Ok? && IsPartial(answers.saved.value)
  }

  /**
    After a recovery: the operation is held again exactly while its outcome stays unknown, and
    the same record is left exactly then or when a Save succeeded with a partial fleet.
   */
  ghost predicate LeavesExactly(r: Recovery, op: Op, answers: Answers, setup: Setup) {
    && SetupHeld(setup) == (if Decisive(OutcomeFor(r, answers)) then None else Some(op.(serial := 0)))
    && RecoveryOf(setup) == (if !Decisive(OutcomeFor(r, answers)) || LeavesPartialFleet(r, answers) then Some(r) else None)
  }

  /** What fed the record and the caller's message, an invocation does. */
  ghost predicate RecoversExactly(r: Recovery, op: Op, answers: Answers, i: Invocation) {
    && SendsExactly(r, op, SentBy(i))
    && (SentBy(i) == [op.request] <==> Recoverable(r))
    && (Recoverable(r) ==> i.Recovered? && LeavesExactly(r, op, answers, i.setup))
  }

  lemma SaveIsExact(r: Recovery, op: Op, message: string, uuid: string, answers: Answers)
    requires r.SaveRecovery? && Describes(r, op) && CallerMessage(op, message)
    ensures RecoversExactly(r, op, answers, InvocationOf(ArgumentsFor(r, message), uuid, answers))
  {
    var a := ArgumentsFor(r, message);
    hide ValidId;
    NoIdIsEmpty(r.key);
    NoIdIsEmpty(r.candidate);
    assert Accepted(a) <==> ValidId(r.key) && ValidId(r.candidate);
  }

  lemma PublishIsExact(r: Recovery, op: Op, message: string, uuid: string, answers: Answers)
    requires r.PublishRecovery? && Describes(r, op)
    ensures RecoversExactly(r, op, answers, InvocationOf(ArgumentsFor(r, message), uuid, answers))
  {
    var a := ArgumentsFor(r, message);
    hide ValidId;
    NoIdIsEmpty(r.key);
    NoIdIsEmpty(r.candidate);
    assert Accepted(a) && RecoversSetup(a) <==> Recoverable(r) || LosesTarget(r);
  }

  lemma ApplyIsExact(r: Recovery, op: Op, message: string, uuid: string, answers: Answers)
    requires r.ApplyRecovery? && Describes(r, op)
    ensures RecoversExactly(r, op, answers, InvocationOf(ArgumentsFor(r, message), uuid, answers))
  {
    var a := ArgumentsFor(r, message);
    hide ValidId;
    NoIdIsEmpty(r.key);
    NoIdIsEmpty(r.candidate);
    NoIdIsEmpty(r.fleet);
  }

  lemma NoIdIsEmpty(s: string)
    ensures ValidId(s) ==> s != ""
  {
  }

  /**
    A fresh invocation fed the record and the caller's own run message sends exactly the original
    request, with the same path, headers, key and body, if and only if the record's identifiers
    are canonical and no argument it needs is empty. It then holds the operation again exactly
    while the outcome stays unknown, and leaves the same record exactly then or when a Save
    succeeded with a partial fleet.
   */
  lemma RecoveryIsExact(r: Recovery, op: Op, message: string, uuid: string, answers: Answers)
    requires Describes(r, op) && CallerMessage(op, message)
    ensures RecoversExactly(r, op, answers, InvocationOf(ArgumentsFor(r, message), uuid, answers))
  {
    hide InvocationOf, Describes, RecoversExactly;
    match r
    case SaveRecovery(_, _, _, _, _) => SaveIsExact(r, op, message, uuid, answers);
    case PublishRecovery(_, _, _, _) => PublishIsExact(r, op, message, uuid, answers);
    case ApplyRecovery(_, _, _, _, _) => ApplyIsExact(r, op, message, uuid, answers);
  }

  // ---------------------------------------------------------------- records that fail

  function SaveOf(r: Recovery): Op
    requires r.SaveRecovery?
  {
    var start := if r.runs then RunNow("") else NoStart;
    Pending(0, SaveId(SaveBody(r.candidate, r.name, r.digest, start)), r.key, SaveRequest(r.candidate, r.name, r.digest, start, r.key))
  }

  function ApplyOf(r: Recovery): Op
    requires r.ApplyRecovery?
  {
    Pending(0, ApplyId(FleetRevisions(r.fleet), ApplyBody(r.candidate, r.digest), r.tag), r.key,
            ApplyRequest(r.candidate, r.fleet, r.digest, r.tag, r.key))
  }

  /** Nothing is sent for this record, whatever the world answers. */
  ghost predicate Unrecoverable(r: Recovery) {
    forall uuid, answers :: SentBy(InvocationOf(ArgumentsFor(r, ""), uuid, answers)) == []
  }

  lemma SaveFails(r: Recovery)
    requires r.SaveRecovery? && !Recoverable(r)
    ensures Unrecoverable(r)
  {
    hide InvocationOf;
    forall uuid, answers ensures SentBy(InvocationOf(ArgumentsFor(r, ""), uuid, answers)) == [] {
      RecoveryIsExact(r, SaveOf(r), "", uuid, answers);
    }
  }

  lemma ApplyFails(r: Recovery)
    requires r.ApplyRecovery? && !Recoverable(r)
    ensures Unrecoverable(r)
  {
    hide InvocationOf;
    forall uuid, answers ensures SentBy(InvocationOf(ArgumentsFor(r, ""), uuid, answers)) == [] {
      RecoveryIsExact(r, ApplyOf(r), "", uuid, answers);
    }
  }

  /**
    Records the wire allows and no invocation recovers: a candidate or fleet identifier of another
    shape, an empty instance name, and an empty review digest.
   */
  lemma RecordsThatFail()
    ensures ValidId(EXAMPLE_ID)
    ensures Unrecoverable(SaveRecovery(EXAMPLE_ID, "abc", "name", "digest", false))
    ensures Unrecoverable(SaveRecovery(EXAMPLE_ID, EXAMPLE_ID, "", "digest", false))
    ensures Unrecoverable(SaveRecovery(EXAMPLE_ID, EXAMPLE_ID, "name", "", false))
    ensures Unrecoverable(ApplyRecovery(EXAMPLE_ID, EXAMPLE_ID, "fleet", "digest", "tag"))
    ensures Unrecoverable(ApplyRecovery(EXAMPLE_ID, EXAMPLE_ID, EXAMPLE_ID, "", "tag"))
  {
    ExampleIsValid();
    hide Unrecoverable;
    SaveFails(SaveRecovery(EXAMPLE_ID, "abc", "name", "digest", false));
    SaveFails(SaveRecovery(EXAMPLE_ID, EXAMPLE_ID, "", "digest", false));
    SaveFails(SaveRecovery(EXAMPLE_ID, EXAMPLE_ID, "name", "", false));
    ApplyFails(ApplyRecovery(EXAMPLE_ID, EXAMPLE_ID, "fleet", "digest", "tag"));
    ApplyFails(ApplyRecovery(EXAMPLE_ID, EXAMPLE_ID, EXAMPLE_ID, "", "tag"));
  }

  // ---------------------------------------------------------------- over runs

  /** For the uncertain setup write of every run, what recovery does and when it is exact. */
  lemma EveryUncertainWriteIsRecovered(c: State, commands: seq<Command>, message: string, uuid: string, answers: Answers)
    requires Started(c) && SetupPending(RunAll(c, commands).0.setup)
    ensures var setup := RunAll(c, commands).0.setup;
      && RecoveryOf(setup).Some? && SetupHeld(setup).Some?
      && var r, op := RecoveryOf(setup).value, SetupHeld(setup).value;
         CallerMessage(op, message) ==> RecoversExactly(r, op, answers, InvocationOf(ArgumentsFor(r, message), uuid, answers))
  {
    RecoveryNamesIt(c, commands);
    hide RunAll, InvocationOf, RecoversExactly, Describes;
    var setup := RunAll(c, commands).0.setup;
    if CallerMessage(SetupHeld(setup).value, message) {
      RecoveryIsExact(RecoveryOf(setup).value, SetupHeld(setup).value, message, uuid, answers);
    }
  }
}
