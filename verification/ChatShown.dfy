/** The review shown, the Save a retry replays and how actions end, told from a run's actions and their answers alone. */
module ChatShown {
  import opened Options
  import opened RetainedRequests
  import opened Chat
  import opened ChatProofs
  import opened ChatWrites

  // ---------------------------------------------------------------- the review shown

  /** A review beside which the fleet is read for its tag. */
  predicate Linked(draft: Draft) {
    && draft.linkedFleet.Some? && draft.linkedFleet.value != ""
    && draft.review.Some? && draft.review.value.targetRevision.Some? && draft.review.value.targetRevision.value != ""
  }

  /** The action shows a review: of the draft read last, and for a linked one only beside a fleet at its target. */
  ghost predicate ShowsReview(c: State, command: Command) {
    && command.ReviewSetup? && Unresolved(c).None? && Remembers(c)
    && (command.name.Some? ==> command.read.Ok? && command.patched.Ok? && command.patched.value.id != "")
    && command.reread.Ok? && command.reread.value.review.Some?
    && (Linked(command.reread.value) ==>
         command.fleet.Ok? && Some(command.fleet.value.setupRevision) == command.reread.value.review.value.targetRevision)
  }

  ghost function Shown(c: State, command: Command): Seen
    requires ShowsReview(c, command)
  {
    var draft := command.reread.value;
    Seen(draft, draft.review.value, if Linked(draft) then Some(command.fleet.value.setupTag) else None)
  }

  /** The action makes a review shown before it unusable. */
  ghost predicate ForgetsReview(c: State, command: Command) {
    match command
    case Message(_, _, _, _) => Unresolved(c).None?
    case Create(_, _) => Unresolved(c).None?
    case Model(read, patched) => Unresolved(c).None? && Remembers(c) && read.Ok? && patched.Ok?
    case Apply(_, applied) => MayWrite(c, command) && applied.Ok?
    case Retry(_, _, _, _, applied) => c.operation == OpApply && c.setup.apply.pending.Some? && applied.Ok?
    case Remove(touched) => Remembers(c) && touched.Ok?
    case Clear => true
    case _ => false
  }

  ghost function LastReview(c: State, commands: seq<Command>): Option<Seen>
    decreases |commands|
  {
    if commands == [] then None
    else
      var init, last := commands[..|commands| - 1], commands[|commands| - 1];
      var before := RunAll(c, init).0;
      if ShowsReview(before, last) then Some(Shown(before, last))
      else if ForgetsReview(before, last) then None
      else LastReview(c, init)
  }

  ghost predicate SeenStep(c: State, command: Command) {
    Act(c, command).state.seen ==
      if ShowsReview(c, command) then Some(Shown(c, command)) else if ForgetsReview(c, command) then None else c.seen
  }

  lemma ReviewSeen(c: State, command: Command)
    requires command.ReviewSetup? && Unresolved(c).None?
    ensures SeenStep(c, command)
  {
    hide AccessLost;
  }

  lemma WritesSeen(c: State, command: Command)
    requires ChatInv(c) && Unresolved(c).None? && (command.Message? || command.Create? || command.Save? || command.Publish?)
    ensures SeenStep(c, command)
  {
    hide SendMessage, CreateDraft, SaveDraft, PublishDraft;
  }

  lemma ApplySeen(c: State, command: Command)
    requires ChatInv(c) && Unresolved(c).None? && command.Apply?
    ensures SeenStep(c, command)
  {
    hide SchedulesOwed;
  }

  lemma RetrySeen(c: State, command: Command)
    requires ChatInv(c) && command.Retry?
    ensures SeenStep(c, command)
  {
    hide RetrySend, Progress, RetryPublish, SchedulesOwed;
  }

  lemma OthersSeen(c: State, command: Command)
    requires !(StartsWork(command) && Unresolved(c).Some?)
    requires command.Model? || command.Stop? || command.History? || command.Remove? || command.Clear?
    ensures SeenStep(c, command)
  {
    hide AccessLost;
  }

  lemma RefusedSeen(c: State, command: Command)
    requires StartsWork(command) && Unresolved(c).Some?
    ensures SeenStep(c, command)
  {
    NewWorkIsRefused(c, command);
    hide Act;
  }

  lemma EveryActSeen(c: State, command: Command)
    requires ChatInv(c)
    ensures SeenStep(c, command)
  {
    hide SeenStep, ChatInv, Unresolved;
    if StartsWork(command) && Unresolved(c).Some? { RefusedSeen(c, command); }
    else if command.ReviewSetup? { ReviewSeen(c, command); }
    else if command.Message? || command.Create? || command.Save? || command.Publish? { WritesSeen(c, command); }
    else if command.Apply? { ApplySeen(c, command); }
    else if command.Retry? { RetrySeen(c, command); }
    else { OthersSeen(c, command); }
  }

  /**
    In every run, the review that a Save, Publish or Apply carries is the last one shown, provided
    that since then no message or creation was started, no model change, application or removal
    succeeded, and nothing was cleared; otherwise there is none.
   */
  lemma {:induction false} ShownIsLastReview(c: State, commands: seq<Command>)
    requires Started(c)
    ensures RunAll(c, commands).0.seen == LastReview(c, commands)
    decreases |commands|
  {
    if commands != [] {
      var init := commands[..|commands| - 1];
      ShownIsLastReview(c, init);
      ChatProofs.RunKeepsInv(c, init);
      EveryActSeen(RunAll(c, init).0, commands[|commands| - 1]);
      hide Act, ChatInv, ShowsReview, ForgetsReview;
    }
  }

  // ---------------------------------------------------------------- the Save a retry replays

  ghost function LastSave(c: State, commands: seq<Command>): Option<Request>
    decreases |commands|
  {
    if commands == [] then None
    else
      var init, last := commands[..|commands| - 1], commands[|commands| - 1];
      var before := RunAll(c, init).0;
      if last.Save? && MayWrite(before, last) then Some(WriteOf(before, last))
      else if last.Clear? || (last.Remove? && Remembers(before) && last.touched.Ok?) then None
      else LastSave(c, init)
  }

  ghost predicate SaveStep(c: State, command: Command) {
    && Act(c, command).state.setup.continueSave ==
         (if command.Save? && MayWrite(c, command) then Some(WriteOf(c, command))
          else if command.Clear? || (command.Remove? && Remembers(c) && command.touched.Ok?) then None
          else c.setup.continueSave)
    && (Act(c, command).state.setup.fleet.Some? ==> Act(c, command).state.setup.continueSave.Some?)
    && (Act(c, command).state.setup.save.pending.Some? ==> Act(c, command).state.setup.continueSave.Some?)
  }

  ghost predicate SaveKnown(c: State) {
    (c.setup.fleet.Some? || c.setup.save.pending.Some?) ==> c.setup.continueSave.Some?
  }

  lemma SaveSteps(c: State, command: Command)
    requires ChatInv(c) && SaveKnown(c) && Unresolved(c).None? && command.Save?
    ensures SaveStep(c, command)
  {
    hide IsPartial;
  }

  lemma RetrySteps(c: State, command: Command)
    requires SaveKnown(c) && command.Retry?
    ensures SaveStep(c, command)
  {
    hide RetrySend, IsPartial, SchedulesOwed;
  }

  lemma OtherSteps(c: State, command: Command)
    requires SaveKnown(c) && !command.Save? && !command.Retry?
    ensures SaveStep(c, command)
  {
    hide SendMessage, CreateDraft, Refresh, Patch, SchedulesOwed;
  }

  lemma EveryActSaves(c: State, command: Command)
    requires ChatInv(c) && SaveKnown(c)
    ensures SaveStep(c, command)
  {
    hide SaveStep, ChatInv, SaveKnown, Act;
    if command.Retry? { RetrySteps(c, command); }
    else if !command.Save? { OtherSteps(c, command); }
    else if Unresolved(c).None? { SaveSteps(c, command); }
    else { RefusedSave(c, command); }
  }

  lemma RefusedSave(c: State, command: Command)
    requires SaveKnown(c) && command.Save? && Unresolved(c).Some?
    ensures SaveStep(c, command)
  {
    NewWorkIsRefused(c, command);
    hide Act;
  }

  lemma {:induction false} ReplayableIsLastSave(c: State, commands: seq<Command>)
    requires Started(c)
    ensures RunAll(c, commands).0.setup.continueSave == LastSave(c, commands) && SaveKnown(RunAll(c, commands).0)
    decreases |commands|
  {
    if commands != [] {
      var init := commands[..|commands| - 1];
      ReplayableIsLastSave(c, init);
      ChatProofs.RunKeepsInv(c, init);
      EveryActSaves(RunAll(c, init).0, commands[|commands| - 1]);
      hide Act, ChatInv, MayWrite, WriteOf;
    }
  }

  /**
    In every run, a retry with nothing unresolved sends the last Save again, exactly as it was, if
    Save is the operation and nothing has cleared it since; otherwise it is refused and changes
    nothing. So the branch that only reads the fleet is never taken.
   */
  lemma SettledRetryReplays(c: State, commands: seq<Command>, command: Command)
    requires Started(c) && command.Retry? && Unresolved(RunAll(c, commands).0).None?
    ensures var before := RunAll(c, commands).0;
      var acted, save := Act(before, command), LastSave(c, commands);
      if before.operation != OpSave || save.None? then acted == Acted(before, Refused, [])
      else acted.events == [Wrote(save.value, true)] && acted.ended == if command.saved.Ok? then Completed else Broke
  {
    ReplayableIsLastSave(c, commands);
    hide RunAll, LastSave, IsPartial, SchedulesOwed;
  }

  // ---------------------------------------------------------------- how actions end

  /** The answer to the write an action makes, as far as its end depends on it. */
  predicate Answered(command: Command)
    requires command.Message? || command.Create? || command.Save? || command.Publish? || command.Apply?
  {
    match command
    case Message(_, _, written, followed) => written.Ok? && followed.Followed?
    case Create(_, written) => written.Ok?
    case Save(_, _, saved) => saved.Ok?
    case Publish(_, _, _, published) => published.Ok?
    case Apply(_, applied) => applied.Ok?
  }

  /** The fleet runs as asked: active, not waiting to start, and with every schedule in place. */
  predicate Whole(fleet: Fleet) {
    && fleet.status == "active" && fleet.startState !in {"pending", "blocked"}
    && forall i :: 0 <= i < |fleet.schedules| ==> fleet.schedules[i] == "synced"
  }

  /** The writes end as they are answered; the flag says whether the last thing that completed left work undone. */
  ghost predicate EndsAsAnswered(c: State, command: Command) {
    var acted := Act(c, command);
    && (command.Message? || command.Create? || command.Save? || command.Publish? || command.Apply? ==>
         acted.ended == if !MayWrite(c, command) then Refused else if Answered(command) then Completed else Broke)
    && acted.state.partial ==
         if acted.ended != Completed then c.partial
         else match command
           case Message(_, _, _, followed) => followed.Followed? && !followed.completed
           case Save(_, _, saved) => saved.Ok? && !Whole(saved.value)
           case Apply(_, applied) => applied.Ok? && exists i :: 0 <= i < |applied.value| && applied.value[i] != "synced"
           case Retry(_, followed, saved, _, applied) =>
             (match c.operation
              case OpSend => followed.Followed? && !followed.completed
              case OpSave => saved.Ok? && !Whole(saved.value)
              case OpApply => applied.Ok? && exists i :: 0 <= i < |applied.value| && applied.value[i] != "synced"
              case _ => c.partial)
           case _ => c.partial
  }

  lemma WritesEnd(c: State, command: Command)
    requires ChatInv(c) && Unresolved(c).None?
    requires command.Message? || command.Create? || command.Save? || command.Publish? || command.Apply?
    ensures EndsAsAnswered(c, command)
  {
  }

  lemma RetriesEnd(c: State, command: Command)
    requires ChatInv(c) && command.Retry?
    ensures EndsAsAnswered(c, command)
  {
  }

  lemma OthersEnd(c: State, command: Command)
    requires !(command.Message? || command.Create? || command.Save? || command.Publish? || command.Apply? || command.Retry?)
    ensures EndsAsAnswered(c, command)
  {
    hide Patch, Refresh, Touch;
  }

  lemma RefusedEnd(c: State, command: Command)
    requires StartsWork(command) && Unresolved(c).Some?
    ensures EndsAsAnswered(c, command)
  {
    NewWorkIsRefused(c, command);
    hide Act;
  }

  /** In every run each action ends as it is answered, and the flag follows what completed last. */
  lemma ActionsEnd(c: State, commands: seq<Command>, command: Command)
    requires Started(c)
    ensures EndsAsAnswered(RunAll(c, commands).0, command)
  {
    ChatProofs.RunKeepsInv(c, commands);
    var before := RunAll(c, commands).0;
    hide RunAll, ChatInv, EndsAsAnswered, Unresolved;
    if StartsWork(command) && Unresolved(before).Some? { RefusedEnd(before, command); }
    else if command.Retry? { RetriesEnd(before, command); }
    else if command.Message? || command.Create? || command.Save? || command.Publish? || command.Apply? { WritesEnd(before, command); }
    else { OthersEnd(before, command); }
  }
}
