/** Over every chat run, no two new writes share a key. */
module ChatKeys {
  import opened Options
  import opened RetainedRequests
  import opened Chat
  import opened ChatProofs

  /** The key a write goes out under. */
  function WriteKey(request: Request): string {
    match request.body
    case MessageBody(_, key) => key
    case DraftBody(_, _, _, key) => key
    case _ => if request.idempotencyKey.Some? then request.idempotencyKey.value else ""
  }

  /** The keys of the new writes of a log, in order. */
  function NewKeys(events: seq<Event>): seq<string> {
    if events == [] then []
    else (if events[0].Wrote? && !events[0].again then [WriteKey(events[0].request)] else []) + NewKeys(events[1..])
  }

  lemma {:induction false} NewKeysConcat(a: seq<Event>, b: seq<Event>)
    ensures NewKeys(a + b) == NewKeys(a) + NewKeys(b)
    decreases |a|
  {
    if a == [] {
      assert a + b == b;
    } else {
      assert (a + b)[1..] == a[1..] + b;
      NewKeysConcat(a[1..], b);
      var x, y, z := (if a[0].Wrote? && !a[0].again then [WriteKey(a[0].request)] else []), NewKeys(a[1..]), NewKeys(b);
      assert x + (y + z) == (x + y) + z;
    }
  }

  function KeyIn(key: Option<string>): set<string> { if key.Some? then {key.value} else {} }

  /** The recovered keys no write has used yet. */
  function Spare(c: State): set<string> {
    KeyIn(c.session.send.initialKey) + KeyIn(c.setup.save.initialKey) + KeyIn(c.setup.publish.initialKey) + KeyIn(c.setup.apply.initialKey)
  }

  /** No two slots hold the same recovered key. */
  predicate Apart(c: State) {
    var a, b, d, e := KeyIn(c.session.send.initialKey), KeyIn(c.setup.save.initialKey), KeyIn(c.setup.publish.initialKey), KeyIn(c.setup.apply.initialKey);
    a !! b !! d !! e
  }

  /** The identifier an action mints, if it gets to a write that has no recovered key. */
  function Minted(command: Command): set<string> {
    match command
    case Message(_, uuid, _, _) => {uuid}
    case Create(uuid, _) => {uuid}
    case Save(_, uuid, _) => {uuid}
    case Publish(_, _, uuid, _) => {uuid}
    case Apply(uuid, _) => {uuid}
    case _ => {}
  }

  function MintedIn(commands: seq<Command>): set<string> {
    if commands == [] then {} else MintedIn(commands[..|commands| - 1]) + Minted(commands[|commands| - 1])
  }

  /** Minted identifiers are distinct, and none is a recovered key. */
  ghost predicate Unique(c: State, commands: seq<Command>)
    decreases |commands|
  {
    commands != [] ==>
      var init, last := commands[..|commands| - 1], commands[|commands| - 1];
      Unique(c, init) && Minted(last) !! MintedIn(init) && Minted(last) !! Spare(c)
  }

  /** An action writes at most one new request, under its own identifier or a recovered key that is then spent. */
  ghost predicate SpendsOne(c: State, command: Command) {
    var after, keys := Act(c, command).state, NewKeys(Act(c, command).events);
    && Apart(after) && Spare(after) <= Spare(c)
    && (keys == [] || (|keys| == 1 && (keys[0] in Minted(command) || (keys[0] in Spare(c) && keys[0] !in Spare(after)))))
  }

  predicate SlotKeeps(before: OpSlot, after: OpSlot) { after.initialKey == before.initialKey || after.initialKey.None? }

  /** No slot gains a recovered key. */
  predicate KeysKept(c: State, d: State) {
    && SlotKeeps(c.session.send, d.session.send) && SlotKeeps(c.setup.save, d.setup.save)
    && SlotKeeps(c.setup.publish, d.setup.publish) && SlotKeeps(c.setup.apply, d.setup.apply)
  }

  predicate SlotSpends(before: OpSlot, after: OpSlot, key: string) { before.initialKey == Some(key) && after.initialKey.None? }

  predicate Spends(c: State, d: State, key: string) {
    || SlotSpends(c.session.send, d.session.send, key) || SlotSpends(c.setup.save, d.setup.save, key)
    || SlotSpends(c.setup.publish, d.setup.publish, key) || SlotSpends(c.setup.apply, d.setup.apply, key)
  }

  lemma KeptKeys(c: State, d: State)
    requires Apart(c) && KeysKept(c, d)
    ensures Apart(d) && Spare(d) <= Spare(c)
  {
  }

  lemma SpentIsGone(c: State, d: State, key: string)
    requires Apart(c) && KeysKept(c, d) && Spends(c, d, key)
    ensures key in Spare(c) && key !in Spare(d)
  {
  }

  /** An action that writes nothing new. */
  lemma QuietSpends(c: State, command: Command)
    requires Apart(c) && KeysKept(c, Act(c, command).state)
    requires forall i :: 0 <= i < |Act(c, command).events| ==> Act(c, command).events[i].Wrote? ==> Act(c, command).events[i].again
    ensures SpendsOne(c, command)
  {
    hide Act, Apart, Spare, KeysKept, NewKeys;
    NothingNew(Act(c, command).events);
    KeptKeys(c, Act(c, command).state);
  }

  /** An action with one new write. */
  lemma OneSpends(c: State, command: Command, request: Request)
    requires Apart(c) && KeysKept(c, Act(c, command).state)
    requires Act(c, command).events in [[Wrote(request, false)], [Invalidated, Wrote(request, false)], [Wrote(request, false), Invalidated]]
    requires WriteKey(request) in Minted(command) || Spends(c, Act(c, command).state, WriteKey(request))
    ensures SpendsOne(c, command)
  {
    hide Act, Apart, Spare, KeysKept, NewKeys, Spends;
    OneKey(request);
    KeptKeys(c, Act(c, command).state);
    if Spends(c, Act(c, command).state, WriteKey(request)) { SpentIsGone(c, Act(c, command).state, WriteKey(request)); }
  }

  lemma OneKey(request: Request)
    ensures NewKeys([Wrote(request, false)]) == [WriteKey(request)]
    ensures NewKeys([Invalidated, Wrote(request, false)]) == [WriteKey(request)]
    ensures NewKeys([Wrote(request, false), Invalidated]) == [WriteKey(request)]
  {
    assert [Wrote(request, false)][1..] == [] && [Invalidated, Wrote(request, false)][1..] == [Wrote(request, false)];
    assert [Wrote(request, false), Invalidated][1..] == [Invalidated] && [Invalidated][1..] == [];
  }

  lemma {:induction false} NothingNew(events: seq<Event>)
    requires forall i :: 0 <= i < |events| ==> events[i].Wrote? ==> events[i].again
    ensures NewKeys(events) == []
  {
    if events != [] { NothingNew(events[1..]); }
  }

  lemma MessageSpends(c: State, command: Command)
    requires Apart(c) && !Chat.Busy(c) && ChatInv(c) && command.Message?
    ensures SpendsOne(c, command)
  {
    hide Apart, SpendsOne;
    var request := SendRequest(c.session, command.text, NextKey(c.session.send, command.uuid));
    assert Act(c, command).events == [Invalidated, Wrote(request, false)];
    OneSpends(c, command, request);
  }

  lemma CreateSpends(c: State, command: Command)
    requires Apart(c) && !Chat.Busy(c) && ChatInv(c) && command.Create?
    ensures SpendsOne(c, command)
  {
    hide Apart, SpendsOne;
    var request := CreateRequest(c.session, NextKey(c.session.send, command.uuid));
    assert Act(c, command).events == [Invalidated, Wrote(request, false)];
    OneSpends(c, command, request);
  }

  lemma SaveSpends(c: State, command: Command)
    requires Apart(c) && !Chat.Busy(c) && ChatInv(c) && command.Save?
    ensures SpendsOne(c, command)
  {
    hide IsPartial, Apart, SpendsOne;
    if c.seen.Some? && c.seen.value.draft.candidate.Some? {
      var seen := c.seen.value;
      var request := SaveRequest(seen.draft.candidate.value, seen.review.instanceName, seen.review.digest, command.start, NextKey(c.setup.save, command.uuid));
      assert Act(c, command).events == [Wrote(request, false)];
      OneSpends(c, command, request);
    } else {
      QuietSpends(c, command);
    }
  }

  lemma PublishSpends(c: State, command: Command)
    requires Apart(c) && !Chat.Busy(c) && ChatInv(c) && command.Publish?
    ensures SpendsOne(c, command)
  {
    hide Apart, SpendsOne;
    if c.seen.Some? && c.seen.value.draft.candidate.Some? {
      var request := PublishRequest(c.seen.value.draft.candidate.value, command.title, command.target, NextKey(c.setup.publish, command.uuid));
      assert Act(c, command).events == [Wrote(request, false)];
      OneSpends(c, command, request);
    } else {
      QuietSpends(c, command);
    }
  }

  lemma ApplySpends(c: State, command: Command)
    requires Apart(c) && !Chat.Busy(c) && ChatInv(c) && command.Apply?
    ensures SpendsOne(c, command)
  {
    hide SchedulesOwed, Apart, SpendsOne;
    if c.seen.Some? && c.seen.value.draft.candidate.Some? && NonEmpty(c.seen.value.draft.linkedFleet) && NonEmpty(c.seen.value.setupTag) {
      var seen := c.seen.value;
      var request := ApplyRequest(seen.draft.candidate.value, seen.draft.linkedFleet.value, seen.review.digest, seen.setupTag.value, NextKey(c.setup.apply, command.uuid));
      assert Act(c, command).events == if command.applied.Ok? then [Wrote(request, false), Invalidated] else [Wrote(request, false)];
      OneSpends(c, command, request);
    } else {
      QuietSpends(c, command);
    }
  }

  lemma SendKeepsKeys(s: Session, written: Answer<Draft>)
    ensures SlotKeeps(s.send, RetrySend(s, written).session.send)
  {
  }

  lemma SetupKeepsKeys(s: Setup, saved: Answer<Fleet>, published: Answer<string>, applied: Answer<seq<string>>)
    ensures SlotKeeps(s.save, Progress(s, saved).setup.save)
    ensures Progress(s, saved).setup.publish == s.publish && Progress(s, saved).setup.apply == s.apply
    ensures var after := RetryPublish(s, published).setup;
      SlotKeeps(s.publish, after.publish) && after.save == s.save && after.apply == s.apply
    ensures var after := RetryApply(s, applied).setup;
      SlotKeeps(s.apply, after.apply) && after.save == s.save && after.publish == s.publish
  {
  }

  lemma FollowKeepsKeys(c: State, followed: Followed)
    ensures SlotKeeps(c.session.send, Follow(c, followed).session.send) && Follow(c, followed).setup == c.setup
  {
  }

  lemma DraftRetryKeepsKeys(c: State, command: Command)
    requires command.Retry? && (c.operation.OpSend? || c.operation.OpCreate?)
    ensures KeysKept(c, Act(c, command).state)
  {
    SendKeepsKeys(c.session, command.written);
    FollowKeepsKeys(c.(session := RetrySend(c.session, command.written).session), command.followed);
    hide RetrySend, Follow, Writes;
  }

  lemma SetupRetryKeepsKeys(c: State, command: Command)
    requires command.Retry? && !(c.operation.OpSend? || c.operation.OpCreate?)
    ensures KeysKept(c, Act(c, command).state)
  {
    SetupKeepsKeys(c.setup, command.saved, command.published, command.applied);
    hide IsPartial, SchedulesOwed, Progress, RetryPublish, RetryApply, Writes;
  }

  lemma RetryWritesAgain(c: State, command: Command)
    requires command.Retry?
    ensures forall e :: e in Act(c, command).events && e.Wrote? ==> e.again
  {
    hide IsPartial, SchedulesOwed, RetrySend, Progress, RetryPublish, RetryApply, Follow;
  }

  lemma RetrySpends(c: State, command: Command)
    requires Apart(c) && command.Retry?
    ensures SpendsOne(c, command)
  {
    if c.operation.OpSend? || c.operation.OpCreate? { DraftRetryKeepsKeys(c, command); } else { SetupRetryKeepsKeys(c, command); }
    RetryWritesAgain(c, command);
    hide Act, Apart, SpendsOne, KeysKept;
    QuietSpends(c, command);
  }

  lemma OthersSpend(c: State, command: Command)
    requires Apart(c) && !command.Retry?
    requires command.ReviewSetup? || command.Model? || command.Stop? || command.History? || command.Remove? || command.Clear? || Chat.Busy(c)
    ensures SpendsOne(c, command)
  {
    hide SendMessage, CreateDraft, Apart, SpendsOne;
    QuietSpends(c, command);
  }

  lemma EveryActSpendsOne(c: State, command: Command)
    requires ChatInv(c) && Apart(c)
    ensures SpendsOne(c, command)
  {
    hide SpendsOne, Act, ChatInv, Apart;
    if command.Retry? { RetrySpends(c, command); }
    else if Chat.Busy(c) { OthersSpend(c, command); }
    else if command.Message? { MessageSpends(c, command); }
    else if command.Create? { CreateSpends(c, command); }
    else if command.Save? { SaveSpends(c, command); }
    else if command.Publish? { PublishSpends(c, command); }
    else if command.Apply? { ApplySpends(c, command); }
    else { OthersSpend(c, command); }
  }

  ghost predicate NoTwoAlike(keys: seq<string>) { forall i, j :: 0 <= i < j < |keys| ==> keys[i] != keys[j] }

  /** What a run has used and what it still may. */
  ghost predicate Used(c: State, end: State, keys: seq<string>, minted: set<string>) {
    && NoTwoAlike(keys) && Spare(end) <= Spare(c) && minted !! Spare(c)
    && forall k :: k in keys ==> k in minted || (k in Spare(c) && k !in Spare(end))
  }

  lemma UsedNext(c: State, before: State, command: Command, keys: seq<string>, minted: set<string>)
    requires Used(c, before, keys, minted) && SpendsOne(before, command)
    requires Minted(command) !! minted && Minted(command) !! Spare(c)
    ensures Used(c, Act(before, command).state, keys + NewKeys(Act(before, command).events), minted + Minted(command))
  {
    hide Act, NewKeys, Spare, Minted, Apart;
    var more := NewKeys(Act(before, command).events);
    if more != [] { assert more[0] !in keys; }
  }

  lemma {:induction false} RunSpends(c: State, commands: seq<Command>)
    requires Started(c) && Apart(c) && Unique(c, commands)
    ensures Apart(RunAll(c, commands).0) && Used(c, RunAll(c, commands).0, NewKeys(RunAll(c, commands).1), MintedIn(commands))
    decreases |commands|
  {
    if commands != [] {
      var init, last := commands[..|commands| - 1], commands[|commands| - 1];
      RunSpends(c, init);
      ChatProofs.RunKeepsInv(c, init);
      var (before, events) := RunAll(c, init);
      hide Act, ChatInv, Apart, Spare, Minted, NewKeys, Used;
      EveryActSpendsOne(before, last);
      NewKeysConcat(events, Act(before, last).events);
      UsedNext(c, before, last, NewKeys(events), MintedIn(init));
    }
  }

  /**
    Over every run whose minted identifiers are distinct and new, the four kinds of write together
    never use a key twice: the keys of the new writes, in order, are pairwise different.
   */
  lemma NewWritesNeverShareAKey(c: State, commands: seq<Command>)
    requires Started(c) && Apart(c) && Unique(c, commands)
    ensures NoTwoAlike(NewKeys(RunAll(c, commands).1))
  {
    RunSpends(c, commands);
    hide RunAll, NewKeys;
  }
}
