/**
  The retained-operation machine of the chat client: one exact request and one
  operation key are kept until the outcome of the request is known.

  `Slot` is the state of one retained request and its functions are the atomic
  steps of the client. `RetainedRequest` is the class that performs them in place.
  `World` puts one slot beside a server and a network, and steps them in any order.
 */
module RetainedRequests {
  import opened Options

  /** One retained operation. `serial` stands for the identity of the object that holds it. */
  datatype Pending<I, R> = Pending(serial: nat, identity: I, key: string, request: R)

  /** How one execution ended, as the client sees it. */
  datatype Outcome = Success | ServerStatus(status: int) | NoAnswer

  /** The answers that prove the server did not run the request. */
  predicate Definite(o: Outcome) {
    o.ServerStatus? && 400 <= o.status < 500 && o.status != 408
  }

  datatype Slot<I, R> = Slot(
    pending: Option<Pending<I, R>>,
    running: Option<Pending<I, R>>,
    initialKey: Option<string>,
    created: nat)  // operations created so far, the next serial

  datatype Start<I, R> = Launched(op: Pending<I, R>) | Busy | NothingToRetry | InProgress

  function NewSlot<I, R>(initialKey: Option<string>): Slot<I, R> {
    Slot(None, None, initialKey, 0)
  }

  function Cleared<I, R>(s: Slot<I, R>): Slot<I, R> {
    s.(pending := None, initialKey := None)
  }

  function NextKey<I, R>(s: Slot<I, R>, uuid: string): string {
    if s.initialKey.Some? then s.initialKey.value else uuid
  }

  function Retained<I, R>(s: Slot<I, R>, identity: I, uuid: string, execute: string -> R): Slot<I, R> {
    var key := NextKey(s, uuid);
    s.(pending := Some(Pending(s.created, identity, key, execute(key))), initialKey := None, created := s.created + 1)
  }

  function RetryOp<I(==), R(==)>(s: Slot<I, R>): (Slot<I, R>, Start<I, R>) {
    match s.pending
    case None => (s, NothingToRetry)
    case Some(op) => if s.running == Some(op) then (s, InProgress) else (s.(running := Some(op)), Launched(op))
  }

  function RunOp<I(==), R(==)>(s: Slot<I, R>, identity: I, uuid: string, execute: string -> R): (Slot<I, R>, Start<I, R>) {
    if s.pending.Some? && s.pending.value.identity != identity then (s, Busy)
    else if s.pending.None? then RetryOp(Retained(s, identity, uuid, execute))
    else RetryOp(s)
  }

  /** The success and failure hooks of one execution of `op`. */
  function Settled<I(==), R(==)>(s: Slot<I, R>, op: Pending<I, R>, o: Outcome): Slot<I, R> {
    if s.pending == Some(op) && (o.Success? || Definite(o)) then Cleared(s) else s
  }

  /** The final hook of one execution of `op`. */
  function Released<I(==), R(==)>(s: Slot<I, R>, op: Pending<I, R>): Slot<I, R> {
    if s.running == Some(op) then s.(running := None) else s
  }

  /** A completion of an older operation neither clears nor unlocks the one that is pending now. */
  lemma StaleCompletion<I, R>(s: Slot<I, R>, stale: Pending<I, R>, o: Outcome)
    requires s.pending.Some? && s.pending.value != stale
    ensures Settled(s, stale, o) == s
    ensures Released(s, stale).pending == s.pending && Released(s, stale).initialKey == s.initialKey
    ensures s.running == s.pending ==> Released(s, stale) == s
  {
  }

  // ---------------------------------------------------------------- the client class

  class RetainedRequest<I(==), R(==)> {
    var pending: Option<Pending<I, R>>
    var running: Option<Pending<I, R>>
    var initialKey: Option<string>
    var created: nat

    ghost function State(): Slot<I, R>
      reads this
    {
      Slot(pending, running, initialKey, created)
    }

    constructor (key: Option<string>)
      ensures State() == NewSlot(key)
    {
      pending, running, initialKey, created := None, None, key, 0;
    }

    method Clear()
      modifies this
      ensures State() == Cleared(old(State()))
    {
      pending, initialKey := None, None;
    }

    method Retry() returns (start: Start<I, R>)
      modifies this
      ensures (State(), start) == RetryOp(old(State()))
    {
      if pending.None? { return NothingToRetry; }
      var op := pending.value;
      if running == Some(op) { return InProgress; }
      running := Some(op);
      start := Launched(op);
    }

    method Run(identity: I, uuid: string, execute: string -> R) returns (start: Start<I, R>)
      modifies this
      ensures (State(), start) == RunOp(old(State()), identity, uuid, execute)
    {
      if pending.Some? && pending.value.identity != identity { return Busy; }
      if pending.None? {
        var key := if initialKey.Some? then initialKey.value else uuid;
        initialKey := None;
        pending := Some(Pending(created, identity, key, execute(key)));
        created := created + 1;
      }
      start := Retry();
    }

    method Settle(op: Pending<I, R>, o: Outcome)
      modifies this
      ensures State() == Settled(old(State()), op, o)
    {
      if o.Success? {
        if pending == Some(op) { Clear(); }
      } else if pending == Some(op) && o.ServerStatus? && o.status >= 400 && o.status < 500 && o.status != 408 {
        Clear();
      }
    }

    method Release(op: Pending<I, R>)
      modifies this
      ensures State() == Released(old(State()), op)
    {
      if running == Some(op) { running := None; }
    }
  }

  // ---------------------------------------------------------------- client, network and server

  /** What became of an operation the user started. */
  datatype Status = Open | Succeeded | Declined | Dropped

  datatype Message<R> = Message(serial: nat, key: string, request: R)

  /**
    `ops[n]` is the operation with serial `n`. `waiting` and `finishing` count its executions
    in progress: those without an answer yet, and those whose final hook is still to run.
    `sent` holds every request ever put on the network: the server may take any of them,
    any number of times, at any later moment. `effects` is the log of what the server ran.
    `sticky` says whether a declined key stays declined.
   */
  datatype World<!I(==), !R(==)> = World(
    slot: Slot<I, R>,
    ops: seq<Pending<I, R>>,
    status: seq<Status>,
    waiting: multiset<nat>,
    finishing: multiset<nat>,
    sent: set<Message<R>>,
    applied: set<string>,
    declined: set<string>,
    effects: seq<(string, R)>,
    sticky: bool)

  datatype Step<!I(==), !R(==)> =
    | RunStep(identity: I, uuid: string, execute: string -> R)
    | RetryStep
    | ClearStep
    | ApplyStep(message: Message<R>)
    | DeclineStep(message: Message<R>)
    | SettleStep(serial: nat, outcome: Outcome)
    | ReleaseStep(serial: nat)

  ghost function Keys<I, R>(ops: seq<Pending<I, R>>): set<string> {
    set i | 0 <= i < |ops| :: ops[i].key
  }

  /**
    What the world allows: minted identifiers are new, a success means that the key took effect, and
    the server's refusals are the statuses 400 to 499 other than 408. Any other status, a 408 and no
    answer at all may arrive whether or not the request ran.
   */
  ghost predicate Enabled<I, R>(w: World<I, R>, step: Step<I, R>) {
    match step
    case RunStep(_, uuid, _) =>
      && uuid !in Keys(w.ops)
      && uuid !in w.applied + w.declined
      && Some(uuid) != w.slot.initialKey
    case RetryStep => true
    case ClearStep => true
    case ApplyStep(m) =>
      m in w.sent && m.key !in w.applied && (w.sticky ==> m.key !in w.declined)
    case DeclineStep(m) =>
      m in w.sent && m.key !in w.applied
    case SettleStep(n, outcome) =>
      && n < |w.ops| && n in w.waiting
      && (outcome.Success? ==> w.ops[n].key in w.applied)
      && (outcome.ServerStatus? && 400 <= outcome.status <= 499 && outcome.status != 408 ==> w.ops[n].key in w.declined)
    case ReleaseStep(n) => n < |w.ops| && n in w.finishing
  }

  ghost function Launch<I, R>(w: World<I, R>, slot: Slot<I, R>, start: Start<I, R>): World<I, R> {
    if start.Launched? then
      w.(slot := slot, waiting := w.waiting + multiset{start.op.serial},
         sent := w.sent + {Message(start.op.serial, start.op.key, start.op.request)})
    else w.(slot := slot)
  }

  /** Marks the pending operation when it stops being pending. */
  ghost function Mark<I, R>(w: World<I, R>, slot: Slot<I, R>, status: Status): World<I, R> {
    if w.slot.pending.Some? && slot.pending.None? && w.slot.pending.value.serial < |w.status| then
      w.(slot := slot, status := w.status[w.slot.pending.value.serial := status])
    else w.(slot := slot)
  }

  ghost function Next<I, R>(w: World<I, R>, step: Step<I, R>): World<I, R>
    requires Enabled(w, step)
  {
    match step
    case RunStep(identity, uuid, execute) =>
      var (slot, start) := RunOp(w.slot, identity, uuid, execute);
      if slot.created == w.slot.created then Launch(w, slot, start)
      else Launch(w.(ops := w.ops + [slot.pending.value], status := w.status + [Open]), slot, start)
    case RetryStep =>
      var (slot, start) := RetryOp(w.slot);
      Launch(w, slot, start)
    case ClearStep => Mark(w, Cleared(w.slot), Dropped)
    case ApplyStep(m) =>
      w.(applied := w.applied + {m.key}, effects := w.effects + [(m.key, m.request)])
    case DeclineStep(m) => w.(declined := w.declined + {m.key})
    case SettleStep(n, outcome) =>
      var after := Mark(w, Settled(w.slot, w.ops[n], outcome), if outcome.Success? then Succeeded else Declined);
      after.(waiting := w.waiting - multiset{n}, finishing := w.finishing + multiset{n})
    case ReleaseStep(n) =>
      w.(slot := Released(w.slot, w.ops[n]), finishing := w.finishing - multiset{n})
  }

  /** A run: every step is enabled where it is taken. */
  ghost predicate Legal<I, R>(w: World<I, R>, steps: seq<Step<I, R>>)
    decreases |steps|
  {
    |steps| > 0 ==> Enabled(w, steps[0]) && Legal(Next(w, steps[0]), steps[1..])
  }

  ghost function After<I, R>(w: World<I, R>, steps: seq<Step<I, R>>): World<I, R>
    requires Legal(w, steps)
    decreases |steps|
  {
    if steps == [] then w else After(Next(w, steps[0]), steps[1..])
  }

  ghost function EffectsOf<R>(effects: seq<(string, R)>, key: string): nat {
    if effects == [] then 0
    else EffectsOf(effects[..|effects| - 1], key) + (if effects[|effects| - 1].0 == key then 1 else 0)
  }

  /** A new client beside a server with any history, perhaps holding a recovered key. */
  ghost predicate Initial<I, R>(w: World<I, R>) {
    && w.slot == NewSlot(w.slot.initialKey)
    && w.ops == [] && w.status == [] && w.waiting == w.finishing == multiset{} && w.sent == {}
    && (forall k :: EffectsOf(w.effects, k) == if k in w.applied then 1 else 0)
    && w.applied !! w.declined
  }

  // ---------------------------------------------------------------- invariant

  ghost predicate OpsOk<I, R>(w: World<I, R>) {
    && |w.ops| == |w.status| == w.slot.created
    && (forall i :: 0 <= i < |w.ops| ==> w.ops[i].serial == i)
    && (forall i, j :: 0 <= i < j < |w.ops| ==> w.ops[i].key != w.ops[j].key)
    && (w.slot.initialKey.Some? ==> w.ops == [])
  }

  ghost predicate PendingOk<I, R>(w: World<I, R>)
    requires OpsOk(w)
  {
    && (w.slot.pending.Some? ==> w.ops != [] && w.slot.pending.value == w.ops[|w.ops| - 1])
    && (w.slot.running.Some? ==> w.slot.running.value in w.ops)
    && (forall i :: 0 <= i < |w.ops| ==> (w.status[i] == Open <==> w.slot.pending == Some(w.ops[i])))
  }

  ghost predicate FlightsOk<I, R>(w: World<I, R>) {
    && (forall n: nat :: w.waiting[n] + w.finishing[n] <= 1)
    && (forall n: nat :: n >= |w.ops| ==> w.waiting[n] + w.finishing[n] == 0)
    && (w.slot.pending.Some? && w.waiting[w.slot.pending.value.serial] + w.finishing[w.slot.pending.value.serial] > 0
        ==> w.slot.running == w.slot.pending)
  }

  ghost predicate ServerOk<I, R>(w: World<I, R>)
    requires OpsOk(w)
  {
    && (forall m :: m in w.sent ==> m.serial < |w.ops| && m.key == w.ops[m.serial].key && m.request == w.ops[m.serial].request)
    && (forall k :: EffectsOf(w.effects, k) == if k in w.applied then 1 else 0)
    && (forall i :: 0 <= i < |w.ops| && w.status[i] == Succeeded ==> w.ops[i].key in w.applied)
    && (forall i :: 0 <= i < |w.ops| && w.status[i] == Declined ==> w.ops[i].key in w.declined)
    && (w.sticky ==> w.applied !! w.declined)
  }

  ghost predicate Inv<I, R>(w: World<I, R>) {
    OpsOk(w) && PendingOk(w) && FlightsOk(w) && ServerOk(w)
  }

  lemma EffectsAppend<R>(effects: seq<(string, R)>, e: (string, R), key: string)
    ensures EffectsOf(effects + [e], key) == EffectsOf(effects, key) + (if e.0 == key then 1 else 0)
  {
    assert (effects + [e])[..|effects|] == effects;
  }

  lemma InitialInv<I, R>(w: World<I, R>)
    requires Initial(w)
    ensures Inv(w)
  {
  }

  lemma StepKeepsInv<I, R>(w: World<I, R>, step: Step<I, R>)
    requires Inv(w) && Enabled(w, step)
    ensures Inv(Next(w, step))
  {
    match step
    case RunStep(_, _, _) => RunKeepsInv(w, step);
    case RetryStep => RetryKeepsInv(w);
    case ClearStep => ClearKeepsInv(w);
    case ApplyStep(_) => ApplyKeepsInv(w, step);
    case DeclineStep(_) => DeclineKeepsInv(w, step);
    case SettleStep(_, _) => SettleKeepsInv(w, step);
    case ReleaseStep(_) => ReleaseKeepsInv(w, step);
  }

  /** Launching the pending operation adds its only execution. */
  lemma LaunchKeepsInv<I, R>(w: World<I, R>)
    requires Inv(w)
    ensures var (slot, start) := RetryOp(w.slot); Inv(Launch(w, slot, start))
  {
  }

  lemma RunKeepsInv<I, R>(w: World<I, R>, step: Step<I, R>)
    requires Inv(w) && Enabled(w, step) && step.RunStep?
    ensures Inv(Next(w, step))
  {
    if w.slot.pending.Some? {
      LaunchKeepsInv(w);
    } else {
      var slot := Retained(w.slot, step.identity, step.uuid, step.execute);
      var created := w.(slot := slot, ops := w.ops + [slot.pending.value], status := w.status + [Open]);
      CreateKeepsInv(w, step, created);
      LaunchKeepsInv(created);
    }
  }

  lemma CreateKeepsInv<I, R>(w: World<I, R>, step: Step<I, R>, created: World<I, R>)
    requires Inv(w) && Enabled(w, step) && step.RunStep? && w.slot.pending.None?
    requires var slot := Retained(w.slot, step.identity, step.uuid, step.execute);
      created == w.(slot := slot, ops := w.ops + [slot.pending.value], status := w.status + [Open])
    ensures Inv(created)
  {
    var key := NextKey(w.slot, step.uuid);
    assert OpsOk(created);
    assert PendingOk(created);
    assert FlightsOk(created);
    assert ServerOk(created);
  }

  lemma RetryKeepsInv<I, R>(w: World<I, R>)
    requires Inv(w)
    ensures Inv(Next(w, RetryStep))
  {
    LaunchKeepsInv(w);
  }

  lemma ClearKeepsInv<I, R>(w: World<I, R>)
    requires Inv(w)
    ensures Inv(Next(w, ClearStep))
  {
  }

  lemma ApplyKeepsInv<I, R>(w: World<I, R>, step: Step<I, R>)
    requires Inv(w) && Enabled(w, step) && step.ApplyStep?
    ensures Inv(Next(w, step))
  {
    var w' := Next(w, step);
    forall k ensures EffectsOf(w'.effects, k) == if k in w'.applied then 1 else 0 {
      EffectsAppend(w.effects, (step.message.key, step.message.request), k);
    }
  }

  lemma DeclineKeepsInv<I, R>(w: World<I, R>, step: Step<I, R>)
    requires Inv(w) && Enabled(w, step) && step.DeclineStep?
    ensures Inv(Next(w, step))
  {
  }

  /** An answer that settles nothing, or is of an operation no longer held. */
  lemma QuietSettleKeepsInv<I, R>(w: World<I, R>, step: Step<I, R>)
    requires Inv(w) && Enabled(w, step) && step.SettleStep? && Settled(w.slot, w.ops[step.serial], step.outcome) == w.slot
    ensures Inv(Next(w, step))
  {
    var w' := Next(w, step);
    assert w' == w.(waiting := w.waiting - multiset{step.serial}, finishing := w.finishing + multiset{step.serial});
    assert OpsOk(w') && PendingOk(w') && FlightsOk(w') && ServerOk(w');
  }

  /** The decisive answer of the held operation. */
  lemma DecisiveSettleKeepsInv<I, R>(w: World<I, R>, step: Step<I, R>)
    requires Inv(w) && Enabled(w, step) && step.SettleStep?
    requires w.slot.pending == Some(w.ops[step.serial]) && (step.outcome.Success? || Definite(step.outcome))
    ensures Inv(Next(w, step))
  {
    var w' := Next(w, step);
    var status := if step.outcome.Success? then Succeeded else Declined;
    assert w' == w.(slot := Cleared(w.slot), status := w.status[step.serial := status],
                    waiting := w.waiting - multiset{step.serial}, finishing := w.finishing + multiset{step.serial});
    assert OpsOk(w');
    assert PendingOk(w');
    assert FlightsOk(w');
    assert ServerOk(w');
  }

  lemma SettleKeepsInv<I, R>(w: World<I, R>, step: Step<I, R>)
    requires Inv(w) && Enabled(w, step) && step.SettleStep?
    ensures Inv(Next(w, step))
  {
    hide Inv, Next;
    if w.slot.pending == Some(w.ops[step.serial]) && (step.outcome.Success? || Definite(step.outcome)) {
      DecisiveSettleKeepsInv(w, step);
    } else {
      QuietSettleKeepsInv(w, step);
    }
  }

  lemma ReleaseKeepsInv<I, R>(w: World<I, R>, step: Step<I, R>)
    requires Inv(w) && Enabled(w, step) && step.ReleaseStep?
    ensures Inv(Next(w, step))
  {
    var w' := Next(w, step);
    assert OpsOk(w');
    assert PendingOk(w');
    assert FlightsOk(w');
    assert ServerOk(w');
  }

  // ---------------------------------------------------------------- what holds over every run

  lemma {:induction false} RunKeepsInvariant<I, R>(w: World<I, R>, steps: seq<Step<I, R>>)
    requires Inv(w) && Legal(w, steps)
    ensures Inv(After(w, steps))
    decreases |steps|
  {
    hide Next, Enabled, Inv;
    if steps != [] {
      StepKeepsInv(w, steps[0]);
      RunKeepsInvariant(Next(w, steps[0]), steps[1..]);
    }
  }

  /** Effect `j` of the log is the exact request of some operation the user started. */
  ghost predicate FromAnOp<I, R>(w: World<I, R>, j: nat)
    requires j < |w.effects|
  {
    exists i :: 0 <= i < |w.ops| && w.effects[j] == (w.ops[i].key, w.ops[i].request)
  }

  ghost predicate NewEffectsOk<I, R>(before: nat, w: World<I, R>) {
    before <= |w.effects| && forall j :: before <= j < |w.effects| ==> FromAnOp(w, j)
  }

  lemma LogsGrow<I, R>(w: World<I, R>, step: Step<I, R>)
    requires Inv(w) && Enabled(w, step)
    ensures w.ops <= Next(w, step).ops
    ensures Next(w, step).effects ==
      if step.ApplyStep? then w.effects + [(step.message.key, step.message.request)] else w.effects
    ensures step.ApplyStep? ==>
      var m := step.message;
      m.serial < |w.ops| && m.key == w.ops[m.serial].key && m.request == w.ops[m.serial].request
  {
  }

  lemma StepKeepsNewEffects<I, R>(before: nat, w: World<I, R>, step: Step<I, R>)
    requires Inv(w) && Enabled(w, step) && NewEffectsOk(before, w)
    ensures NewEffectsOk(before, Next(w, step))
    ensures w.effects <= Next(w, step).effects
  {
    LogsGrow(w, step);
    hide Next, Enabled, Inv;
    var w' := Next(w, step);
    forall j | before <= j < |w'.effects| ensures FromAnOp(w', j) {
      if j < |w.effects| {
        assert FromAnOp(w, j);
        var i :| 0 <= i < |w.ops| && w.effects[j] == (w.ops[i].key, w.ops[i].request);
        assert w'.effects[j] == (w'.ops[i].key, w'.ops[i].request);
      } else {
        var i := step.message.serial;
        assert w'.effects[j] == (w'.ops[i].key, w'.ops[i].request);
      }
    }
  }

  lemma {:induction false} RunKeepsNewEffects<I, R>(before: nat, w: World<I, R>, steps: seq<Step<I, R>>)
    requires Inv(w) && Legal(w, steps) && NewEffectsOk(before, w)
    ensures NewEffectsOk(before, After(w, steps))
    ensures w.effects <= After(w, steps).effects
    decreases |steps|
  {
    hide Next, Enabled, Inv;
    if steps != [] {
      StepKeepsNewEffects(before, w, steps[0]);
      StepKeepsInv(w, steps[0]);
      RunKeepsNewEffects(before, Next(w, steps[0]), steps[1..]);
    }
  }

  lemma {:induction false} EffectsAtLeastOne<R>(effects: seq<(string, R)>, j: nat)
    requires j < |effects|
    ensures EffectsOf(effects, effects[j].0) >= 1
    decreases |effects|
  {
    if j < |effects| - 1 {
      EffectsAtLeastOne(effects[..|effects| - 1], j);
    }
  }

  lemma {:induction false} TwoEffectsCount<R>(effects: seq<(string, R)>, i: nat, j: nat)
    requires i < j < |effects| && effects[i].0 == effects[j].0
    ensures EffectsOf(effects, effects[j].0) >= 2
    decreases |effects|
  {
    if j < |effects| - 1 {
      TwoEffectsCount(effects[..|effects| - 1], i, j);
    } else {
      EffectsAtLeastOne(effects[..|effects| - 1], i);
    }
  }

  /**
    Exactly-once. Whatever is lost, delayed, duplicated, timed out, retried or cleared:
    no key ever takes effect twice, an operation reported as done took effect once, one
    reported as declined by a server that keeps its refusals never took effect, and every
    effect since the start is the exact request of one operation the user started.
    That a key is not applied twice is the server's share, the rule of `ApplyStep`. The
    client's share is that a key stands for one operation: it is minted only while nothing is
    unresolved, goes out with one request, and is let go only by a decisive answer or a clear
    (`MintedOnlyWhenResolved`, `OneKeyOneRequest`, `VerdictsAreKept`).
   */
  lemma ExactlyOnce<I, R>(w0: World<I, R>, steps: seq<Step<I, R>>)
    requires Initial(w0) && Legal(w0, steps)
    ensures var w := After(w0, steps);
      && |w.status| == |w.ops|
      && (forall k :: EffectsOf(w.effects, k) <= 1)
      && (forall i, j :: 0 <= i < j < |w.effects| && |w0.effects| <= j ==> w.effects[i].0 != w.effects[j].0)
      && (forall j :: |w0.effects| <= j < |w.effects| ==> FromAnOp(w, j))
      && (forall i :: 0 <= i < |w.ops| && w.status[i] == Succeeded ==> EffectsOf(w.effects, w.ops[i].key) == 1)
      && (w.sticky ==> forall i :: 0 <= i < |w.ops| && w.status[i] == Declined ==> EffectsOf(w.effects, w.ops[i].key) == 0)
  {
    InitialInv(w0);
    RunKeepsInvariant(w0, steps);
    RunKeepsNewEffects(|w0.effects|, w0, steps);
    var w := After(w0, steps);
    forall i, j | 0 <= i < j < |w.effects| && |w0.effects| <= j ensures w.effects[i].0 != w.effects[j].0 {
      if w.effects[i].0 == w.effects[j].0 { TwoEffectsCount(w.effects, i, j); }
    }
  }

  /**
    Under every interleaving: one key is only ever sent with the request built for one
    operation, no operation has two executions in progress, only the newest operation can
    be unresolved, and it is exactly the one the client holds.
   */
  lemma OneKeyOneRequest<I, R>(w0: World<I, R>, steps: seq<Step<I, R>>)
    requires Initial(w0) && Legal(w0, steps)
    ensures var w := After(w0, steps);
      && |w.status| == |w.ops|
      && (forall m, n :: m in w.sent && n in w.sent && m.key == n.key ==> m == n)
      && (forall m :: m in w.sent ==> m.serial < |w.ops| && m.key == w.ops[m.serial].key && m.request == w.ops[m.serial].request)
      && (forall n: nat :: w.waiting[n] + w.finishing[n] <= 1)
      && (forall i :: 0 <= i < |w.ops| - 1 ==> w.status[i] != Open)
      && (forall i :: 0 <= i < |w.ops| ==> (w.status[i] == Open <==> w.slot.pending == Some(w.ops[i])))
  {
    InitialInv(w0);
    RunKeepsInvariant(w0, steps);
    var w := After(w0, steps);
    assert forall i :: 0 <= i < |w.ops| - 1 ==> w.ops[i].serial != w.ops[|w.ops| - 1].serial;
  }

  /** A resolved operation keeps its verdict; only a clear or its own definite answer resolves one. */
  ghost predicate VerdictsKept<I, R>(w: World<I, R>, step: Step<I, R>, w': World<I, R>) {
    && |w.status| <= |w'.status|
    && (forall i :: 0 <= i < |w.status| && w.status[i] != Open ==> w'.status[i] == w.status[i])
    && (forall i :: 0 <= i < |w.status| && w'.status[i] != w.status[i] ==>
         || step == ClearStep
         || (step.SettleStep? && step.serial == i && (step.outcome.Success? ||
              (step.outcome.ServerStatus? && 400 <= step.outcome.status <= 499 && step.outcome.status != 408))))
  }

  lemma VerdictsAreKept<I, R>(w: World<I, R>, step: Step<I, R>)
    requires Inv(w) && Enabled(w, step)
    ensures VerdictsKept(w, step, Next(w, step))
  {
    if w.slot.pending.Some? {
      assert w.ops[w.slot.pending.value.serial] == w.slot.pending.value;
    }
  }

  /**
    In every world a run reaches, an answer of 408, any status outside 400 to 499, or no answer leaves
    the held operation held, with its key and request, and without a verdict. Every other 4xx and a
    success release it and give its verdict.
   */
  lemma HeldUntilDecided<I, R>(w0: World<I, R>, steps: seq<Step<I, R>>, step: Step<I, R>)
    requires Initial(w0) && Legal(w0, steps) && Enabled(After(w0, steps), step) && step.SettleStep?
    requires After(w0, steps).slot.pending == Some(After(w0, steps).ops[step.serial])
    ensures var w := After(w0, steps);
      var after := Next(w, step);
      && step.serial < |w.status| == |after.status| && after.slot.running == w.slot.running
      && match step.outcome
         case Success => after.slot.pending.None? && after.status[step.serial] == Succeeded
         case NoAnswer => after.slot == w.slot && after.status == w.status
         case ServerStatus(status) =>
           if status == 408 || status < 400 || status > 499 then after.slot == w.slot && after.status == w.status
           else after.slot.pending.None? && after.slot.initialKey.None? && after.status[step.serial] == Declined
  {
    InitialInv(w0);
    RunKeepsInvariant(w0, steps);
    hide After, Legal;
  }

  /**
    In every world a run reaches, the answer or the final hook of another operation than the held
    one leaves the held one as it is, and locked if it was: a settlement changes nothing in the
    client, and a release at most the lock of the older operation.
   */
  lemma StaleStepsChangeNothing<I, R>(w0: World<I, R>, steps: seq<Step<I, R>>, step: Step<I, R>)
    requires Initial(w0) && Legal(w0, steps) && Enabled(After(w0, steps), step) && (step.SettleStep? || step.ReleaseStep?)
    requires var held := After(w0, steps).slot.pending; held.Some? && held.value.serial != step.serial
    ensures var w := After(w0, steps);
      var after := Next(w, step);
      && after.status == w.status && after.slot.pending == w.slot.pending && after.slot.initialKey == w.slot.initialKey
      && (step.SettleStep? ==> after.slot == w.slot)
      && (w.slot.running == w.slot.pending ==> after.slot == w.slot)
      && (w.slot.running != w.slot.pending ==> after.slot.running != after.slot.pending)
  {
    InitialInv(w0);
    RunKeepsInvariant(w0, steps);
    hide After, Legal;
    var w := After(w0, steps);
    assert w.ops[step.serial].serial == step.serial;
    StaleCompletion(w.slot, w.ops[step.serial], if step.SettleStep? then step.outcome else NoAnswer);
  }

  /** A key is minted only when no operation is unresolved, by a run that had nothing pending; a recovered key comes first. */
  lemma MintedOnlyWhenResolved<I, R>(w: World<I, R>, step: Step<I, R>)
    requires Inv(w) && Enabled(w, step)
    requires Next(w, step).ops != w.ops
    ensures step.RunStep? && w.slot.pending.None?
    ensures forall i :: 0 <= i < |w.ops| ==> w.status[i] != Open
    ensures var key := if w.slot.initialKey.Some? then w.slot.initialKey.value else step.uuid;
      Next(w, step).ops == w.ops + [Pending(|w.ops|, step.identity, key, step.execute(key))]
  {
  }

  /** The held operation goes on the network once more, as it is. */
  ghost function SentAgain<I, R>(w: World<I, R>, op: Pending<I, R>): World<I, R> {
    w.(slot := w.slot.(running := Some(op)), waiting := w.waiting + multiset{op.serial},
       sent := w.sent + {Message(op.serial, op.key, op.request)})
  }

  /**
    What each of the user's three steps does in every world that satisfies the invariant. While an
    operation is held, a run of another identity, or any repetition during an execution, changes
    nothing; otherwise the held request goes out again. With nothing held a retry changes nothing
    and a run makes one operation, under the recovered key if there is one. A clear lets go of the
    operation and of the recovered key.
   */
  lemma UserStepsAreExact<I, R>(w: World<I, R>, step: Step<I, R>)
    requires Inv(w) && Enabled(w, step) && (step.RunStep? || step.RetryStep? || step.ClearStep?)
    ensures var held, after := w.slot.pending, Next(w, step);
      if step.ClearStep? then after.slot == w.slot.(pending := None, initialKey := None) && after.ops == w.ops && after.sent == w.sent
      else if held.Some? && (held == w.slot.running || (step.RunStep? && step.identity != held.value.identity)) then after == w
      else if held.Some? then after == SentAgain(w, held.value)
      else if step.RetryStep? then after == w
      else
        var key := if w.slot.initialKey.Some? then w.slot.initialKey.value else step.uuid;
        var op := Pending(|w.ops|, step.identity, key, step.execute(key));
        after == SentAgain(w.(slot := Slot(Some(op), None, None, |w.ops| + 1), ops := w.ops + [op], status := w.status + [Open]), op)
  {
    if step.RunStep? && w.slot.pending.None? {
      NewRun(w, step);
      hide Next, Inv, Enabled;
    }
  }

  lemma NewRun<I, R>(w: World<I, R>, step: Step<I, R>)
    requires Inv(w) && Enabled(w, step) && step.RunStep? && w.slot.pending.None?
    ensures var key := if w.slot.initialKey.Some? then w.slot.initialKey.value else step.uuid;
      var op := Pending(|w.ops|, step.identity, key, step.execute(key));
      Next(w, step) == SentAgain(w.(slot := Slot(Some(op), None, None, |w.ops| + 1), ops := w.ops + [op], status := w.status + [Open]), op)
  {
    if w.slot.running.Some? { assert w.slot.running.value.serial < |w.ops|; }
  }

  // ---------------------------------------------------------------- why refusals must be kept

  const AGAIN := "send it"

  function Resend(key: string): string { AGAIN }

  /** One copy of the message is declined; another is still on the network. */
  lemma OneCopyDeclined(w0: World<string, string>, key1: string, key2: string, steps: seq<Step<string, string>>, w: World<string, string>)
    requires w0 == World(NewSlot(None), [], [], multiset{}, multiset{}, {}, {}, {}, [], false) && key1 != key2
    requires steps == [RunStep(AGAIN, key1, Resend), DeclineStep(Message(0, key1, AGAIN)), SettleStep(0, ServerStatus(429)), ReleaseStep(0)]
    requires var a := Pending(0, AGAIN, key1, AGAIN);
      w == World(Slot(None, None, None, 1), [a], [Declined], multiset{}, multiset{}, {Message(0, key1, AGAIN)}, {}, {key1}, [], false)
    ensures Legal(w0, steps) && After(w0, steps) == w
  {
    var a, m1 := Pending(0, AGAIN, key1, AGAIN), Message(0, key1, AGAIN);
    var w1 := w0.(slot := Slot(Some(a), Some(a), None, 1), ops := [a], status := [Open], waiting := multiset{0}, sent := {m1});
    var w2 := w1.(declined := {key1});
    var w3 := w2.(slot := Slot(None, Some(a), None, 1), status := [Declined], waiting := multiset{}, finishing := multiset{0});
    Chain(w0, steps, [w0, w1, w2, w3, w]);
  }

  /** The user sends it again under a new key, and both copies run. */
  lemma BothCopiesRun(w: World<string, string>, key1: string, key2: string, steps: seq<Step<string, string>>, end: World<string, string>)
    requires key1 != key2
    requires var a := Pending(0, AGAIN, key1, AGAIN);
      w == World(Slot(None, None, None, 1), [a], [Declined], multiset{}, multiset{}, {Message(0, key1, AGAIN)}, {}, {key1}, [], false)
    requires steps == [RunStep(AGAIN, key2, Resend), ApplyStep(Message(0, key1, AGAIN)), ApplyStep(Message(1, key2, AGAIN)),
                       SettleStep(1, Success), ReleaseStep(1)]
    requires var b := Pending(1, AGAIN, key2, AGAIN);
      end == World(Slot(None, None, None, 2), w.ops + [b], [Declined, Succeeded], multiset{}, multiset{},
                   w.sent + {Message(1, key2, AGAIN)}, {key1, key2}, {key1}, [(key1, AGAIN), (key2, AGAIN)], false)
    ensures Legal(w, steps) && After(w, steps) == end
  {
    var b, m2 := Pending(1, AGAIN, key2, AGAIN), Message(1, key2, AGAIN);
    var w1 := w.(slot := Slot(Some(b), Some(b), None, 2), ops := w.ops + [b], status := [Declined, Open], waiting := multiset{1}, sent := w.sent + {m2});
    var w2 := w1.(applied := {key1}, effects := [(key1, AGAIN)]);
    var w3 := w2.(applied := {key1, key2}, effects := [(key1, AGAIN), (key2, AGAIN)]);
    var w4 := w3.(slot := Slot(None, Some(b), None, 2), status := [Declined, Succeeded], waiting := multiset{}, finishing := multiset{1});
    Chain(w, steps, [w, w1, w2, w3, w4, end]);
  }

  /**
    The refusal rule is needed. If a server may decline a key (say with a 429) and later run
    an older copy of the same request, then one message the user resends after the refusal
    takes effect twice: once under the declined key and once under the new one.
   */
  lemma ForgottenRefusalDoubles(key1: string, key2: string) returns (w0: World<string, string>, steps: seq<Step<string, string>>)
    requires key1 != key2
    ensures Initial(w0) && Legal(w0, steps) && !w0.sticky
    ensures var w := After(w0, steps);
      && |w.ops| == 2 && w.status == [Declined, Succeeded]
      && w.ops[0].identity == w.ops[1].identity
      && w.effects == [(key1, AGAIN), (key2, AGAIN)]
  {
    w0 := World(NewSlot(None), [], [], multiset{}, multiset{}, {}, {}, {}, [], false);
    var a, b := Pending(0, AGAIN, key1, AGAIN), Pending(1, AGAIN, key2, AGAIN);
    var mid := World(Slot(None, None, None, 1), [a], [Declined], multiset{}, multiset{}, {Message(0, key1, AGAIN)}, {}, {key1}, [], false);
    var end := World(Slot(None, None, None, 2), mid.ops + [b], [Declined, Succeeded], multiset{}, multiset{},
                     mid.sent + {Message(1, key2, AGAIN)}, {key1, key2}, {key1}, [(key1, AGAIN), (key2, AGAIN)], false);
    var first := [RunStep(AGAIN, key1, Resend), DeclineStep(Message(0, key1, AGAIN)), SettleStep(0, ServerStatus(429)), ReleaseStep(0)];
    var second := [RunStep(AGAIN, key2, Resend), ApplyStep(Message(0, key1, AGAIN)), ApplyStep(Message(1, key2, AGAIN)),
                   SettleStep(1, Success), ReleaseStep(1)];
    OneCopyDeclined(w0, key1, key2, first, mid);
    BothCopiesRun(mid, key1, key2, second, end);
    RunsCompose(w0, first, second);
    steps := first + second;
  }

  lemma {:induction false} RunsCompose<I, R>(w: World<I, R>, first: seq<Step<I, R>>, second: seq<Step<I, R>>)
    requires Legal(w, first) && Legal(After(w, first), second)
    ensures Legal(w, first + second) && After(w, first + second) == After(After(w, first), second)
    decreases |first|
  {
    hide Next, Enabled;
    if first == [] {
      assert first + second == second;
    } else {
      assert (first + second)[1..] == first[1..] + second;
      RunsCompose(Next(w, first[0]), first[1..], second);
    }
  }

  /** A list of worlds that follow each other step by step is a legal run. */
  lemma {:induction false} Chain<I, R>(w: World<I, R>, steps: seq<Step<I, R>>, worlds: seq<World<I, R>>)
    requires |worlds| == |steps| + 1 && worlds[0] == w
    requires forall i :: 0 <= i < |steps| ==> Enabled(worlds[i], steps[i]) && worlds[i + 1] == Next(worlds[i], steps[i])
    ensures Legal(w, steps) && After(w, steps) == worlds[|steps|]
    decreases |steps|
  {
    hide Next, Enabled;
    if steps != [] {
      Chain(worlds[1], steps[1..], worlds[1..]);
    }
  }
}
