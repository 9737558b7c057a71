/** The HTTP retry layer: which failures may be sent again, how long to wait, and what a whole run does. */
module HttpRetry {
  import opened Options

  // ---------------------------------------------------------------- classification

  datatype Failure =
    | ApiFailure(code: string, status: Option<int>, optsOut: bool, retryAfterMs: Option<real>)
    | TypeFailure(socketCode: Option<string>)
    | OtherFailure

  datatype Reason = TimedOut | TooMany | ServerError | Network
  datatype Provenance = PreSend | PostSend | Answered
  datatype Classified = Classified(reason: Reason, provenance: Provenance, dropped: bool)

  const DROP_CODES := {"ECONNRESET", "ECONNABORTED", "EPIPE", "ETIMEDOUT", "UND_ERR_SOCKET", "ConnectionClosed"}
  const PRE_SEND_CODES := {"ECONNREFUSED", "ENOTFOUND", "EAI_AGAIN", "UND_ERR_CONNECT_TIMEOUT", "ConnectionRefused"}
  const RETRYABLE_STATUSES := {408, 425, 429, 502, 503, 504}

  predicate IsTransient(f: Failure)
    requires f.ApiFailure?
  {
    f.code == "TIMEOUT" || (f.status.Some? && f.status.value in RETRYABLE_STATUSES && !f.optsOut)
  }

  function Classify(f: Failure): Option<Classified> {
    match f
    case ApiFailure(code, status, _, _) =>
      if code == "TIMEOUT" then Some(Classified(TimedOut, PostSend, false))
      else if status.Some? && IsTransient(f) then
        if status.value == 429 then Some(Classified(TooMany, Answered, false))
        else Some(Classified(ServerError, if status.value >= 500 then PostSend else Answered, false))
      else None
    case TypeFailure(code) =>
      Some(Classified(Network,
        if code.Some? && code.value in PRE_SEND_CODES then PreSend else PostSend,
        code.Some? && code.value in DROP_CODES))
    case OtherFailure => None
  }

  function Upper(c: char): char { if 'a' <= c <= 'z' then c - 'a' + 'A' else c }

  function UpperCase(s: string): string {
    if s == "" then "" else [Upper(s[0])] + UpperCase(s[1..])
  }

  predicate IsIdempotent(verb: string) {
    UpperCase(verb) in {"GET", "PUT", "DELETE", "HEAD"}
  }

  // ---------------------------------------------------------------- configuration and delay

  const DEFAULT_MAX_ATTEMPTS := 3
  const MAX_ATTEMPTS_HARD_CAP := 10

  /** `None` in a field, or a missing configuration as a whole, means the default. */
  datatype Retry = Retry(maxAttempts: Option<int>, baseDelayMs: Option<real>, capDelayMs: Option<real>, retryAfterCapMs: Option<real>)

  datatype Runtime = Runtime(maxAttempts: int, baseDelayMs: real, capDelayMs: real, retryAfterCapMs: real, verb: string)

  function Or<T>(o: Option<T>, default: T): T { if o.Some? then o.value else default }

  function ResolveRuntime(config: Option<Retry>, noRetry: bool, verb: string): (r: Option<Runtime>)
    ensures r.None? <==> config.Some? && config.value.maxAttempts.Some? && !(1 <= config.value.maxAttempts.value <= 10)
    ensures r.Some? ==> 1 <= r.value.maxAttempts <= 10 && (noRetry ==> r.value.maxAttempts == 1)
    ensures config.None? ==> r == Some(Runtime(if noRetry then 1 else 3, 250.0, 2000.0, 10000.0, verb))
    ensures r.Some? && config.Some? ==>
      && r.value.verb == verb
      && (!noRetry ==> r.value.maxAttempts == match config.value.maxAttempts case Some(n) => n case None => 3)
      && r.value.baseDelayMs == (match config.value.baseDelayMs case Some(ms) => ms case None => 250.0)
      && r.value.capDelayMs == (match config.value.capDelayMs case Some(ms) => ms case None => 2000.0)
      && r.value.retryAfterCapMs == (match config.value.retryAfterCapMs case Some(ms) => ms case None => 10000.0)
  {
    var given := Or(config, Retry(None, None, None, None));
    var attempts := Or(given.maxAttempts, DEFAULT_MAX_ATTEMPTS);
    if attempts < 1 || attempts > MAX_ATTEMPTS_HARD_CAP then None
    else Some(Runtime(if noRetry then 1 else attempts, Or(given.baseDelayMs, 250.0), Or(given.capDelayMs, 2000.0),
                      Or(given.retryAfterCapMs, 10000.0), verb))
  }

  function Pow2(n: nat): real { if n == 0 then 1.0 else 2.0 * Pow2(n - 1) }

  function Min(a: real, b: real): real { if a <= b then a else b }
  function Max(a: real, b: real): real { if a <= b then b else a }

  function Backoff(cfg: Runtime, attempt: nat, retryAfterMs: Option<real>, random: real): real
    requires attempt >= 1
  {
    if retryAfterMs.Some? && retryAfterMs.value > 0.0 then retryAfterMs.value + retryAfterMs.value * 0.2 * random
    else
      var base := Min(cfg.baseDelayMs * Pow2(attempt - 1), cfg.capDelayMs);
      Max(0.0, base + base * 0.2 * (random * 2.0 - 1.0))
  }

  function RetryAfter(f: Failure): Option<real> {
    if f.ApiFailure? then f.retryAfterMs else None
  }

  /** The wait before another attempt, or nothing when the failure is final. */
  function PlanRetry(f: Failure, cfg: Runtime, attempt: nat, random: real): Option<real>
    requires attempt >= 1
  {
    var c := Classify(f);
    if c.None? then None
    else
      var unsafeReplay := c.value.provenance == PostSend && !IsIdempotent(cfg.verb) && !c.value.dropped;
      var waitTooLong := RetryAfter(f).Some? && RetryAfter(f).value > cfg.retryAfterCapMs;
      if unsafeReplay || waitTooLong || attempt >= cfg.maxAttempts then None
      else Some(Backoff(cfg, attempt, RetryAfter(f), random))
  }

  // ---------------------------------------------------------------- a whole run

  datatype Outcome = Success | Fails(failure: Failure)

  /**
    What the world does to one attempt: whether the caller had aborted before it, how the
    transport ended, whether the server ran the request, whether the caller had aborted by then,
    whether the following wait was aborted, and the random number drawn for that wait.
   */
  datatype Try = Try(abortedBefore: bool, outcome: Outcome, ran: bool, abortedAfter: bool, sleepAborted: bool, random: real)

  datatype Info = Info(attempt: nat, retryCount: nat)

  datatype End = Returned | Threw | Cancelled

  /** Attempts sent, waits taken, retry notices, terminal notices, and how often the server ran the request. */
  datatype Trace = Trace(attempts: nat, waits: seq<real>, notices: nat, terminals: seq<Info>, runs: nat, drops: nat, end: End)

  function Ran(t: Try): nat { if t.ran then 1 else 0 }

  /** The transport reported that the connection broke. */
  predicate Dropped(o: Outcome) {
    && o.Fails? && o.failure.TypeFailure? && o.failure.socketCode.Some?
    && o.failure.socketCode.value in {"ECONNRESET", "ECONNABORTED", "EPIPE", "ETIMEDOUT", "UND_ERR_SOCKET", "ConnectionClosed"}
  }

  function Drop(o: Outcome): nat { if Dropped(o) then 1 else 0 }

  /** Attempts from number `attempt` on, against a world that answers attempt `k` with `world(k)`. */
  function RunFrom(cfg: Runtime, world: nat -> Try, attempt: nat): Trace
    requires attempt >= 1
    decreases cfg.maxAttempts - attempt
  {
    var t := world(attempt);
    if t.abortedBefore then Trace(0, [], 0, [], 0, 0, Cancelled)
    else
      var last := Info(attempt, attempt - 1);
      if t.outcome.Success? then Trace(1, [], 0, [last], Ran(t), 0, Returned)
      else if t.abortedAfter then Trace(1, [], 0, [last], Ran(t), Drop(t.outcome), Cancelled)
      else
        var wait := PlanRetry(t.outcome.failure, cfg, attempt, t.random);
        if wait.None? then Trace(1, [], 0, [last], Ran(t), Drop(t.outcome), Threw)
        else if t.sleepAborted then Trace(1, [wait.value], 1, [], Ran(t), Drop(t.outcome), Cancelled)
        else
          var rest := RunFrom(cfg, world, attempt + 1);
          Trace(1 + rest.attempts, [wait.value] + rest.waits, 1 + rest.notices, rest.terminals,
                Ran(t) + rest.runs, Drop(t.outcome) + rest.drops, rest.end)
  }

  function Run(cfg: Runtime, world: nat -> Try): Trace { RunFrom(cfg, world, 1) }

  /** The request never left: no connection was made. */
  predicate NeverLeft(f: Failure) {
    && f.TypeFailure? && f.socketCode.Some?
    && f.socketCode.value in {"ECONNREFUSED", "ENOTFOUND", "EAI_AGAIN", "UND_ERR_CONNECT_TIMEOUT", "ConnectionRefused"}
  }

  /** The server answered in time that it did not run the request, and did not ask to be left alone. */
  predicate WasDeclined(f: Failure) {
    f.ApiFailure? && f.code != "TIMEOUT" && f.status in {Some(408), Some(425), Some(429)} && !f.optsOut
  }

  predicate ProvablyNotRun(o: Outcome) { o.Fails? && (NeverLeft(o.failure) || WasDeclined(o.failure)) }

  /**
    The world keeps its word: a request that never left, or was declined, was not run. After a
    time-out, any other status, or any other transport failure it may have run.
   */
  ghost predicate Truthful(world: nat -> Try) {
    forall k :: ProvablyNotRun(world(k).outcome) ==> !world(k).ran
  }

  ghost predicate Random(world: nat -> Try) {
    forall k :: 0.0 <= world(k).random < 1.0
  }

  /** A method that may run any number of times: one of the four, in letters of either case. */
  predicate IsSafe(verb: string) { Spells(verb, "GET") || Spells(verb, "PUT") || Spells(verb, "DELETE") || Spells(verb, "HEAD") }

  predicate Spells(verb: string, capitals: string) {
    |verb| == |capitals| && forall i :: 0 <= i < |verb| ==> verb[i] == capitals[i] || verb[i] as int == capitals[i] as int + 32
  }

  lemma {:induction false} UpperAt(s: string)
    ensures |UpperCase(s)| == |s| && forall i :: 0 <= i < |s| ==> UpperCase(s)[i] == Upper(s[i])
  {
    if s != "" { UpperAt(s[1..]); }
  }

  lemma SpelledOut(verb: string, capitals: string)
    requires forall i :: 0 <= i < |capitals| ==> 'A' <= capitals[i] <= 'Z'
    ensures UpperCase(verb) == capitals <==> Spells(verb, capitals)
  {
    UpperAt(verb);
    hide UpperCase;
    if |verb| == |capitals| {
      forall i | 0 <= i < |verb| ensures Upper(verb[i]) == capitals[i] <==> verb[i] == capitals[i] || verb[i] as int == capitals[i] as int + 32 {}
      if Spells(verb, capitals) { assert UpperCase(verb) == capitals; }
    }
  }

  lemma SafeVerbs(verb: string)
    ensures IsIdempotent(verb) <==> IsSafe(verb)
  {
    SpelledOut(verb, "GET");
    SpelledOut(verb, "PUT");
    SpelledOut(verb, "DELETE");
    SpelledOut(verb, "HEAD");
    hide Spells, UpperCase;
  }

  /** A failure after which the client may send the request again, by its method. */
  predicate MayRepeat(f: Failure, verb: string) {
    || NeverLeft(f) || WasDeclined(f) || Dropped(Fails(f))
    || (IsSafe(verb) &&
         match f
         case ApiFailure(code, status, optsOut, _) => code == "TIMEOUT" || (status in {Some(502), Some(503), Some(504)} && !optsOut)
         case TypeFailure(_) => true
         case OtherFailure => false)
  }

  /** The server does not ask for a longer wait than is granted. */
  predicate WaitGranted(f: Failure, cap: real) {
    f.ApiFailure? && f.retryAfterMs.Some? ==> f.retryAfterMs.value <= cap
  }

  /** The reason a repetition is reported under. */
  function ReportedReason(f: Failure): Reason {
    if f.TypeFailure? then Network
    else if f.ApiFailure? && f.code == "TIMEOUT" then TimedOut
    else if f.ApiFailure? && f.status == Some(429) then TooMany
    else ServerError
  }

  /**
    A failed attempt is followed by another exactly when attempts are left, the wait the server asks
    for is granted, and either the request was certainly not run, or its connection was reported
    broken, or its method is safe and the failure is a time-out, a 502, 503 or 504, or one of the
    transport.
   */
  lemma RepeatsExactly(f: Failure, cfg: Runtime, attempt: nat, random: real)
    requires attempt >= 1
    ensures PlanRetry(f, cfg, attempt, random).Some? <==>
      attempt < cfg.maxAttempts && MayRepeat(f, cfg.verb) && WaitGranted(f, cfg.retryAfterCapMs)
    ensures MayRepeat(f, cfg.verb) ==> Classify(f).Some? && Classify(f).value.reason == ReportedReason(f)
    ensures Classify(f).Some? ==>
      Classify(f).value == Classified(ReportedReason(f), if NeverLeft(f) then PreSend else if WasDeclined(f) then Answered else PostSend, Dropped(Fails(f)))
  {
    SafeVerbs(cfg.verb);
    hide IsIdempotent, IsSafe;
  }

  /**
    The replay gate: a request that is not idempotent runs at most once more than the number of
    attempts whose connection the transport reported dropped; with none, at most once.
   */
  lemma {:induction false} ReplayGate(cfg: Runtime, world: nat -> Try, attempt: nat)
    requires attempt >= 1 && Truthful(world) && !IsSafe(cfg.verb)
    ensures RunFrom(cfg, world, attempt).runs <= 1 + RunFrom(cfg, world, attempt).drops
    decreases cfg.maxAttempts - attempt
  {
    var t := world(attempt);
    if t.outcome.Fails? { RepeatsExactly(t.outcome.failure, cfg, attempt, t.random); }
    hide PlanRetry, IsSafe;
    if !t.abortedBefore && t.outcome.Fails? && !t.abortedAfter && PlanRetry(t.outcome.failure, cfg, attempt, t.random).Some? && !t.sleepAborted {
      ReplayGate(cfg, world, attempt + 1);
    }
  }

  lemma PostIsNotSafe()
    ensures !IsSafe("POST")
  {
    assert "POST"[0] == 'P' && "HEAD"[0] == 'H' && !Spells("POST", "HEAD");
    assert |"POST"| == 4 && |"GET"| == 3 && |"PUT"| == 3 && |"DELETE"| == 6;
  }

  /** The exception is real: a connection reset after the server accepted a POST lets it run twice. */
  lemma DropCanDouble(cfg: Runtime, world: nat -> Try)
    requires cfg == Runtime(3, 250.0, 2000.0, 10000.0, "POST")
    requires world(1) == Try(false, Fails(TypeFailure(Some("ECONNRESET"))), true, false, false, 0.5)
    requires world(2) == Try(false, Success, true, false, false, 0.5)
    ensures !IsSafe(cfg.verb) && Run(cfg, world).runs == 2
  {
    RepeatsExactly(world(1).outcome.failure, cfg, 1, 0.5);
    PostIsNotSafe();
    hide PlanRetry, IsSafe, Classify;
    assert RunFrom(cfg, world, 2).runs == 1;
  }

  /** The attempts sent whose outcome does not prove that the server did not run them. */
  function Exposed(cfg: Runtime, world: nat -> Try, attempt: nat): nat
    requires attempt >= 1
    decreases cfg.maxAttempts - attempt
  {
    var t := world(attempt);
    if t.abortedBefore then 0
    else
      var here := if ProvablyNotRun(t.outcome) then 0 else 1;
      if t.outcome.Fails? && !t.abortedAfter && PlanRetry(t.outcome.failure, cfg, attempt, t.random).Some? && !t.sleepAborted then
        here + Exposed(cfg, world, attempt + 1)
      else here
  }

  /** The client sees the same; only what the server ran may differ. */
  ghost predicate SameToClient(world: nat -> Try, other: nat -> Try) {
    forall k :: other(k) == world(k).(ran := other(k).ran)
  }

  /** The world in which the server ran every request it may have run. */
  function EagerServer(world: nat -> Try): nat -> Try {
    (k: nat) => world(k).(ran := !ProvablyNotRun(world(k).outcome))
  }

  lemma {:induction false} RunsAreExposed(cfg: Runtime, world: nat -> Try, other: nat -> Try, attempt: nat)
    requires attempt >= 1 && Truthful(other) && SameToClient(world, other)
    ensures RunFrom(cfg, other, attempt).runs <= Exposed(cfg, world, attempt)
    decreases cfg.maxAttempts - attempt
  {
    var t := world(attempt);
    assert other(attempt) == t.(ran := other(attempt).ran);
    if !t.abortedBefore && t.outcome.Fails? && !t.abortedAfter && PlanRetry(t.outcome.failure, cfg, attempt, t.random).Some? && !t.sleepAborted {
      RunsAreExposed(cfg, world, other, attempt + 1);
    }
  }

  lemma {:induction false} EagerRunsAll(cfg: Runtime, world: nat -> Try, attempt: nat)
    requires attempt >= 1
    ensures RunFrom(cfg, EagerServer(world), attempt).runs == Exposed(cfg, world, attempt)
    decreases cfg.maxAttempts - attempt
  {
    var t := world(attempt);
    if !t.abortedBefore && t.outcome.Fails? && !t.abortedAfter && PlanRetry(t.outcome.failure, cfg, attempt, t.random).Some? && !t.sleepAborted {
      EagerRunsAll(cfg, world, attempt + 1);
    }
  }

  /**
    The exact form, for every method: whatever a truthful server did behind what the client saw,
    it ran the request at most once, if and only if at most one attempt was sent whose outcome
    does not prove that it was not run.
   */
  lemma RunsOnceExactly(cfg: Runtime, world: nat -> Try)
    ensures Exposed(cfg, world, 1) <= 1 <==>
      forall other: nat -> Try :: Truthful(other) && SameToClient(world, other) ==> Run(cfg, other).runs <= 1
  {
    if Exposed(cfg, world, 1) <= 1 {
      forall other: nat -> Try | Truthful(other) && SameToClient(world, other) ensures Run(cfg, other).runs <= 1 {
        RunsAreExposed(cfg, world, other, 1);
      }
    } else {
      var eager := EagerServer(world);
      EagerRunsAll(cfg, world, 1);
      assert Truthful(eager) && SameToClient(world, eager) && Run(cfg, eager).runs > 1;
    }
  }

  function WaitBound(cfg: Runtime): real { 1.2 * Max(0.0, Max(cfg.capDelayMs, cfg.retryAfterCapMs)) }

  function Abs(x: real): real { if x < 0.0 then -x else x }

  lemma ProductNonNegative(a: real, b: real)
    requires a >= 0.0 && b >= 0.0
    ensures a * b >= 0.0
  {
  }

  lemma UnitBound(x: real, factor: real)
    requires -1.0 <= factor <= 1.0
    ensures -Abs(x) <= x * factor <= Abs(x)
  {
    ProductNonNegative(Abs(x), 1.0 - factor);
    ProductNonNegative(Abs(x), 1.0 + factor);
    assert Abs(x) * (1.0 - factor) == Abs(x) - Abs(x) * factor;
    assert Abs(x) * (1.0 + factor) == Abs(x) + Abs(x) * factor;
    assert Abs(x) * factor == if x < 0.0 then -(x * factor) else x * factor;
  }

  lemma JitterBound(base: real, cap: real, random: real)
    requires base <= cap && 0.0 <= random < 1.0
    ensures 0.0 <= Max(0.0, base + base * 0.2 * (random * 2.0 - 1.0)) <= 1.2 * Max(0.0, cap)
  {
    UnitBound(base * 0.2, random * 2.0 - 1.0);
  }

  lemma ServerFloorBound(floor: real, cap: real, random: real)
    requires 0.0 < floor <= cap && 0.0 <= random < 1.0
    ensures 0.0 <= floor + floor * 0.2 * random <= 1.2 * cap
  {
    UnitBound(floor * 0.2, random);
  }

  /** The wait is the server's, or the doubling delay up to its cap, give or take a fifth; the server's is never cut short. */
  predicate IsWait(cfg: Runtime, attempt: nat, retryAfterMs: Option<real>, wait: real)
    requires attempt >= 1
  {
    if retryAfterMs.Some? && retryAfterMs.value > 0.0 then retryAfterMs.value <= wait <= 1.2 * retryAfterMs.value
    else
      var doubled := cfg.baseDelayMs * Pow2(attempt - 1);
      var base := if doubled <= cfg.capDelayMs then doubled else cfg.capDelayMs;
      if base < 0.0 then wait == 0.0 else 0.8 * base <= wait <= 1.2 * base
  }

  lemma NegativeBase(base: real, random: real)
    requires base < 0.0 && 0.0 <= random < 1.0
    ensures Max(0.0, base + base * 0.2 * (random * 2.0 - 1.0)) == 0.0
  {
    UnitBound(base * 0.2, random * 2.0 - 1.0);
  }

  lemma WithinFifth(base: real, random: real)
    requires base >= 0.0 && 0.0 <= random < 1.0
    ensures 0.8 * base <= Max(0.0, base + base * 0.2 * (random * 2.0 - 1.0)) <= 1.2 * base
  {
    UnitBound(base * 0.2, random * 2.0 - 1.0);
  }

  lemma WithinServerFifth(floor: real, random: real)
    requires floor > 0.0 && 0.0 <= random < 1.0
    ensures floor <= floor + floor * 0.2 * random <= 1.2 * floor
  {
    ProductNonNegative(floor * 0.2, random);
    UnitBound(floor * 0.2, random);
  }

  lemma BackoffIsWait(cfg: Runtime, attempt: nat, retryAfterMs: Option<real>, random: real)
    requires attempt >= 1 && 0.0 <= random < 1.0
    ensures IsWait(cfg, attempt, retryAfterMs, Backoff(cfg, attempt, retryAfterMs, random))
  {
    if retryAfterMs.Some? && retryAfterMs.value > 0.0 {
      WithinServerFifth(retryAfterMs.value, random);
    } else {
      var doubled := cfg.baseDelayMs * Pow2(attempt - 1);
      var base := if doubled <= cfg.capDelayMs then doubled else cfg.capDelayMs;
      if base < 0.0 { NegativeBase(base, random); } else { WithinFifth(base, random); }
    }
  }

  lemma BackoffBound(cfg: Runtime, attempt: nat, retryAfterMs: Option<real>, random: real)
    requires attempt >= 1 && 0.0 <= random < 1.0
    requires retryAfterMs.Some? ==> retryAfterMs.value <= cfg.retryAfterCapMs
    ensures 0.0 <= Backoff(cfg, attempt, retryAfterMs, random) <= WaitBound(cfg)
  {
    if retryAfterMs.Some? && retryAfterMs.value > 0.0 {
      ServerFloorBound(retryAfterMs.value, cfg.retryAfterCapMs, random);
    } else {
      var scaled := cfg.baseDelayMs * Pow2(attempt - 1);
      JitterBound(Min(scaled, cfg.capDelayMs), cfg.capDelayMs, random);
    }
  }

  /** No run sends more attempts than configured, and no wait exceeds a fifth over the larger cap. */
  lemma {:induction false} RunIsBounded(cfg: Runtime, world: nat -> Try, attempt: nat)
    requires 1 <= attempt <= cfg.maxAttempts && Random(world)
    ensures RunFrom(cfg, world, attempt).attempts <= cfg.maxAttempts - attempt + 1
    ensures |RunFrom(cfg, world, attempt).waits| == RunFrom(cfg, world, attempt).notices
    ensures forall i :: 0 <= i < |RunFrom(cfg, world, attempt).waits| ==> 0.0 <= RunFrom(cfg, world, attempt).waits[i] <= WaitBound(cfg)
    decreases cfg.maxAttempts - attempt
  {
    var t := world(attempt);
    if !t.abortedBefore && t.outcome.Fails? && !t.abortedAfter && PlanRetry(t.outcome.failure, cfg, attempt, t.random).Some? {
      BackoffBound(cfg, attempt, RetryAfter(t.outcome.failure), t.random);
      if !t.sleepAborted { RunIsBounded(cfg, world, attempt + 1); }
    }
  }

  /** The caller's signal ended the run where no notice follows: before an attempt, or in a wait. */
  predicate SilentlyAborted(cfg: Runtime, world: nat -> Try, attempt: nat)
    requires attempt >= 1
    decreases cfg.maxAttempts - attempt
  {
    var t := world(attempt);
    t.abortedBefore ||
    (t.outcome.Fails? && !t.abortedAfter && PlanRetry(t.outcome.failure, cfg, attempt, t.random).Some? &&
      (t.sleepAborted || SilentlyAborted(cfg, world, attempt + 1)))
  }

  /**
    A run emits exactly one terminal notice, whose retry count is the number of retry notices
    and whose attempt is the last one sent, unless it was aborted before an attempt or in a
    wait; then it emits none.
   */
  lemma {:induction false} OneTerminalNotice(cfg: Runtime, world: nat -> Try, attempt: nat)
    requires attempt >= 1
    ensures var trace := RunFrom(cfg, world, attempt);
      trace.terminals == if SilentlyAborted(cfg, world, attempt) then []
                         else [Info(attempt + trace.notices, attempt - 1 + trace.notices)]
    ensures !SilentlyAborted(cfg, world, attempt) ==> RunFrom(cfg, world, attempt).attempts == RunFrom(cfg, world, attempt).notices + 1
    decreases cfg.maxAttempts - attempt
  {
    var t := world(attempt);
    if !t.abortedBefore && t.outcome.Fails? && !t.abortedAfter && PlanRetry(t.outcome.failure, cfg, attempt, t.random).Some? && !t.sleepAborted {
      OneTerminalNotice(cfg, world, attempt + 1);
    }
  }

  // ---------------------------------------------------------------- a run, told from its world

  /** Attempt `k` is followed by another. */
  ghost predicate GoesOn(cfg: Runtime, world: nat -> Try, k: nat) {
    var t := world(k);
    && !t.abortedBefore && t.outcome.Fails? && !t.abortedAfter && !t.sleepAborted
    && k < cfg.maxAttempts && MayRepeat(t.outcome.failure, cfg.verb) && WaitGranted(t.outcome.failure, cfg.retryAfterCapMs)
  }

  /** How a run ends whose attempt `k` is not followed by another: whether that attempt was sent, a wait begun, and the result. */
  ghost predicate EndsAt(cfg: Runtime, world: nat -> Try, k: nat, sent: bool, waited: bool, end: End) {
    var t := world(k);
    if t.abortedBefore then !sent && !waited && end == Cancelled
    else if t.outcome.Success? then sent && !waited && end == Returned
    else if t.abortedAfter then sent && !waited && end == Cancelled
    else if k < cfg.maxAttempts && MayRepeat(t.outcome.failure, cfg.verb) && WaitGranted(t.outcome.failure, cfg.retryAfterCapMs) then
      sent && waited && end == Cancelled
    else sent && !waited && end == Threw
  }

  /** The wait after attempt `k` is as it should be. */
  ghost predicate WaitAfter(cfg: Runtime, world: nat -> Try, k: nat, wait: real)
    requires k >= 1
  {
    world(k).outcome.Fails? && IsWait(cfg, k, RetryAfter(world(k).outcome.failure), wait)
  }

  lemma AttemptGoesOn(cfg: Runtime, world: nat -> Try, k: nat)
    requires k >= 1 && Random(world) && GoesOn(cfg, world, k)
    ensures var trace, rest := RunFrom(cfg, world, k), RunFrom(cfg, world, k + 1);
      && trace.attempts == 1 + rest.attempts && trace.end == rest.end
      && trace.waits != [] && trace.waits[1..] == rest.waits && WaitAfter(cfg, world, k, trace.waits[0])
  {
    var t := world(k);
    RepeatsExactly(t.outcome.failure, cfg, k, t.random);
    BackoffIsWait(cfg, k, RetryAfter(t.outcome.failure), t.random);
    hide MayRepeat, WaitGranted, IsWait, Backoff, Classify;
  }

  lemma AttemptEnds(cfg: Runtime, world: nat -> Try, k: nat)
    requires k >= 1 && Random(world) && !GoesOn(cfg, world, k)
    ensures var trace := RunFrom(cfg, world, k);
      && trace.attempts <= 1 && |trace.waits| <= 1 && EndsAt(cfg, world, k, trace.attempts == 1, trace.waits != [], trace.end)
      && (trace.waits != [] ==> WaitAfter(cfg, world, k, trace.waits[0]))
  {
    var t := world(k);
    if t.outcome.Fails? {
      RepeatsExactly(t.outcome.failure, cfg, k, t.random);
      BackoffIsWait(cfg, k, RetryAfter(t.outcome.failure), t.random);
    }
    hide MayRepeat, WaitGranted, IsWait, Backoff, Classify;
  }

  /**
    A whole run is determined by its world: it goes from attempt to attempt for as long as each one
    goes on, waits as it should between them, and ends at the first that does not, `last`.
   */
  lemma {:induction false} RunIsExact(cfg: Runtime, world: nat -> Try, attempt: nat, last: nat)
    requires 1 <= attempt <= last && Random(world)
    requires (forall k :: attempt <= k < last ==> GoesOn(cfg, world, k)) && !GoesOn(cfg, world, last)
    ensures var trace := RunFrom(cfg, world, attempt);
      && last - attempt <= trace.attempts <= last - attempt + 1 && last - attempt <= |trace.waits| <= last - attempt + 1
      && EndsAt(cfg, world, last, trace.attempts == last - attempt + 1, |trace.waits| == last - attempt + 1, trace.end)
      && forall i :: 0 <= i < |trace.waits| ==> WaitAfter(cfg, world, attempt + i, trace.waits[i])
    decreases last - attempt
  {
    hide RunFrom, WaitAfter, GoesOn, EndsAt;
    if attempt == last {
      AttemptEnds(cfg, world, last);
    } else {
      assert GoesOn(cfg, world, attempt);
      AttemptGoesOn(cfg, world, attempt);
      RunIsExact(cfg, world, attempt + 1, last);
      var rest, trace := RunFrom(cfg, world, attempt + 1), RunFrom(cfg, world, attempt);
      forall i | 0 <= i < |trace.waits| ensures WaitAfter(cfg, world, attempt + i, trace.waits[i]) {
        if i > 0 { assert trace.waits[i] == rest.waits[i - 1] && attempt + i == (attempt + 1) + (i - 1); }
      }
    }
  }

  /** The three promises for a whole request, whatever its configuration. */
  lemma RequestPromises(config: Option<Retry>, noRetry: bool, verb: string, world: nat -> Try)
    requires Truthful(world) && Random(world)
    ensures var cfg := ResolveRuntime(config, noRetry, verb);
      cfg.Some? ==>
        var trace := Run(cfg.value, world);
        && trace.attempts <= 10 && (noRetry ==> trace.attempts <= 1)
        && (!IsSafe(verb) && trace.drops == 0 ==> trace.runs <= 1)
        && (forall i :: 0 <= i < |trace.waits| ==> trace.waits[i] <= WaitBound(cfg.value))
        && (!SilentlyAborted(cfg.value, world, 1) ==> trace.terminals == [Info(trace.attempts, trace.notices)])
  {
    var cfg := ResolveRuntime(config, noRetry, verb);
    if cfg.Some? {
      RunIsBounded(cfg.value, world, 1);
      if !IsSafe(verb) { ReplayGate(cfg.value, world, 1); }
      OneTerminalNotice(cfg.value, world, 1);
    }
  }
}
