# Verified models of the agentsfleet CLI and scripts

These Dafny modules model the stateful cores of the `agentsfleet` command line client and of two
repository scripts, and prove what those cores promise over every input, every interleaving or
every run. `dafny verify dfyconfig.toml` checks all of them.

Where the source updates an object step by step, the model is a class with the same fields, and
every method is proved equal to a specification function on the object's state. The theorems are
then lemmas about those functions and about runs built from them.

| area | modules |
|---|---|
| retained operations: one request and one key until the outcome is known | `RetainedRequests` |
| the chat client: draft session, setup session, actions, recovery | `Chat`, `ChatClient`, `ChatProofs`, `ChatReview`, `ChatWrites`, `ChatShown`, `ChatKeys`, `ChatRecovery`, `RecoveryRuns` |
| the live steer tail and its turn | `SteerTail`, `SteerScreen`, `SteerTurn` |
| server-sent events: framing, fields, round trips | `SseFraming`, `SseFields`, `SseRoundTrip`, `Splitting` |
| the loopback login server | `LoginCallbacks` |
| the HTTP replay gate | `HttpRetry` |
| task progress printing | `TaskActivity`, `ActivityShown`, `ActivityReplay`, `ActivityEviction` |
| merging and grading coverage reports | `PyText`, `Lcov`, `LcovRender`, `LcovRoundTrip`, `LcovReport`, `LcovMerge`, `LcovTotals`, `LcovGrades`, `Sorting` |
| prices and money | `Money`, `Prices`, `Decimals` |
| grouping charges | `Billing` |
| shared definitions | `Options`, `OrderedMaps`, `Permutations` |

## How the worlds are modelled

- **Retained operations.** `RetainedRequests.World` puts one client slot beside a server and a network
  that keeps every request ever sent and may hand any copy to the server at any later time, any
  number of times. Runs, retries, clears, completions and their hooks interleave freely. The server
  assumption: a key that took effect is never applied again, a success answer means the key took
  effect, and a status from 400 to 499 other than 408 means the key was declined. A 408, any other
  status and no answer may come whether or not the request ran. `sticky` states that a declined key
  stays declined; `ForgottenRefusalDoubles` shows that without it one message can take effect twice.
- **Chat.** Actions run one after another, each settling before the next starts, as in the interactive
  loop. Each action receives the answers of its calls as parameters, so a lemma over all commands
  covers every answer, refusal, lost reply and lost access.
- **Steer.** The channel carries frames without replay; a subscription sees what is published from the
  moment it opens. Frames of an event follow its accepted message. The abort after a stop takes effect
  before any further frame.
- **Login.** A handler is two atomic parts around the await on its body, interleaved with cancellation,
  expiry, finishing and closing. The world keeps how each request arrived and resumed.
- **HTTP.** Attempt `k` meets whatever the world does at `k`; `Truthful` says that a request did not run if
  no connection was made, or if it was answered with a 408, 425 or 429 (sections 9.2.2 and 10.2.3 of
  RFC 9110 are the relevant standard). Statuses and socket codes are written out there, apart from the
  client's own classification.

## What is false of the code, and exactly when it holds

- A written event frame reads back only when its data starts with a non-empty line and no line ends with
  a carriage return: `FrameRoundTrip` is an if and only if, `DataThatIsLost` gives inputs.
- A recovered write is the original one only when the identifiers in its record are canonical version 7
  ones, which an invocation asks for and the wire does not, and no argument it needs is empty, because an
  empty option counts as absent: `RecoveryIsExact` is an if and only if, `RealRunsRecover` reduces it to the
  values a real run takes from the wire, and `RecordsThatFail` gives inputs.
- An offered recovery record can be of a write that is already settled, because retrying a Publish or an Apply
  does not clear it: `RecordLeftBehind` is such a run, and `OfferedRecordNames` says exactly when.
- What the user is told about an uncertain outcome names it exactly when it is a setup write, or a draft write
  beside which no setup record is offered (`ReportNamesExactly`); `MessageUnreported` is a run that hides a
  lost message.
- An aborted steer turn whose message is not accepted yet may still run exactly when the message has been sent
  (`AbortedRunsExactlyIfSent`); `InterruptedTurnMayRun` is such a run.
- A rejected progress frame stays rejected exactly while its operation is retained (`RejectedForGood`);
  `ForgottenGoesBack` is a run in which an evicted operation goes back.
- A request that is not idempotent can run twice after a reported drop (`DropCanDouble`). That it ran at most
  once is certain exactly when at most one attempt was sent that may have run (`RunsOnceExactly`).
- A run of attempts emits one terminal notice except when it is aborted before an attempt or during a wait:
  `OneTerminalNotice` gives both cases.
- Replayed progress is silent exactly when no two accepted frames of one stage, neither overtaken later, show
  different lines (`SilentExactly`); `EqualSequencesRepeat` gives two frames that print again. Strictly
  increasing sequences are enough (`IncreasingIsEnough`) and not needed (`UnsequencedIsSilent`).
- A shard's count can uncover a line that other shards cover exactly when it is negative (`NeverUncovers`,
  with `NegativeHitsUncover` for an input), and the missed lines by crate add up exactly when no count is
  negative (`MissedAddsUp`, with `NegativeLineIsNowhere` for an input). The per-file grade agrees with the
  totals under the same condition (`GradesAgree`, with `NegativeLineSplitsGrades` for an input).
- Two charges whose identifiers hold no NUL share a group exactly when they are the same work, or one is of a
  fleet named `authoring` whose event is named like the other's authoring attempt (`SameGroup`, with
  `CollidingRows` for an input).
- A group's time passes over a dated row exactly when the first instant its rows record names no date and
  some row's does (`TimeIsEarliest`); `UndatedRowHidesDate` gives the rows.
- A balance prints as `>-$0.0001` instead of an amount exactly when it is a debt of less than half a display
  unit (`DollarsAreClose`).

## Model

| member | source | states |
|---|---|---|
| RetainedRequests.RetainedRequest.constructor | cli/src/commands/chat/retained-request.ts:14-19 | a new slot holds nothing but the key it was given |
| RetainedRequests.RetainedRequest.Run | cli/src/commands/chat/retained-request.ts:26-37 | a different identity is refused, a first run retains one key and the request built for it, and the held operation is then launched |
| RetainedRequests.RetainedRequest.Retry | cli/src/commands/chat/retained-request.ts:39-48 | only a held operation that is not running is launched, unchanged |
| RetainedRequests.RetainedRequest.Settle | cli/src/commands/chat/retained-request.ts:50-53 | an answer releases the held operation only if it is that operation's own and is a success or a 4xx other than 408 |
| RetainedRequests.RetainedRequest.Release | cli/src/commands/chat/retained-request.ts:54 | the final hook unlocks only its own operation |
| RetainedRequests.RetainedRequest.Clear | cli/src/commands/chat/retained-request.ts:24 | forgets the held operation and the given key, and leaves a running execution marked |
| RetainedRequests.StaleStepsChangeNothing | cli/src/commands/chat/retained-request.ts:49-54 | in every world a run reaches, the answer or final hook of another operation than the held one leaves the held one, its verdict and its lock as they were |
| RetainedRequests.HeldUntilDecided | cli/src/commands/chat/retained-request.ts:49-53 | in every world a run reaches, an answer of 408, of any status outside 400 to 499, or none leaves the held operation held; a success and every other 4xx release it |
| RetainedRequests.UserStepsAreExact | cli/src/commands/chat/retained-request.ts:24-48 | a run of another identity or during an execution changes nothing, a held request goes out again as it is, a new one takes the recovered key first, and a clear lets go of both |
| RetainedRequests.RunKeepsInvariant | cli/src/commands/chat/retained-request.ts:24-57 | the client, network and server invariant holds after every interleaving of runs, retries, clears, deliveries, refusals and completions |
| RetainedRequests.ExactlyOnce | cli/src/commands/chat/retained-request.ts:24-57 | over every run no key takes effect twice, a reported success took effect exactly once, a reported refusal never did while refusals are kept, and every effect is the exact request of an operation the user started |
| RetainedRequests.OneKeyOneRequest | cli/src/commands/chat/retained-request.ts:26-57 | over every run one key is only ever sent with one request, no operation has two executions in progress, and only the newest operation can be unresolved |
| RetainedRequests.VerdictsAreKept | cli/src/commands/chat/retained-request.ts:49-53 | a resolved operation keeps its verdict, and only a clear or its own decisive answer resolves one |
| RetainedRequests.MintedOnlyWhenResolved | cli/src/commands/chat/retained-request.ts:30-34 | a key is minted only by a run, and only when every earlier operation is resolved |
| RetainedRequests.ForgottenRefusalDoubles | cli/src/commands/chat/retained-request.ts:51-53 | a concrete legal run in which a server that forgets a refusal lets one message take effect twice |
| ChatClient.Perform | cli/src/commands/chat/retained-request.ts:49-55 | one execution settles and then releases its operation |
| ChatClient.SetupSession.constructor | cli/src/commands/chat/setup-session.ts:28-33 | a recovered key goes to the one write it was recovered for |
| ChatClient.SetupSession.Recovery | cli/src/commands/chat/setup-session.ts:35-38 | the record is offered exactly while a write is unresolved or the saved fleet is partial |
| ChatClient.SetupSession.Clear | cli/src/commands/chat/setup-session.ts:40-44 | forgets all three writes, the record, the replayable Save and the fleet |
| ChatClient.SetupSession.SaveCandidate | cli/src/commands/chat/setup-session.ts:46-69 | a Save is refused beside another unresolved write; its record names its key and arguments while its outcome is unknown |
| ChatClient.SetupSession.Progress | cli/src/commands/chat/setup-session.ts:71-78 | a Save is retried, or replayed, or its fleet read, in that order of preference |
| ChatClient.SetupSession.PublishCandidate | cli/src/commands/chat/setup-session.ts:80-100 | a Publish is refused beside another unresolved write; the target decides path, body and tag together |
| ChatClient.SetupSession.ApplyCandidate | cli/src/commands/chat/setup-session.ts:102-122 | an Apply is refused beside another unresolved write and carries the fleet's tag |
| ChatClient.SetupSession.RetryPublication | cli/src/commands/chat/setup-session.ts:126 | re-sends the held Publish and nothing else |
| ChatClient.SetupSession.RetryApplication | cli/src/commands/chat/setup-session.ts:127 | re-sends the held Apply and nothing else |
| ChatClient.DraftSession.constructor | cli/src/commands/chat/session.ts:30-36 | a session may start on a known draft and with a recovered key |
| ChatClient.DraftSession.Send | cli/src/commands/chat/session.ts:57-72 | the first message creates the draft, later ones go to it, and a created draft is remembered |
| ChatClient.DraftSession.Create | cli/src/commands/chat/session.ts:80-87 | a draft is opened from its source alone under the same retained identity as a message |
| ChatClient.DraftSession.Retry | cli/src/commands/chat/session.ts:89 | the held draft write is sent again, with the same hooks |
| ChatClient.DraftSession.Refresh | cli/src/commands/chat/session.ts:51-55 | a read needs a draft, remembers what it reads, and forgets everything on lost access |
| ChatClient.DraftSession.Patch | cli/src/commands/chat/session.ts:91-95 | a patch reads first and is not sent when that read fails |
| ChatClient.DraftSession.Guarded | cli/src/commands/chat/session.ts:135-139 | a 401, 403, 404 or 410 clears the session, and no other outcome does |
| ChatClient.ChatActions.constructor | cli/src/commands/chat/actions.ts:20-31 | a new invocation has shown nothing and has not started work |
| ChatClient.ChatActions.Message | cli/src/commands/chat/actions.ts:50-61 | a message is refused while anything is unresolved, and otherwise forgets the shown review first |
| ChatClient.ChatActions.Create | cli/src/commands/chat/actions.ts:64-72 | creating a draft forgets the shown review and names itself as the operation |
| ChatClient.ChatActions.ReviewSetup | cli/src/commands/chat/actions.ts:74-90 | a review of a linked fleet is kept only beside a fleet whose setup revision is the reviewed target |
| ChatClient.ChatActions.Save | cli/src/commands/chat/actions.ts:92-103 | a Save uses only the shown review |
| ChatClient.ChatActions.Publish | cli/src/commands/chat/actions.ts:105-114 | a Publish uses only the shown draft |
| ChatClient.ChatActions.Apply | cli/src/commands/chat/actions.ts:116-127 | an Apply needs a shown tag, and its success forgets the review |
| ChatClient.ChatActions.Retry | cli/src/commands/chat/actions.ts:129-160 | a retry acts on the named operation alone |
| ChatClient.ChatActions.Model | cli/src/commands/chat/actions.ts:162-165 | only a successful model change forgets the review |
| ChatClient.ChatActions.Remove | cli/src/commands/chat/actions.ts:168 | only a successful removal clears everything |
| ChatClient.ChatActions.Clear | cli/src/commands/chat/actions.ts:46 | clears the review, the draft session and the setup session |
| ChatProofs.OneUnresolvedOperation | cli/src/commands/chat/actions.ts:50-187 | after every run at most one of draft write, Save, Publish and Apply is unresolved, and the operation field names it |
| ChatProofs.RetryResendsIt | cli/src/commands/chat/actions.ts:129-160 | a retry sends exactly the unresolved request under its original key, once, and it stays held exactly when the answer settles nothing |
| ChatProofs.OnlyTheseResolve | cli/src/commands/chat/actions.ts:46-187 | only a decisive retry, a clear, a removal or lost access lets go of an unresolved operation |
| ChatProofs.UntilResolved | cli/src/commands/chat/actions.ts:46-187 | over any run during which an operation stays unresolved it stays the same one, and every write sent is its one original request sent again |
| ChatProofs.RecoveryNamesIt | cli/src/commands/chat/setup-session.ts:36-122 | in every run, while a setup write is unresolved the printed record names it, its key and its arguments |
| ChatReview.SetupWritesCarryTheReview | cli/src/commands/chat/actions.ts:50-127 | in every run each new Save, Publish or Apply carries the candidate of the last review shown with nothing invalidating it since, Save and Apply its digest, Apply the tag of a fleet at the reviewed target; every repeated write was sent before |
| ChatReview.EveryActOk | cli/src/commands/chat/actions.ts:50-168 | no single action breaks the agreement between the log of shown reviews and what the state would send |
| ChatWrites.NewWritesAreExact | cli/src/commands/chat/actions.ts:50-127 | in every run each action makes exactly one new write when it may and none otherwise, and every part of that write is given: path, text, source, review, start, title, key and `If-Match` |
| ChatWrites.NoMessageOpensAnother | cli/src/commands/chat/session.ts:57-72 | in every run, while a draft is remembered no message opens another one, neither newly sent nor sent again |
| ChatWrites.DraftIsLostExactly | cli/src/commands/chat/session.ts:44-139 | in every run a known draft is lost only by a clear, a removal or an answer of 401, 403, 404 or 410, and by these it is |
| ChatWrites.OpenedIsRemembered | cli/src/commands/chat/session.ts:57-87 | in every run the draft a write opens is the one remembered, unless following its message says otherwise |
| ChatShown.ShownIsLastReview | cli/src/commands/chat/actions.ts:50-168 | in every run the review a setup write can carry is the last one shown, told from the actions and their answers, with everything that makes it unusable written out |
| ChatShown.SettledRetryReplays | cli/src/commands/chat/setup-session.ts:71-78 | in every run a retry with nothing unresolved replays the last Save exactly, or is refused; the branch that only reads the fleet is never taken |
| ChatShown.ActionsEnd | cli/src/commands/chat/actions.ts:50-179 | in every run the writes end as they are answered, and the partial flag says whether what completed last left work undone |
| ChatRecovery.Recover | cli/src/commands/chat/command-recovery.ts:17-41 | a recovery invocation issues the one action its arguments describe, and none when one is missing |
| ChatRecovery.Invoke | cli/src/commands/chat/commands.ts:52-76 | an invocation whose arguments are refused, or whose Definition file cannot be read, stops and sends nothing; one that recovers leaves the record of its session; any other goes on to the ordinary actions |
| ChatRecovery.AcceptedExactly | cli/src/commands/chat/commands.ts:102-126 | an invocation is accepted exactly when its arguments go together and it recovers one setup write, repeats one draft write, or is an ordinary one |
| ChatRecovery.RecoveryIsExact | cli/src/commands/chat/commands.ts:102-126 | a fresh invocation fed the record and the caller's run message sends exactly the original request if and only if the record's identifiers are canonical and no needed argument is empty; it then holds the operation exactly while the outcome stays unknown, and leaves the same record exactly then or when a Save succeeded with a partial fleet |
| ChatRecovery.RecordsThatFail | cli/src/commands/chat/commands.ts:102-126 | five records the wire allows for which nothing is sent: a candidate or fleet identifier of another shape, an empty name, and an empty digest of a Save or an Apply |
| ChatRecovery.EveryUncertainWriteIsRecovered | cli/src/commands/chat/command-recovery.ts:11-41 | for the unresolved setup write of every run, recovery does exactly that, under that condition |
| RecoveryRuns.RealRunsRecover | cli/src/commands/chat/commands.ts:78-126 | in every run with canonical keys and non-empty labels and targets, recovery sends the original request if and only if the candidate is canonical, a Save's name and digest are not empty, and an Apply's fleet is canonical and its digest not empty, and otherwise nothing |
| RecoveryRuns.OfferedRecordNames | cli/src/commands/chat/setup-session.ts:36-127 | in every run that never reuses a Save's key, an offered record names the unresolved write or the Save that gave the partial fleet exactly when no retry has settled its write otherwise |
| RecoveryRuns.RecordLeftBehind | cli/src/commands/chat/setup-session.ts:36-127 | a run of review, Save, Publish and retry after which nothing is unresolved and the record of the succeeded Publish is offered |
| ChatClient.ChatActions.ReportRecovery | cli/src/commands/chat/actions.ts:37-44 | an offered setup record is told before the key of an uncertain draft write |
| RecoveryRuns.ReportNamesExactly | cli/src/commands/chat/actions.ts:37-44 | in every run the report names the unresolved operation exactly when that is a setup write, or a draft write with a key beside which no setup record is offered |
| RecoveryRuns.MessageUnreported | cli/src/commands/chat/actions.ts:37-44 | a run of review, Save with a partial fleet and lost message, whose report is the settled Save's record and never the message's key |
| ChatKeys.NewWritesNeverShareAKey | cli/src/commands/chat/actions.ts:50-187 | over every run whose minted identifiers are distinct and new, the new writes of all four kinds go out under pairwise different keys |
| SteerTail.EventTail.OnFrame | cli/src/commands/fleet_steer_events.ts:151-168 | before the id is known a frame is buffered and the oldest are evicted until both caps hold; afterwards it passes the filter |
| SteerTail.EventTail.DeliverEventId | cli/src/commands/fleet_steer_events.ts:169-175 | any loss is announced first, then the buffer is replayed up to the first stop |
| SteerTail.KeepIsLongestSuffix | cli/src/commands/fleet_steer_events.ts:158-166 | eviction keeps the longest suffix that fits both caps |
| SteerTail.KeepIncrementally | cli/src/commands/fleet_steer_events.ts:151-168 | evicting at every arrival keeps what evicting once at the end would keep |
| SteerTail.BufferHoldsLongestSuffix | cli/src/commands/fleet_steer_events.ts:146-177 | after any frames the buffer is that suffix and the drop count is exact |
| SteerTail.OnlyOwnFramesMatter | cli/src/commands/fleet_steer_events.ts:88-111 | what is shown depends only on frames carrying the event id |
| SteerTail.TailShowsKeptFrames | cli/src/commands/fleet_steer_events.ts:146-177 | for every trace and every moment the id arrives, the screen is the filter over the kept early frames and all later ones |
| SteerTail.TimingDoesNotMatter | cli/src/commands/fleet_steer_events.ts:233-244 | with nothing dropped, the moment the id arrives changes nothing: the screen is that of filtering from the first frame |
| SteerScreen.ScreenIsTold | cli/src/commands/fleet_steer_events.ts:88-111 | for every trace the lines are those of the own frames in order up to the first completion no printer takes, reasoning never among them, and the status is that completion's |
| SteerScreen.TailIsTold | cli/src/commands/fleet_steer_events.ts:146-244 | the same for the tail, whenever the id arrives: the notice with the number dropped, then the kept early frames and the later ones |
| SteerScreen.EveryLineIsSaid | cli/src/commands/fleet_steer_events.ts:98-108 | beside silent printers every line is the text of an own chunk that is not reasoning, or an own final reply |
| SteerTurn.RunKeepsInv | cli/src/commands/fleet_steer.ts:113-171 | the invariant of subscription, send, acceptance, delivery and fallback holds after every run |
| SteerTurn.LiveCompletionIsWhole | cli/src/commands/fleet_steer.ts:119-168 | a live completion with nothing dropped shows the whole event, and its message was accepted only after the subscription was open |
| SteerTurn.LiveCompletionIsTold | cli/src/commands/fleet_steer.ts:119-168 | so it shows, of all the frames published for the event, the lines up to its first completion, and ends with that completion's status |
| SteerTurn.UnreadyTailIsNeverHeard | cli/src/commands/fleet_steer.ts:147-163 | a tail that timed out before the send never shows a frame and never gives the outcome |
| SteerTurn.AbortedTurnNeverPosts | cli/src/commands/fleet_steer.ts:119-130 | in every continuation of a turn aborted before the send, nothing is sent or accepted and no frame of the event is published |
| SteerTurn.AbortedTurnNeverCompletes | cli/src/commands/fleet_steer.ts:119-168 | in every continuation of a turn aborted before its end no completion is reported, and before the delivery of the event id nothing more is shown |
| SteerTurn.InterruptedTurnMayRun | cli/src/commands/fleet_steer.ts:124-138 | a run in which the abort falls in the flight of the send: the turn reports the interruption and the server accepts the message |
| SteerTurn.AbortedRunsExactlyIfSent | cli/src/commands/fleet_steer.ts:119-138 | of an aborted turn whose message is not accepted yet, some continuation has it accepted exactly when it has been sent |
| SteerTurn.PollEventTerminal | cli/src/commands/fleet_steer_events.ts:264-312 | the first read that decides gives the outcome, a refusal or a not-found after the event was seen fails, and otherwise the poll times out |
| SseFraming.BoundaryIsFirst | cli/src/lib/sse.ts:88-97 | a frame ends at the first blank line and nowhere earlier |
| SseFraming.FramesContinue | cli/src/lib/sse.ts:84-99 | frames already cut never change when more text arrives |
| SseFraming.ParseSseFrame | cli/src/lib/sse.ts:111-133 | the loop reads id, kind and data as the line reader says, and a frame without data is no event |
| SseFields.LineIsField | cli/src/lib/sse.ts:115-128 | every line is read as the field it is: a name before the first colon, and the value after it |
| SseFields.FrameIsFields | cli/src/lib/sse.ts:111-133 | a frame is an event exactly when its joined data is not empty, with the last id and the last kind it names |
| SseFields.TrimsExactly | cli/src/lib/sse.ts:119-125 | trimming takes away leading white space, all of it, and nothing else |
| SseFraming.StreamGet | cli/src/lib/sse.ts:82-99 | for every chunking the delivered events are those of the whole text's frames up to the first stop, and the unterminated tail is discarded |
| SseRoundTrip.FrameRoundTrip | cli/src/lib/sse.ts:111-133 | a written frame whose id and kind fit a line reads back as its event if and only if its data starts with a non-empty line and no line ends with a carriage return |
| SseRoundTrip.DataThatIsLost | cli/src/lib/sse.ts:111-133 | two events that do not read back: data with an empty first line, and data whose line ends with a carriage return |
| SseRoundTrip.StreamRoundTrip | cli/src/lib/sse.ts:82-133 | a stream of written frames reads back as exactly its events, with nothing left over |
| LoginCallbacks.LoginCallback.constructor | cli/src/commands/login-callback.ts:40-50 | the server starts waiting, undecided and with no reads |
| LoginCallbacks.LoginCallback.EndWaiting | cli/src/commands/login-callback.ts:73-79 | cancellation and expiry decide only a server that is still waiting |
| LoginCallbacks.LoginCallback.Finish | cli/src/commands/login-callback.ts:59-63 | finishing replies only while finalizing |
| LoginCallbacks.LoginCallback.Close | cli/src/commands/login-callback.ts:65-67 | closing cancels a wait and fails a finalization |
| LoginCallbacks.LoginCallback.Admit | cli/src/commands/login-callback.ts:96-102 | a request is refused in the order stage, headers, read limit, length, and otherwise counted |
| LoginCallbacks.LoginCallback.ReadOver | cli/src/commands/login-callback.ts:103 | however a body read ends, it is no longer counted |
| LoginCallbacks.LoginCallback.Resume | cli/src/commands/login-callback.ts:103-114 | a body is taken only if the server is still waiting when it is read |
| LoginCallbacks.ReadBody | cli/src/commands/login-callback.ts:117-136 | there is a text exactly when a body is there, ends in time and without error, fits 1024 bytes and decodes |
| LoginCallbacks.OneDecision | cli/src/commands/login-callback.ts:57-115 | under every interleaving the decision settles once, exactly when waiting ends, at most one submission is accepted, and the read counter equals the readers and never exceeds 8 |
| LoginCallbacks.WhoIsAdmitted | cli/src/commands/login-callback.ts:96-115 | under every interleaving, told from how each request arrived and resumed: exactly those that came while waiting, with valid headers, beside fewer than 8 reads and not too long are read, the others got 409, 400, 429 or 413 in that order, and the one taken is the decision |
| LoginCallbacks.EndingsAreExact | cli/src/commands/login-callback.ts:57-79 | in every world a run reaches, cancelling, expiring, finishing and closing do exactly what they are named after, and nothing at another stage |
| LoginCallbacks.StageMovesForward | cli/src/commands/login-callback.ts:57-115 | along every run the stage only moves forward and a settled decision or reply never changes |
| LoginCallbacks.ClosingSettlesEverything | cli/src/commands/login-callback.ts:65-79 | once closed, whatever follows, the decision is settled, an accepted approval has its reply, and nothing more is accepted |
| HttpRetry.ResolveRuntime | cli/src/lib/http-retry.ts:229-251 | a missing configuration means the defaults, only a number of attempts outside 1 to 10 is refused, and the no-retry setting means one attempt |
| HttpRetry.ReplayGate | cli/src/lib/http-retry.ts:113-143 | a request whose method is not safe to repeat runs at most once more than the attempts whose connection was reported broken, by the socket codes |
| HttpRetry.RepeatsExactly | cli/src/lib/http-retry.ts:113-299 | which failures of which methods are sent again, by status, socket code and method |
| HttpRetry.RunIsExact | cli/src/lib/http-retry.ts:301-330 | a whole run told from its world: it goes on for as long as each attempt may be repeated, waits as it should, and ends as its last attempt says |
| HttpRetry.DropCanDouble | cli/src/lib/http-retry.ts:53-60 | a concrete run in which a reported reset lets a POST run twice |
| HttpRetry.RunsOnceExactly | cli/src/lib/http-retry.ts:113-330 | behind what the client saw, a truthful server can have run the request at most once if and only if at most one attempt was sent whose outcome does not prove that it was not run |
| HttpRetry.BackoffBound | cli/src/lib/http-retry.ts:153-163 | every wait is non-negative and at most a fifth over the larger cap |
| HttpRetry.BackoffIsWait | cli/src/lib/http-retry.ts:153-163 | a wait is the doubling delay up to its cap give or take a fifth, or the server's and at most a fifth more |
| HttpRetry.RunIsBounded | cli/src/lib/http-retry.ts:274-330 | no run sends more attempts than configured, and every notice has its bounded wait |
| HttpRetry.OneTerminalNotice | cli/src/lib/http-retry.ts:301-330 | exactly one terminal notice, counting the retries, unless the run was aborted before an attempt or in a wait |
| HttpRetry.RequestPromises | cli/src/lib/http-retry.ts:229-330 | the bounds, the replay gate and the terminal notice together, for every configuration and world |
| TaskActivity.ActivityPrinter.OnFrame | cli/src/commands/task-activity.ts:38-65 | a stale frame changes nothing, a new line is printed once, and the maps evict their oldest entry over 128 and 256 |
| TaskActivity.ActivityPrinter.History | cli/src/commands/task-activity.ts:67-76 | the last 128 items are shown, then the cut notice once |
| ActivityShown.PrintedExactly | cli/src/commands/task-activity.ts:38-65 | a run of at most 128 operations and 256 stages prints exactly the lines of its news, told from the frames alone |
| ActivityShown.RetainedIsBounded | cli/src/commands/task-activity.ts:50-63 | however long a run of frames is, at most 128 operations and 256 stages are retained |
| ActivityShown.OnlyTheLastAreRead | cli/src/commands/task-activity.ts:67-71 | of a saved history only the last 128 items are read |
| ActivityShown.LineHasParts | cli/src/commands/task-activity.ts:55-57 | a line names its phase and operation, then the model, the objects and the bytes if they are known, each number in its place |
| TaskActivity.RunOnlyGrows | cli/src/commands/task-activity.ts:44-53 | over every run, sequence, phase rank, completed count and acknowledged and reused bytes of an operation never go down for as long as it is among the 128 retained ones, whatever else is evicted |
| TaskActivity.ReplayIsSilent | cli/src/commands/task-activity.ts:38-65 | with strictly increasing sequences and no eviction, replaying processed frames in any order and number prints nothing |
| ActivityReplay.RejectedForGood | cli/src/commands/task-activity.ts:44-53 | over every run, a frame rejected at some moment is rejected at every later one exactly when its operation is retained at every later one |
| ActivityReplay.ForgottenIsTaken | cli/src/commands/task-activity.ts:44-53 | a frame of an operation that is not retained is taken, whatever it says |
| ActivityEviction.ForgottenGoesBack | cli/src/commands/task-activity.ts:49-53 | a run of 129 operations after which a frame rejected before is taken and the first operation goes back |
| ActivityReplay.CurrentIsNotOvertaken | cli/src/commands/task-activity.ts:44-49 | a processed frame would be taken again exactly when it was accepted and no later accepted frame of its operation overtook it |
| ActivityReplay.SilentExactly | cli/src/commands/task-activity.ts:38-65 | without eviction, replaying processed frames in any order and number prints nothing exactly when no two accepted frames of one stage, neither overtaken, show different lines |
| ActivityReplay.ClashAgrees | cli/src/commands/task-activity.ts:44-58 | two such frames agree in sequence, phase rank, completed count and acknowledged and reused bytes |
| ActivityReplay.UnsequencedIsSilent | cli/src/commands/task-activity.ts:9-16 | a frame without a sequence replays silently, so increasing sequences are not needed |
| ActivityReplay.PollsAreSilent | cli/src/commands/task-activity.ts:67-76 | where a replay is silent (`SilentExactly`), however many reads of a saved history of processed frames follow, they print the cut notice at most once in all, exactly when one of them was cut and it was not shown before |
| TaskActivity.EqualSequencesRepeat | cli/src/commands/task-activity.ts:44-58 | two frames of equal sequence for which replay does print again |
| PyText.LinesOfText | scripts/rustd_coverage.py:97-98 | splitting a text of clean lines gives the lines back |
| PyText.StripExactly | scripts/rustd_coverage.py:98 | stripping takes away the white space at both ends, all of it, and nothing else |
| PyText.ReadShownInt | scripts/rustd_coverage.py:87-91 | reading an integer undoes printing it |
| PyText.IntegersExactly | scripts/rustd_coverage.py:87-91 | a text is an integer exactly when it is a numeral with at most one sign, but for white space around it, and it is that value |
| Lcov.SourceCounts.AddLineHits | scripts/rustd_coverage.py:74-75 | hits of a line are summed |
| Lcov.SourceCounts.AddBranchTaken | scripts/rustd_coverage.py:77-84 | "-" is kept only until some count arrives |
| Lcov.SourceCounts.FoldRecord | scripts/rustd_coverage.py:116-129 | one record changes one count of one file |
| Lcov.Merger.TakeRecord | scripts/rustd_coverage.py:97-113 | a record goes to the open file and to no other, and one outside a file or of an unknown kind refuses the report |
| Lcov.Merger.Parse | scripts/rustd_coverage.py:94-113 | the loop folds a report as its records say, line by line |
| Lcov.Merger.LoadAll | scripts/rustd_coverage.py:256-267 | the reports are folded in order, up to the first that is refused |
| LcovRender.LineRoundTrip | scripts/rustd_coverage.py:132-152 | every written line reads back as what it stands for |
| LcovRender.CountFields | scripts/rustd_coverage.py:116-147 | count records read back from their fields, whatever commas a function name contains |
| LcovRoundTrip.CountsFoldBack | scripts/rustd_coverage.py:138-150 | the written counts of a file fold back into the file |
| LcovRoundTrip.RenderRoundTrip | scripts/rustd_coverage.py:94-152 | reading the written union into an empty one gives the same files, lines, branches, functions and hits of declared functions |
| LcovRoundTrip.ParsedUnionIsClean | scripts/rustd_coverage.py:94-152 | every union read from reports is one the round trip covers |
| LcovReport.UsableExactly | scripts/rustd_coverage.py:94-129 | a report is usable exactly when each line is passed over, opens a file, or is one of the four kept records inside a file, so no other record is dropped in silence |
| LcovReport.ReportIsOrdered | scripts/rustd_coverage.py:132-148 | files are written by path, and in each the functions by declaration and name, the lines and the branches by number |
| LcovReport.TotalsAreRight | scripts/rustd_coverage.py:140-150 | every total written for a file is the number of its own records that it counts |
| LcovMerge.ReportAdds | scripts/rustd_coverage.py:94-129 | folding a report into a union adds the report's own union, and refuses exactly when the report alone is refused |
| LcovMerge.LoadIsSum | scripts/rustd_coverage.py:256-267 | loading is refused exactly when some report is, and else gives the sum of the reports' unions |
| LcovMerge.LoadOrder | scripts/rustd_coverage.py:74-129 | in any order the shards give the same refusals, lines, function names and hits, and branches |
| LcovMerge.LoadOrderAgreed | scripts/rustd_coverage.py:94-152 | where reports agree on declaration lines, any order gives the same union and the same bytes |
| LcovMerge.LineIsSum | scripts/rustd_coverage.py:74-75 | a line of the union is a line of some shard and its hits are the sum of theirs |
| LcovMerge.CoveredBySomeShard | scripts/rustd_coverage.py:74-75 | where no hits are negative, the union covers a line exactly when some shard did |
| LcovMerge.NegativeHitsUncover | scripts/rustd_coverage.py:87-91 | a negative count is read, so one shard can uncover another's line |
| LcovMerge.NeverUncovers | scripts/rustd_coverage.py:74-91 | a shard never uncovers a line that others cover, whichever they are, exactly when its own count of the line is not negative |
| LcovMerge.NeverTaken | scripts/rustd_coverage.py:77-84 | "-" stays in the union exactly while every shard that has the branch says so |
| LcovTotals.CountMissed | scripts/rustd_coverage.py:162-169 | each crate that misses lines is listed with exactly how many, and no other |
| LcovTotals.CrateExactly | scripts/rustd_coverage.py:168 | the crate of a path stands after its first `/crates/`, up to the next slash, and there is none without it |
| LcovTotals.MissedAddsUp | scripts/rustd_coverage.py:155-170 | the rows add up to total minus covered exactly when no count is negative, and are ordered most missed first, then by name |
| LcovTotals.NegativeLineIsNowhere | scripts/rustd_coverage.py:155-170 | a union of one line with a negative count, for which the rows do not add up |
| LcovGrades.GradeLines | scripts/rustd_coverage.py:227-236 | of the changed lines of a measured file exactly the instrumented ones count, each as covered or unhit |
| LcovGrades.GradesAgree | scripts/rustd_coverage.py:155-249 | the per-file grade counts the covered and the negative lines, so it agrees with the totals and with a patch of the whole file exactly when no count is negative |
| LcovGrades.NegativeLineSplitsGrades | scripts/rustd_coverage.py:227-248 | a line that is covered to the per-file grade and unhit to the patch grade |
| Money.StoredExactly | scripts/model-catalogue/catalogue.ts:10-148 | rounding to twenty digits never alters an accepted price: a text is accepted exactly when its amount fits, and its billionths are that amount |
| Money.AmountExactly | scripts/model-catalogue/catalogue.ts:10-11 | a text names an amount exactly when it is digits, or digits, a point and one to nine digits, and it is the amount they write |
| Money.RateRoundTrip | cli/src/constants/billing.ts:38-45 | a printed rate is worth exactly the billionths it was printed from |
| Money.PriceRoundTrip | cli/src/constants/billing.ts:38-45 | the printed rate of a catalogue price is the decimal the catalogue holds |
| Money.FractionDigits | cli/src/constants/billing.ts:33-43 | the fraction has at least two digits, no needless trailing zero, and its exact value |
| Money.GroupedDigits | cli/src/constants/billing.ts:35-44 | grouping inserts only commas |
| Money.CommasInPlace | cli/src/constants/billing.ts:35-44 | the commas stand before every third digit from the right, and nowhere else |
| Money.DollarsAreClose | cli/src/constants/billing.ts:27-36 | a balance prints with its sign, rounded half up to a ten-thousandth, and a debt is never shown as zero |
| Prices.Validate | scripts/model-catalogue/catalogue.ts:88-100 | the tiered loop reports each reversed price and each price that overlaps an earlier one of its tier, in order |
| Prices.IssuesAreExact | scripts/model-catalogue/catalogue.ts:92-99 | exactly the prices that end no later than they begin, and those that meet an earlier one of their tier, are complained of |
| Prices.AcceptedMeansOneInForce | scripts/model-catalogue/catalogue.ts:88-100 | a model is accepted exactly when each price is in force at some time and no two of one tier ever are together |
| Prices.HighestTierAnswers | scripts/model-catalogue/catalogue.ts:150-157 | a prompt size outside the limit is refused; otherwise the answer applies and has the highest applicable tier, and there is none exactly when nothing applies |
| Prices.AnswerIsUnique | scripts/model-catalogue/catalogue.ts:88-157 | in an accepted model no other price could be the answer |
| Prices.AnyOrderSamePrice | scripts/model-catalogue/catalogue.ts:150-157 | in an accepted model the list's order does not change the answer |
| Prices.OverlapMakesOrderMatter | scripts/model-catalogue/catalogue.ts:96-157 | for two different prices of one tier below the context limit, neither with reversed dates, the order is without effect exactly when they do not overlap |
| Billing.EventEntry.ApplyCharge | cli/src/commands/billing.ts:95-110 | a debit goes to its kind's column and always to the total |
| Billing.EventEntry.TakeRow | cli/src/commands/billing.ts:134-142 | a row adds its charge and moves the time only to an earlier instant |
| Billing.GroupRowsByEvent | cli/src/commands/billing.ts:112-147 | the loop over a page groups every row under its key and lists the groups newest first |
| Billing.GroupsDescribe | cli/src/commands/billing.ts:95-142 | a group's columns, tokens, labels and time are those of exactly the rows with its key, and every key has one group |
| Billing.TimeIsEarliest | cli/src/commands/billing.ts:134-142 | a group's time passes over a dated row exactly when the first instant its rows record names no date and some row's does; otherwise it is a row's own and none is earlier |
| Billing.UndatedRowHidesDate | cli/src/commands/billing.ts:134-142 | two rows of one event, the first undated, whose group keeps the undated time |
| Billing.ColumnsWithinTotal | cli/src/commands/billing.ts:95-110 | receive, stage and setup stay within a group's total, and equal it exactly when no unknown kind was charged |
| Billing.PageConserves | cli/src/commands/billing.ts:112-147 | the groups shown, newest first, together hold exactly the debits of every row |
| Billing.GroupsInOrder | cli/src/commands/billing.ts:115-133 | there is one group for every key, in the order in which the page first mentions them |
| Billing.NewestFirstIsStable | cli/src/commands/billing.ts:144-146 | groups of the same moment keep that order |
| Billing.AnyRowOrder | cli/src/commands/billing.ts:112-147 | in any order of the rows each group has the same columns and total, and so has the page |
| Billing.SameGroup | cli/src/commands/billing.ts:86-89 | rows whose fleet identifiers hold no NUL share a group exactly when they are the same work, with the one collision named |
| Billing.CollidingRows | cli/src/commands/billing.ts:86-89 | an authoring attempt and an event of a fleet named `authoring` that share a group |

## Left out

- Rust daemon: its crates are not part of this model; the server appears only as the assumptions above.
- `#sequence` of the draft session and the message page cursor: they choose what is read next, not what is written; following a message is modelled by how it ended.
- `clear()` between a running setup write and a new one: chat runs are sequential; the retained slot itself is modelled under every interleaving.
- A Save's replay after a definite refusal (cli/src/commands/chat/setup-session.ts:74) is modelled as it is; that a refused Save's key is never sent again is not claimed.
- Encoding of paths and bodies: paths and bodies are structured values, and identities are compared as values rather than as JSON text.
- Rendering: colours, tables, warnings and help text; the drop notice of the steer tail is shortened to its count.
- The tool activity printer is an arbitrary joint printer step in `SteerTail`; sanitising printed text (`activityText`) is not modelled.
- UTF-8 decoding of stream chunks and JSON decoding of event data: chunks are decoded text and data stays text.
- Timers and clocks: time-outs, deadlines and polls end when the world says so.
- Header validation and form parsing of the login callback are inputs, and the strict decoder of its body is a parameter.
- What an invocation does besides recovery (workspace selection, credentials, ordinary actions in order and the digest they must repeat, the prompt loop): the actions themselves are modelled, and a recovery is taken to have its workspace and token.
- Waiting times are real numbers: floating-point rounding is not modelled, and a configured number of attempts is an integer.
- A POST answered without an event id fails the turn before the tail is used; that branch is not modelled.
- Python digits outside ASCII, and Python's limit on the length of integer texts.
- Revision sidecars, missing report files, `git diff`, the choice of the measured file, and the percentage comparison of `holds`: the patch and file grades are modelled for one measured file.
- Billing pages, cursors and limits, and the parsing of instants: an instant is a number of milliseconds, or none when its text names no date.
- The other catalogue checks (sources, curated names, context limits, zero prices, duplicate models): single conditions over one value.
- `Intl` grouping is taken to be commas between groups of three.
- ChatRecovery.RecoveryIsExact: is stated for every record, also for a target of two empty fields, which no command builds and which would be lost.
- LcovMerge.CoveredBySomeShard: needs the shards' hits for the line to be non-negative; `NegativeHitsUncover` shows why.
- TaskActivity.ReplayIsSilent: speaks of runs that evict nothing, since an evicted operation may be shown again (`ActivityEviction.ForgottenGoesBack`); so do the other lemmas on silent replay.
- RetainedRequests.ExactlyOnce: that a declined operation never takes effect is stated for servers that keep their refusals; `ForgottenRefusalDoubles` shows why.
